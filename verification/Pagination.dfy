/** Verified pagination of an inventory endpoint whose pages may repeat, change or contradict each other.

    The server is adversarial: the n-th request of an attempt may be answered in any way, so an attempt
    is a function from request numbers to answers. Only its set of continuation cursors is finite. */
module Pagination {
  import opened Common

  type Cursor(==) = string

  /** Resource type, origin site, parent (when there is no path) and locator. */
  datatype Identity = Identity(resourceType: string, site: string, parent: string, locator: string)

  /** A returned row. `strict` holds the fields that must agree between copies, `tolerated` the runtime
      fields that may differ; values without a locator carry no identity. */
  datatype Record = Record(identity: Option<Identity>, strict: string, tolerated: string)

  datatype Page = Page(results: seq<Record>, total: Option<nat>, cursor: Option<Cursor>)

  /** The answer to one request: an error of the transport or a malformed page, or a page. */
  datatype Answer = Failed | Answered(page: Page)

  datatype Server = Server(answers: nat -> Answer, cursors: set<Cursor>)

  ghost predicate Finite(server: Server) {
    forall n: nat :: server.answers(n).Answered? && server.answers(n).page.cursor.Some?
                ==> server.answers(n).page.cursor.value in server.cursors
  }

  /** How one attempt ended: rows complete, inventory seen to change, or an error for the caller. */
  datatype Ending = Complete | Changed | Broken

  // ----- What an attempt establishes about the rows it received -----

  /** An earlier row has the identity of this one. */
  predicate Repeats(rows: seq<Record>, row: Record) {
    row.identity.Some? && exists r :: r in rows && r.identity == row.identity
  }

  /** Rows that are not repetitions, in the order received. */
  function Unique(rows: seq<Record>): seq<Record> {
    if rows == [] then []
    else
      var before, row := rows[..|rows| - 1], rows[|rows| - 1];
      Unique(before) + if Repeats(before, row) then [] else [row]
  }

  /** Copies of one object agree in every field that is compared for its type. */
  predicate Consistent(rows: seq<Record>, exempt: set<string>) {
    forall i, j :: 0 <= i < j < |rows| && rows[i].identity == rows[j].identity && rows[i].identity.Some?
                   && rows[i].identity.value.resourceType !in exempt
      ==> rows[i].strict == rows[j].strict
  }

  predicate NoRepeats(records: seq<Record>) {
    forall i, j :: 0 <= i < j < |records| && records[i].identity.Some? ==> records[i].identity != records[j].identity
  }

  /** Dropping repetitions loses no object and no row without an identity. */
  lemma {:induction false} UniqueKeepsObjects(rows: seq<Record>)
    ensures forall r :: r in Unique(rows) ==> r in rows
    ensures forall r :: r in rows ==> r in Unique(rows) || Repeats(Unique(rows), r)
    ensures NoRepeats(Unique(rows))
  {
    if rows != [] {
      var before, row := rows[..|rows| - 1], rows[|rows| - 1];
      UniqueKeepsObjects(before);
      assert rows == before + [row];
      if Repeats(before, row) {
        var r :| r in before && r.identity == row.identity;
        assert r in Unique(before) || Repeats(Unique(before), r);
      } else {
        forall r | r in rows
          ensures r in Unique(rows) || Repeats(Unique(rows), r)
        {
          assert r == row || r in before;
        }
      }
    }
  }

  lemma UniqueExtends(rows: seq<Record>, row: Record)
    ensures Unique(rows + [row]) == Unique(rows) + if Repeats(rows, row) then [] else [row]
  {
    assert (rows + [row])[..|rows|] == rows;
  }

  /** The bookkeeping of one attempt matches the rows received so far. */
  ghost predicate Tracks(rows: seq<Record>, seen: map<Identity, Record>, total: nat, conflicting: bool, exempt: set<string>) {
    && total == |Unique(rows)|
    && (forall r :: r in rows && r.identity.Some? ==> r.identity.value in seen)
    && (forall identity :: identity in seen ==> seen[identity] in rows && seen[identity].identity == Some(identity))
    && (!conflicting <==>
          forall r :: r in rows && r.identity.Some? && r.identity.value.resourceType !in exempt ==>
            r.strict == seen[r.identity.value].strict)
  }

  method ReadRecord(record: Record, exempt: set<string>, ghost rows: seq<Record>, seen: map<Identity, Record>, total: nat,
                    conflicting: bool)
      returns (seen': map<Identity, Record>, total': nat, conflicting': bool)
    requires Tracks(rows, seen, total, conflicting, exempt)
    ensures Tracks(rows + [record], seen', total', conflicting', exempt)
  {
    seen', total', conflicting' := seen, total, conflicting;
    UniqueExtends(rows, record);
    if record.identity.Some? && record.identity.value in seen {
      assert Repeats(rows, record);
      // The changing payload of types a search discards cannot establish a conflict.
      if record.identity.value.resourceType !in exempt && seen[record.identity.value].strict != record.strict {
        conflicting' := true;
      }
    } else {
      if record.identity.Some? {
        seen' := seen[record.identity.value := record];
      }
      total' := total + 1;
    }
    StillTracks(rows, record, seen, total, conflicting, seen', total', conflicting', exempt);
  }

  lemma StillTracks(rows: seq<Record>, record: Record, seen: map<Identity, Record>, total: nat, conflicting: bool,
                    seen': map<Identity, Record>, total': nat, conflicting': bool, exempt: set<string>)
    requires Tracks(rows, seen, total, conflicting, exempt)
    requires total' == |Unique(rows + [record])|
    requires if record.identity.Some? && record.identity.value !in seen then seen' == seen[record.identity.value := record]
             else seen' == seen
    requires conflicting' == (conflicting || (record.identity.Some? && record.identity.value.resourceType !in exempt
                                              && seen'[record.identity.value].strict != record.strict))
    ensures Tracks(rows + [record], seen', total', conflicting', exempt)
  {
    hide Unique;
    var all := rows + [record];
    assert forall r :: r in all <==> r in rows || r == record;
    if conflicting {
      var r :| r in rows && r.identity.Some? && r.identity.value.resourceType !in exempt
               && r.strict != seen[r.identity.value].strict;
      assert r in all;
    } else if conflicting' {
      assert record in all;
    }
  }

  /** Reads the rows of one page into the bookkeeping. */
  method ReadPage(page: Page, exempt: set<string>, ghost rows: seq<Record>, seen: map<Identity, Record>, total: nat,
                  conflicting: bool)
      returns (seen': map<Identity, Record>, total': nat, conflicting': bool)
    requires Tracks(rows, seen, total, conflicting, exempt)
    ensures Tracks(rows + page.results, seen', total', conflicting', exempt)
  {
    hide Tracks;
    seen', total', conflicting' := seen, total, conflicting;
    assert rows + page.results[..0] == rows;
    for i := 0 to |page.results|
      invariant Tracks(rows + page.results[..i], seen', total', conflicting', exempt)
    {
      assert rows + page.results[..i + 1] == (rows + page.results[..i]) + [page.results[i]];
      seen', total', conflicting' :=
        ReadRecord(page.results[i], exempt, rows + page.results[..i], seen', total', conflicting');
    }
    assert page.results[..|page.results|] == page.results;
  }

  lemma NoConflictMeansConsistent(rows: seq<Record>, seen: map<Identity, Record>, total: nat, exempt: set<string>)
    requires Tracks(rows, seen, total, false, exempt)
    ensures Consistent(rows, exempt)
  {
    forall i, j | 0 <= i < j < |rows| && rows[i].identity == rows[j].identity && rows[i].identity.Some?
                  && rows[i].identity.value.resourceType !in exempt
      ensures rows[i].strict == rows[j].strict
    {
      assert rows[i] in rows && rows[j] in rows;
    }
  }

  lemma ConflictMeansInconsistent(rows: seq<Record>, seen: map<Identity, Record>, total: nat, exempt: set<string>)
    requires Tracks(rows, seen, total, true, exempt)
    ensures !Consistent(rows, exempt)
  {
    var r :| r in rows && r.identity.Some? && r.identity.value.resourceType !in exempt
             && r.strict != seen[r.identity.value].strict;
    var i :| 0 <= i < |rows| && rows[i] == r;
    var j :| 0 <= j < |rows| && rows[j] == seen[r.identity.value];
    assert rows[i].identity == rows[j].identity;
  }

  lemma {:induction false} AllUnique(rows: seq<Record>)
    ensures |Unique(rows)| <= |rows|
    ensures |Unique(rows)| == |rows| <==> Unique(rows) == rows
  {
    if rows != [] {
      AllUnique(rows[..|rows| - 1]);
      assert rows == rows[..|rows| - 1] + [rows[|rows| - 1]];
    }
  }

  ghost predicate Verified(rows: seq<Record>, expected: Option<nat>, exempt: set<string>) {
    && Consistent(rows, exempt)
    && match expected
       case Some(total) => |Unique(rows)| == total
       case None => Unique(rows) == rows
  }

  lemma EmptyTracks(exempt: set<string>)
    ensures Tracks([], map[], 0, false, exempt)
  {
  }

  /** The bookkeeping decides whether the rows received are verified. */
  lemma VerifiedByBookkeeping(rows: seq<Record>, seen: map<Identity, Record>, total: nat, conflicting: bool,
                              expected: Option<nat>, exempt: set<string>)
    requires Tracks(rows, seen, total, conflicting, exempt)
    ensures total == |Unique(rows)|
    ensures Verified(rows, expected, exempt) <==>
              !conflicting && total == if expected.Some? then expected.value else |rows|
  {
    AllUnique(rows);
    if conflicting {
      ConflictMeansInconsistent(rows, seen, total, exempt);
    } else {
      NoConflictMeansConsistent(rows, seen, total, exempt);
    }
  }

  // ----- One attempt -----

  /** The rows of the first n answers, while they are pages. */
  function RowsOf(answers: nat -> Answer, n: nat): seq<Record> {
    if n == 0 then []
    else RowsOf(answers, n - 1) + if answers(n - 1).Answered? then answers(n - 1).page.results else []
  }

  /** The total is taken from the first page that reports one. */
  function Advertised(answers: nat -> Answer, n: nat): Option<nat> {
    if n == 0 then None
    else if Advertised(answers, n - 1).Some? then Advertised(answers, n - 1)
    else if answers(n - 1).Answered? then answers(n - 1).page.total
    else None
  }

  /** The first n pages are where reading stops: the total is reached or the continuation ends. */
  predicate Stops(answers: nat -> Answer, n: nat) {
    && n > 0
    && (|| (answers(n - 1).Answered? && answers(n - 1).page.cursor == None)
        || Advertised(answers, n) == Some(|Unique(RowsOf(answers, n))|))
  }

  lemma NoAnswers(answers: nat -> Answer)
    ensures RowsOf(answers, 0) == [] && Advertised(answers, 0) == None && NoStop(answers, 0) && CameWith(answers, 0, {})
  {
  }

  lemma OneMoreAnswer(answers: nat -> Answer, n: nat)
    requires answers(n).Answered?
    ensures RowsOf(answers, n + 1) == RowsOf(answers, n) + answers(n).page.results
    ensures Advertised(answers, n + 1) == if Advertised(answers, n).Some? then Advertised(answers, n) else answers(n).page.total
    ensures Stops(answers, n + 1) <==>
              answers(n).page.cursor == None || Advertised(answers, n + 1) == Some(|Unique(RowsOf(answers, n + 1))|)
  {
    hide Unique;
  }

  ghost predicate FirstStop(answers: nat -> Answer, n: nat) {
    Stops(answers, n) && forall m: nat :: m < n ==> !Stops(answers, m)
  }

  /** After n pages the next request fails, or the continuation goes in a circle. */
  ghost predicate Breaks(answers: nat -> Answer, n: nat) {
    || answers(n).Failed?
    || (n > 0 && answers(n - 1).Answered? && answers(n - 1).page.cursor.Some?
        && exists m: nat :: m < n - 1 && answers(m).Answered? && answers(m).page.cursor == answers(n - 1).page.cursor)
  }

  /** The continuations followed so far came with the first n answers. */
  ghost predicate CameWith(answers: nat -> Answer, n: nat, followed: set<Cursor>) {
    forall cursor | cursor in followed ::
      exists m: nat :: m < n && answers(m).Answered? && answers(m).page.cursor == Some(cursor)
  }

  lemma FollowOne(answers: nat -> Answer, n: nat, followed: set<Cursor>)
    requires CameWith(answers, n, followed) && answers(n).Answered? && answers(n).page.cursor.Some?
    ensures CameWith(answers, n + 1, followed + {answers(n).page.cursor.value})
  {
  }

  lemma FailureBreaks(answers: nat -> Answer, n: nat)
    requires answers(n).Failed?
    ensures Breaks(answers, n)
  {
  }

  lemma CircleBreaks(answers: nat -> Answer, n: nat, followed: set<Cursor>)
    requires CameWith(answers, n, followed) && answers(n).Answered?
    requires answers(n).page.cursor.Some? && answers(n).page.cursor.value in followed
    ensures Breaks(answers, n + 1)
  {
  }

  ghost predicate NoStop(answers: nat -> Answer, n: nat) {
    forall m: nat :: m <= n ==> !Stops(answers, m)
  }

  lemma StopsNext(answers: nat -> Answer, n: nat)
    requires NoStop(answers, n)
    ensures if Stops(answers, n + 1) then FirstStop(answers, n + 1) else NoStop(answers, n + 1)
  {
    hide Stops;
  }

  /** Reads pages until the advertised total is reached or the continuation ends. Terminates because a
      repeated cursor is an error and there are finitely many. */
  method ItemsOnce(server: Server, exempt: set<string>) returns (ending: Ending, rows: seq<Record>, pages: nat)
    requires Finite(server)
    ensures rows == RowsOf(server.answers, pages)
    ensures if ending == Broken then Breaks(server.answers, pages) else FirstStop(server.answers, pages)
    ensures ending == Complete ==> Verified(rows, Advertised(server.answers, pages), exempt)
    ensures ending == Changed ==> !Verified(rows, Advertised(server.answers, pages), exempt)
  {
    hide Tracks, Verified, Unique, RowsOf, Advertised, Stops, FirstStop, Breaks, CameWith, NoStop;
    NoAnswers(server.answers);
    assert Tracks([], map[], 0, false, exempt) by {
      EmptyTracks(exempt);
    }
    var followed: set<Cursor> := {};
    var seen: map<Identity, Record> := map[];
    var total := 0;
    var expected: Option<nat> := None;
    var conflicting := false;
    rows, pages := [], 0;
    while true
      invariant rows == RowsOf(server.answers, pages)
      invariant followed <= server.cursors
      invariant NoStop(server.answers, pages)
      invariant CameWith(server.answers, pages, followed)
      invariant expected == Advertised(server.answers, pages)
      invariant Tracks(rows, seen, total, conflicting, exempt)
      decreases |server.cursors - followed|
    {
      var answer := server.answers(pages);
      if answer.Failed? {
        FailureBreaks(server.answers, pages);
        return Broken, rows, pages;
      }
      var page := answer.page;
      if expected == None {
        expected := page.total;
      }
      seen, total, conflicting := ReadPage(page, exempt, rows, seen, total, conflicting);
      rows := rows + page.results;
      OneMoreAnswer(server.answers, pages);
      StopsNext(server.answers, pages);
      pages := pages + 1;
      VerifiedByBookkeeping(rows, seen, total, conflicting, expected, exempt);
      if conflicting && (expected == Some(total) || page.cursor == None) {
        return Changed, rows, pages;
      }
      if expected == Some(total) {
        return Complete, rows, pages;
      }
      if page.cursor == None {
        // Rows in excess of the unique ones are duplicates.
        ending := if expected.Some? || total != |rows| then Changed else Complete;
        return;
      }
      if page.cursor.value in followed {
        CircleBreaks(server.answers, pages - 1, followed);
        return Broken, rows, pages;
      }
      FollowOne(server.answers, pages - 1, followed);
      followed := followed + {page.cursor.value};
      assert server.cursors - followed < server.cursors - (followed - {page.cursor.value});
    }
  }

  // ----- Retries -----

  const ATTEMPTS := 3

  /** The outcome of a listing: an error, the rows of one attempt, or those rows with a warning. */
  datatype Listing = Error | Rows(records: seq<Record>, warned: bool)

  /** Attempt a of the listing is where its records come from. */
  ghost predicate ComesFrom(listing: Listing, server: Server, exempt: set<string>, pages: nat)
    requires listing.Rows?
  {
    var rows := RowsOf(server.answers, pages);
    && listing.records == Unique(rows)
    && (!listing.warned <==> Verified(rows, Advertised(server.answers, pages), exempt))
  }

  /** An attempt that read to the end but could not be verified. */
  ghost predicate Unverified(server: Server, exempt: set<string>) {
    exists n: nat :: FirstStop(server.answers, n)
                && !Verified(RowsOf(server.answers, n), Advertised(server.answers, n), exempt)
  }

  /** A search owner retries elsewhere, so a change of the inventory is its error to handle. */
  method Items(attempts: seq<Server>, exempt: set<string>, owned: bool)
      returns (listing: Listing, attempt: nat, pages: nat)
    requires |attempts| == (if owned then 1 else ATTEMPTS) && forall server :: server in attempts ==> Finite(server)
    ensures attempt < |attempts| && forall i :: 0 <= i < attempt ==> Unverified(attempts[i], exempt)
    ensures listing.Rows? ==> FirstStop(attempts[attempt].answers, pages) && ComesFrom(listing, attempts[attempt], exempt, pages)
    ensures listing.Rows? && listing.warned ==> attempt == 2 && !owned
    ensures listing.Error? ==> Breaks(attempts[attempt].answers, pages) || (owned && Unverified(attempts[attempt], exempt))
  {
    attempt, pages, listing := 0, 0, Error;
    for i := 0 to |attempts|
      invariant i < |attempts|
      invariant forall j :: 0 <= j < i ==> Unverified(attempts[j], exempt)
    {
      attempt := i;
      var ending, rows;
      ending, rows, pages := ItemsOnce(attempts[i], exempt);
      if ending == Broken || (ending == Changed && owned) {
        return Error, attempt, pages;
      }
      var records := Deduplicate(rows);
      if ending == Complete {
        return Rows(records, false), attempt, pages;
      }
      if i == ATTEMPTS - 1 {
        return Rows(records, true), attempt, pages;
      }
    }
    assert false;
  }

  method Deduplicate(rows: seq<Record>) returns (records: seq<Record>)
    ensures records == Unique(rows)
  {
    records := [];
    var identities: set<Identity> := {};
    for i := 0 to |rows|
      invariant records == Unique(rows[..i])
      invariant forall r :: r in rows[..i] && r.identity.Some? ==> r.identity.value in identities
      invariant forall identity :: identity in identities ==> exists r :: r in rows[..i] && r.identity == Some(identity)
    {
      var record := rows[i];
      assert rows[..i + 1] == rows[..i] + [record];
      UniqueExtends(rows[..i], record);
      if record.identity.Some? && record.identity.value in identities {
        assert Repeats(rows[..i], record);
      } else {
        if record.identity.Some? {
          identities := identities + {record.identity.value};
        }
        records := records + [record];
      }
    }
    assert rows[..|rows|] == rows;
  }

  /** A listing without a warning whose server advertised a total has exactly that many records, no two of
      the same object, and no two received copies of an object disagree. */
  lemma QuietListingIsExact(listing: Listing, server: Server, exempt: set<string>, pages: nat)
    requires listing.Rows? && !listing.warned && ComesFrom(listing, server, exempt, pages)
    requires Advertised(server.answers, pages).Some?
    ensures |listing.records| == Advertised(server.answers, pages).value
    ensures Consistent(RowsOf(server.answers, pages), exempt)
    ensures NoRepeats(listing.records)
    ensures forall r :: r in RowsOf(server.answers, pages) ==> r in listing.records || Repeats(listing.records, r)
  {
    UniqueKeepsObjects(RowsOf(server.answers, pages));
  }
}
