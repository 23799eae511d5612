/** Recomputing observation periods from saved collections, and its agreement with the incremental fold. */
module FindingReplay {
  import opened Common
  import opened FindingModel
  import opened Observation
  import opened FindingWorkflow
  import opened Findings

  /** A finding as the replay rebuilds it; a state that is kept at all is present. */
  datatype Replayed = Replayed(condition: Row, lastSeen: Time, watch: Watch)

  /** The two counter fields the evidence index keeps of a row. */
  function Indexed(row: Row): Row {
    map["hit_count" := if EqualsZero(Get(row, "hit_count")) then Num(0) else Null,
        "statistics_checked_at" := Get(row, "statistics_checked_at")]
  }

  function LookupState(states: map<Key, Replayed>, key: Key): Option<Replayed> {
    if key in states then Some(states[key]) else None
  }

  predicate Covered(kinds: set<Kind>, key: Key) {
    key.kind in kinds && Replayable(key.kind)
  }

  /** One index row advances (or starts) the state of its finding. */
  function Replay1(state: Option<Replayed>, candidate: Candidate, stamp: Time, policy: FindingPolicy, interval: nat): Replayed
  {
    var kind := candidate.key.kind;
    var condition := ConditionFingerprint(kind, candidate.evidence);
    var started := if state.Some? then state.value else Replayed(map[], stamp, UNWATCHED);
    var reset := state == None || started.condition != condition;
    Replayed(condition, stamp,
             Advanced(started.watch, kind, started.lastSeen, Check(policy, interval, stamp, reset, Indexed(candidate.row))))
  }

  function AfterRows(state: Option<Replayed>, candidate: Option<Candidate>, key: Key, c: Collection, kinds: set<Kind>,
                     policy: FindingPolicy, interval: nat): Option<Replayed>
  {
    if candidate == None || !Covered(kinds, key) || Affects(c.report.issues, key) then state
    else Some(Replay1(state, candidate.value, c.stamp, policy, interval))
  }

  /** What replaying collection c makes of one state; missing objects break the sequence. */
  function ReplayStep(state: Option<Replayed>, key: Key, c: Collection, kinds: set<Kind>,
                      policy: FindingPolicy, interval: nat): Option<Replayed>
  {
    var candidate := CandidateFor(c.report, key);
    var after := AfterRows(state, candidate, key, c, kinds, policy, interval);
    if (candidate == None || !Covered(kinds, key)) && !Affects(c.report.issues, key) then None else after
  }

  function ReplayOf(history: seq<Collection>, n: nat, key: Key, kinds: set<Kind>, policy: FindingPolicy, interval: nat):
      Option<Replayed>
    requires n <= |history|
  {
    if n == 0 then None
    else ReplayStep(ReplayOf(history, n - 1, key, kinds, policy, interval), key, history[n - 1], kinds, policy, interval)
  }

  method Replay(history: seq<Collection>, kinds: set<Kind>, policy: FindingPolicy, interval: nat)
      returns (states: map<Key, Replayed>)
    ensures forall key :: LookupState(states, key) == ReplayOf(history, |history|, key, kinds, policy, interval)
  {
    states := map[];
    for n := 0 to |history|
      invariant forall key :: LookupState(states, key) == ReplayOf(history, n, key, kinds, policy, interval)
    {
      states := ReplayCollection(states, history[n], kinds, policy, interval);
    }
  }

  method ReplayCollection(before: map<Key, Replayed>, c: Collection, kinds: set<Kind>, policy: FindingPolicy,
                          interval: nat) returns (states: map<Key, Replayed>)
    ensures forall key :: LookupState(states, key)
              == ReplayStep(LookupState(before, key), key, c, kinds, policy, interval)
  {
    hide Affects, Candidates, Replay1;
    states := before;
    var candidates := Candidates(c.report);
    var seen: set<Key> := {};
    for i := 0 to |candidates|
      invariant forall key :: !Affects(c.report.issues, key) ==>
                  (key in seen <==> FirstCandidate(candidates, i, key).Some? && Covered(kinds, key))
      invariant forall key :: key in seen ==> Covered(kinds, key) && FirstCandidate(candidates, i, key).Some?
      invariant forall key :: LookupState(states, key) == AfterRows(LookupState(before, key),
                  FirstCandidate(candidates, i, key), key, c, kinds, policy, interval)
    {
      var key := candidates[i].key;
      // The index keeps the first row of each kind and path.
      if Covered(kinds, key) && !Affects(c.report.issues, key) && key !in seen {
        seen := seen + {key};
        var state := Replay1(LookupState(states, key), candidates[i], c.stamp, policy, interval);
        states := states[key := state];
      }
    }
    states := DropUnseen(states, seen, c);
  }

  method DropUnseen(before: map<Key, Replayed>, seen: set<Key>, c: Collection) returns (states: map<Key, Replayed>)
    ensures forall key :: LookupState(states, key) ==
              if key !in seen && !Affects(c.report.issues, key) then None else LookupState(before, key)
  {
    hide Affects;
    states := before;
    var remaining := before.Keys;
    while remaining != {}
      invariant remaining <= before.Keys
      invariant forall key :: LookupState(states, key) ==
                  if key !in remaining && key !in seen && !Affects(c.report.issues, key) then None
                  else LookupState(before, key)
    {
      var key :| key in remaining;
      if key !in seen && !Affects(c.report.issues, key) {
        states := states - {key};
      }
      remaining := remaining - {key};
    }
  }

  // ----- Agreement with the incremental fold -----

  /** Review work between collections: decisions change, observations and evidence do not. */
  predicate ReviewOnly(before: map<Key, FindingRow>, after: map<Key, FindingRow>) {
    && before.Keys == after.Keys
    && forall key | key in before ::
         && after[key].key == key
         && after[key].evidence == before[key].evidence
         && after[key].present == before[key].present
         && after[key].lastSeen == before[key].lastSeen
         && after[key].snapshot == before[key].snapshot
         && after[key].watch == before[key].watch
  }

  /** Findings built up collection by collection, with any review work in between.
      `before[i]` and `after[i]` surround the fold of collection i. */
  ghost predicate Incremental(history: seq<Collection>, before: seq<map<Key, FindingRow>>, after: seq<map<Key, FindingRow>>) {
    && |before| == |after| == |history|
    && (history != [] ==> before[0] == map[])
    && (forall i :: 0 <= i < |history| ==> Synchronized(before[i], after[i], history[i]))
    && (forall i :: 0 < i < |history| ==> ReviewOnly(after[i - 1], before[i]))
  }

  predicate UniquePaths(report: Report) {
    var rows := report.objects + report.rules + report.policies;
    forall i, j :: 0 <= i < j < |rows| ==> PathOf(rows[i]) != PathOf(rows[j])
  }

  /** For zero hits the fold reads the counters of the row last listed under the path, the replay those of the
      row the candidate came from. They agree unless a path is listed twice with different counters. */
  predicate CountersAgree(report: Report, key: Key) {
    key.kind == ZeroHits && CandidateFor(report, key).Some? ==>
      Indexed(RowOrEmpty(SourceRow(report, key.path))) == Indexed(CandidateFor(report, key).value.row)
  }

  predicate SameSettings(history: seq<Collection>, key: Key, policy: FindingPolicy, interval: nat) {
    forall c | c in history ::
      c.policy == policy && c.interval == interval && c.deleted == map[] && CountersAgree(c.report, key)
  }

  predicate DistinctIds(history: seq<Collection>) {
    forall i, j :: 0 <= i < j < |history| ==> history[i].id != history[j].id
  }

  /** The replayed state is the incremental finding, as long as that is present. */
  predicate Agree(finding: Option<FindingRow>, state: Option<Replayed>, key: Key) {
    && (state.Some? <==> finding.Some? && finding.value.present)
    && (finding.Some? ==> finding.value.key == key)
    && (state.Some? ==>
          var f, s := finding.value, state.value;
          && s.condition == ConditionFingerprint(key.kind, f.evidence)
          && s.lastSeen == f.lastSeen
          && s.watch == f.watch.(signature := s.watch.signature)
          && (s.watch.started.Some? ==> s.watch.signature == f.watch.signature))
  }

  lemma {:induction false} FirstCandidateIsOne(candidates: seq<Candidate>, n: nat, key: Key)
    requires n <= |candidates|
    requires FirstCandidate(candidates, n, key).Some?
    ensures FirstCandidate(candidates, n, key).value.key == key
    ensures FirstCandidate(candidates, n, key).value in candidates
  {
    if FirstCandidate(candidates, n - 1, key).Some? {
      FirstCandidateIsOne(candidates, n - 1, key);
    }
  }

  predicate FromRow(candidate: Candidate, rows: seq<Row>) {
    candidate.row in rows && candidate.key.path == PathOf(candidate.row)
  }

  lemma {:induction false} CandidatesOfRowFrom(row: Row, kinds: seq<Kind>, candidate: Candidate)
    requires candidate in CandidatesOfRow(row, kinds)
    ensures candidate.row == row && candidate.key.path == PathOf(row) && candidate.key.kind in kinds
  {
    if candidate in CandidatesOfRow(row, kinds[1..]) {
      CandidatesOfRowFrom(row, kinds[1..], candidate);
    }
  }

  lemma {:induction false} CandidatesOfRowsFrom(rows: seq<Row>, section: Section, candidate: Candidate)
    requires candidate in CandidatesOfRows(rows, section)
    ensures FromRow(candidate, rows) && candidate.key.kind in KindsOf(section)
  {
    if candidate in CandidatesOfRows(rows[1..], section) {
      CandidatesOfRowsFrom(rows[1..], section, candidate);
    } else {
      CandidatesOfRowFrom(rows[0], KindsOf(section), candidate);
    }
  }

  lemma {:induction false} RowsByPathFinds(rows: seq<Row>, i: nat)
    requires i < |rows|
    requires forall j, k :: 0 <= j < k < |rows| ==> PathOf(rows[j]) != PathOf(rows[k])
    ensures PathOf(rows[i]) in RowsByPath(rows) && RowsByPath(rows)[PathOf(rows[i])] == rows[i]
  {
    var last := |rows| - 1;
    if i < last {
      assert rows[..last][i] == rows[i];
      RowsByPathFinds(rows[..last], i);
    }
  }

  /** With unique paths the row a candidate came from is the row found under its path. */
  lemma CandidateRowIsSourceRow(report: Report, key: Key)
    requires UniquePaths(report) && Replayable(key.kind) && CandidateFor(report, key).Some?
    ensures SourceRow(report, key.path) == Some(CandidateFor(report, key).value.row)
  {
    var candidates := Candidates(report);
    var rows := report.objects + report.rules + report.policies;
    FirstCandidateIsOne(candidates, |candidates|, key);
    var candidate := CandidateFor(report, key).value;
    if candidate in CandidatesOfRows(report.objects, Objects) {
      CandidatesOfRowsFrom(report.objects, Objects, candidate);
    } else if candidate in CandidatesOfRows(report.rules, Rules) {
      CandidatesOfRowsFrom(report.rules, Rules, candidate);
    } else if candidate in CandidatesOfRows(report.policies, Policies) {
      CandidatesOfRowsFrom(report.policies, Policies, candidate);
    } else {
      CandidatesOfRowsFrom(report.tags, Tags, candidate);
    }
    assert FromRow(candidate, rows);
    var i :| 0 <= i < |rows| && rows[i] == candidate.row;
    RowsByPathFinds(rows, i);
  }

  /** Collections that list every path once satisfy this for every key. */
  lemma UniquePathsAgree(report: Report, key: Key)
    requires UniquePaths(report)
    ensures CountersAgree(report, key)
  {
    hide UniquePaths, Candidates, SourceRow, Indexed;
    if key.kind == ZeroHits && CandidateFor(report, key).Some? {
      CandidateRowIsSourceRow(report, key);
    }
  }

  /** What one evaluation of this finding in c depends on, besides its earlier fields. */
  function CheckFor(finding: Option<FindingRow>, key: Key, evidence: Row, c: Collection): Check {
    if finding.Some? then CheckOf(finding.value, evidence, c)
    else Check(c.policy, c.interval, c.stamp, true, RowOrEmpty(SourceRow(c.report, key.path)))
  }

  function SeenBefore(finding: Option<FindingRow>, c: Collection): Time {
    if finding.Some? then finding.value.lastSeen else c.stamp
  }

  /** The row found under the path and the row of the candidate are both fresh zero readings, or neither is. */
  predicate ReadingsAgree(finding: Option<FindingRow>, key: Key, c: Collection) {
    var candidate := CandidateFor(c.report, key);
    key.kind == ZeroHits && candidate.Some? && !Affects(c.report.issues, key) ==>
      var check, lastSeen := CheckFor(finding, key, candidate.value.evidence, c), SeenBefore(finding, c);
      FreshZero(check, lastSeen) == FreshZero(check.(row := candidate.value.row), lastSeen)
  }

  lemma SameCountersReadAlike(finding: Option<FindingRow>, key: Key, c: Collection)
    requires CountersAgree(c.report, key) && (finding.Some? ==> finding.value.key == key)
    ensures ReadingsAgree(finding, key, c)
  {
    hide Affects, CandidateFor, SourceRow, ConditionFingerprint, FreshZero, Indexed;
    var candidate := CandidateFor(c.report, key);
    if candidate.Some? {
      var check, lastSeen := CheckFor(finding, key, candidate.value.evidence, c), SeenBefore(finding, c);
      FreshZeroReadsIndex(check, lastSeen);
      FreshZeroReadsIndex(check.(row := candidate.value.row), lastSeen);
    }
  }

  /** The observation only reads the two indexed counter fields, and those only for zero hits. */
  lemma FreshZeroReadsIndex(check: Check, lastSeen: Time)
    ensures FreshZero(check, lastSeen) == FreshZero(check.(row := Indexed(check.row)), lastSeen)
  {
  }

  lemma RowMattersByReading(watch: Watch, kind: Kind, lastSeen: Time, check: Check, row: Row)
    requires Replayable(kind)
    ensures (kind == ZeroHits ==> FreshZero(check, lastSeen) == FreshZero(check.(row := row), lastSeen)) <==>
              Advanced(watch, kind, lastSeen, check) == Advanced(watch, kind, lastSeen, check.(row := row))
    ensures kind == ZeroHits && FreshZero(check, lastSeen) != FreshZero(check.(row := row), lastSeen) ==>
              Advanced(watch, kind, lastSeen, check).started != Advanced(watch, kind, lastSeen, check.(row := row)).started
  {
    hide FreshZero;
  }

  /** A reset forgets the previous fields, up to a signature nothing reads without a start. */
  lemma ResetForgets(first: Watch, second: Watch, kind: Kind, lastFirst: Time, lastSecond: Time, check: Check)
    requires check.reset
    ensures var a, b := Advanced(first, kind, lastFirst, check), Advanced(second, kind, lastSecond, check);
            && a == b.(signature := a.signature)
            && (a.started.Some? ==> a.signature == b.signature)
  {
    assert FreshZero(check, lastFirst) == FreshZero(check, lastSecond);
  }

  /** Fields that differ only in an unused signature advance alike. */
  lemma SignatureMatters(first: Watch, second: Watch, kind: Kind, lastSeen: Time, check: Check)
    requires first == second.(signature := first.signature)
    requires first.started.Some? ==> first.signature == second.signature
    ensures var a, b := Advanced(first, kind, lastSeen, check), Advanced(second, kind, lastSeen, check);
            && a == b.(signature := a.signature)
            && (a.started.Some? ==> a.signature == b.signature)
  {
  }

  /** One collection keeps fold and replay in agreement exactly when both read the counters alike. */
  lemma StepAgrees(finding: Option<FindingRow>, state: Option<Replayed>, key: Key, c: Collection, kinds: set<Kind>)
    requires Agree(finding, state, key) && Covered(kinds, key) && c.deleted == map[]
    ensures Agree(Folded(finding, key, c), ReplayStep(state, key, c, kinds, c.policy, c.interval), key)
        <==> ReadingsAgree(finding, key, c)
  {
    hide Affects, Candidates, Advanced, FreshZero, Invalidate, ChangedWhilePausedBy, ObservedReview,
         Lapsed, ConditionFingerprint, SourceRow, Indexed;
    var candidate := CandidateFor(c.report, key);
    if !Affects(c.report.issues, key) && candidate.Some? {
      FirstCandidateIsOne(Candidates(c.report), |Candidates(c.report)|, key);
      var lastSeen, check := SeenBefore(finding, c), CheckFor(finding, key, candidate.value.evidence, c);
      var watch := if finding.Some? then finding.value.watch else UNWATCHED;
      var replayed := check.(row := Indexed(candidate.value.row));
      FreshZeroReadsIndex(check.(row := candidate.value.row), lastSeen);
      RowMattersByReading(watch, key.kind, lastSeen, check, replayed.row);
      if state == None && finding.Some? {
        ResetForgets(watch, UNWATCHED, key.kind, lastSeen, c.stamp, replayed);
      } else if state.Some? {
        SignatureMatters(watch, state.value.watch, key.kind, lastSeen, replayed);
      }
    }
  }

  /** Every saved finding points at a collection folded in so far. */
  lemma {:induction false} SnapshotsAreOld(history: seq<Collection>, before: seq<map<Key, FindingRow>>,
                                           after: seq<map<Key, FindingRow>>, n: nat, key: Key)
    requires Incremental(history, before, after) && n <= |history|
    ensures n < |history| && key in before[n] ==>
              before[n][key].key == key && exists i :: 0 <= i < n && before[n][key].snapshot == Some(history[i].id)
    ensures n > 0 && key in after[n - 1] ==>
              after[n - 1][key].key == key && exists i :: 0 <= i < n && after[n - 1][key].snapshot == Some(history[i].id)
  {
    hide Folded, UpToDate;
    if n > 0 {
      SnapshotsAreOld(history, before, after, n - 1, key);
      var c := history[n - 1];
      if key in after[n - 1] && !UpToDate(before[n - 1], c) {
        assert Lookup(after[n - 1], key) == Folded(Lookup(before[n - 1], key), key, c);
        FoldedSnapshot(Lookup(before[n - 1], key), key, c);
      }
      assert n < |history| ==> ReviewOnly(after[n - 1], before[n]);
    }
  }

  /** Folding points a finding at this collection, or leaves where it points. */
  lemma FoldedSnapshot(finding: Option<FindingRow>, key: Key, c: Collection)
    requires finding.Some? ==> finding.value.key == key
    ensures var result := Folded(finding, key, c);
            result.Some? ==>
              && result.value.key == key
              && (result.value.snapshot == Some(c.id) || (finding.Some? && result.value.snapshot == finding.value.snapshot))
  {
    hide Affects, Candidates, CandidateFor, Advanced, Lapsed, ObservedReview, Invalidate, ChangedWhilePausedBy,
         SourceRow, Superseded;
  }

  lemma {:induction false} RunAgrees(history: seq<Collection>, before: seq<map<Key, FindingRow>>,
                                     after: seq<map<Key, FindingRow>>, n: nat, key: Key, kinds: set<Kind>,
                                     policy: FindingPolicy, interval: nat)
    requires Incremental(history, before, after) && DistinctIds(history)
    requires SameSettings(history, key, policy, interval) && Covered(kinds, key)
    requires 0 < n <= |history|
    ensures Agree(Lookup(after[n - 1], key), ReplayOf(history, n, key, kinds, policy, interval), key)
  {
    hide Affects, Candidates, Folded, ReplayStep, ConditionFingerprint, CountersAgree, ReadingsAgree;
    var c := history[n - 1];
    assert c in history;
    var state := ReplayOf(history, n - 1, key, kinds, policy, interval);
    if n > 1 {
      RunAgrees(history, before, after, n - 1, key, kinds, policy, interval);
      assert ReviewOnly(after[n - 2], before[n - 1]);
    }
    assert Agree(Lookup(before[n - 1], key), state, key);
    assert !UpToDate(before[n - 1], c) by {
      if before[n - 1] != map[] {
        var some :| some in before[n - 1];
        SnapshotsAreOld(history, before, after, n - 1, some);
      }
    }
    SameCountersReadAlike(Lookup(before[n - 1], key), key, c);
    StepAgrees(Lookup(before[n - 1], key), state, key, c, kinds);
  }

  /** Replaying the retained history gives every finding evaluated in the newest collection exactly the
      observation it has from folding the collections in one by one, whatever was paused, missing or
      seen again in between and whatever reviewers decided meanwhile. */
  lemma ReplayEqualsIncremental(history: seq<Collection>, before: seq<map<Key, FindingRow>>,
                                after: seq<map<Key, FindingRow>>, key: Key, kinds: set<Kind>,
                                policy: FindingPolicy, interval: nat)
    requires Incremental(history, before, after) && DistinctIds(history)
    requires SameSettings(history, key, policy, interval) && Covered(kinds, key)
    requires history != []
    requires Evaluates(CandidateFor(history[|history| - 1].report, key), key, history[|history| - 1])
    ensures key in after[|history| - 1]
    ensures var replayed := ReplayOf(history, |history|, key, kinds, policy, interval);
            && replayed.Some?
            && var watch, incremental := replayed.value.watch, after[|history| - 1][key].watch;
               && watch.qualification == incremental.qualification
               && watch.started == incremental.started
               && watch.count == incremental.count
               && watch.days == incremental.days
               && watch.requiredDays == incremental.requiredDays
               && watch.qualifiedAt == incremental.qualifiedAt
  {
    hide Affects, Candidates, Replay1;
    RunAgrees(history, before, after, |history|, key, kinds, policy, interval);
  }

  // ----- Folding the same collection in twice -----

  /** Folding c in again leaves this finding alone. */
  predicate Untouched(finding: FindingRow, c: Collection) {
    var candidate := CandidateFor(c.report, finding.key);
    if Affects(c.report.issues, finding.key)
    then !ChangedWhilePausedBy(finding, RowOrEmpty(SourceRow(c.report, finding.key.path)))
    else candidate.Some? && Superseded(c.deleted, finding.key.path, candidate.value.evidence)
  }

  /** A second call for the same collection changes nothing exactly when every finding was brought up to
      date by the first one, or no finding is evaluated, lost or changed while paused. */
  lemma ResynchronizeIsIdentityIff(before: map<Key, FindingRow>, after: map<Key, FindingRow>,
                                   again: map<Key, FindingRow>, c: Collection)
    requires Keyed(before) && !UpToDate(before, c)
    requires Synchronized(before, after, c) && Synchronized(after, again, c)
    ensures again == after <==> UpToDate(after, c) || forall key | key in after :: Untouched(after[key], c)
  {
    hide Affects, Candidates, ChangedWhilePausedBy, SourceRow, Observed, Created, Superseded;
    forall key
      ensures Lookup(after, key) == Folded(Lookup(before, key), key, c)
      ensures key in after ==> after[key].key == key
      ensures Lookup(after, key) == None ==> Folded(None, key, c) == None
    {
      assert key in before ==> before[key].key == key;
    }
    if !UpToDate(after, c) {
      forall key
        ensures Lookup(again, key) == Lookup(after, key) <==> (key in after ==> Untouched(after[key], c))
      {
        assert Lookup(again, key) == Folded(Lookup(after, key), key, c);
        if key in after {
          RevisionMoves(after[key], c);
        }
      }
      if forall key | key in after :: Untouched(after[key], c) {
        SameMap(after, again);
      }
    }
  }

  lemma SameMap(first: map<Key, FindingRow>, second: map<Key, FindingRow>)
    requires forall key :: Lookup(first, key) == Lookup(second, key)
    ensures first == second
  {
    assert forall key :: key in first <==> Lookup(first, key).Some?;
    assert forall key :: key in second <==> Lookup(second, key).Some?;
    forall key | key in first
      ensures first[key] == second[key]
    {
      assert Lookup(first, key) == Lookup(second, key);
    }
  }

  /** Folding either leaves a finding exactly as it was or moves its revision on. */
  lemma RevisionMoves(finding: FindingRow, c: Collection)
    ensures var result := Folded(Some(finding), finding.key, c);
            && result.Some?
            && (result.value == finding <==> Untouched(finding, c))
            && (result.value != finding ==> result.value.revision == finding.revision + 1)
  {
    hide Affects, Candidates, ChangedWhilePausedBy, SourceRow, Superseded, Lapsed, ObservedReview, ObservedWatch;
  }

  /** Otherwise the second call restarts every evaluated finding that has a waiting period. */
  lemma ResynchronizeRestarts(finding: FindingRow, c: Collection)
    requires Evaluates(CandidateFor(c.report, finding.key), finding.key, c)
    requires finding.present && finding.lastSeen == c.stamp
    requires finding.evidence == CandidateFor(c.report, finding.key).value.evidence
    requires DaysFor(c.policy, finding.key.kind).Some? && DaysFor(c.policy, finding.key.kind).value > 0
    ensures var result := Folded(Some(finding), finding.key, c).value;
            result.watch.qualification != Eligible && result.watch.count <= 1
            && result.review.state != Ready && result.review.state != SecondReview
  {
    hide Affects, Candidates, Superseded, ConditionFingerprint, SourceRow, CheckedReview, Accepted;
    var check := CheckOf(finding, finding.evidence, c);
    assert finding.key.kind == ZeroHits ==> !FreshZero(check, finding.lastSeen);
  }

  /** Two calls for one collection: as soon as some finding was paused and keeps pointing elsewhere, the second
      call is not recognised as a repetition, and every evaluated finding with a waiting period starts over. */
  lemma SecondCallRestarts(before: map<Key, FindingRow>, after: map<Key, FindingRow>, again: map<Key, FindingRow>,
                           c: Collection, paused: Key, key: Key)
    requires Keyed(before) && !UpToDate(before, c)
    requires Synchronized(before, after, c) && Synchronized(after, again, c)
    requires paused in before && Affects(c.report.issues, paused) && before[paused].snapshot != Some(c.id)
    requires Evaluates(CandidateFor(c.report, key), key, c)
    requires DaysFor(c.policy, key.kind).Some? && DaysFor(c.policy, key.kind).value > 0
    ensures key in after && key in again && again[key] != after[key] && again != after
    ensures var finding := again[key];
            finding.watch.qualification != Eligible && finding.watch.count <= 1
            && finding.review.state != Ready && finding.review.state != SecondReview
  {
    hide Affects, Candidates, ChangedWhilePausedBy, SourceRow, Superseded, Advanced, ObservedReview, Lapsed,
         CandidateFor;
    StillElsewhere(before, after, c, paused);
    assert Lookup(after, key) == Folded(Lookup(before, key), key, c);
    assert Lookup(again, key) == Folded(Lookup(after, key), key, c);
    RevisionMoves(after[key], c);
    ResynchronizeRestarts(after[key], c);
  }

  lemma StillElsewhere(before: map<Key, FindingRow>, after: map<Key, FindingRow>, c: Collection, paused: Key)
    requires Keyed(before) && !UpToDate(before, c) && Synchronized(before, after, c)
    requires paused in before && Affects(c.report.issues, paused) && before[paused].snapshot != Some(c.id)
    ensures paused in after && !UpToDate(after, c)
  {
    hide Affects, Candidates, CandidateFor, ChangedWhilePausedBy, SourceRow, Superseded, Observed, Created, Missing;
    assert Lookup(after, paused) == Folded(Lookup(before, paused), paused, c);
  }

  // ----- One collection folded in twice, and one with a path listed twice -----

  const DISABLED_RULE: Row := map["path" := Str("/b"), "disabled" := Bool(true)]
  const UNSURE := Key(Disabled, "/a")
  const SURE := Key(Disabled, "/b")
  const TEN_DAYS: Time := 240 * HOUR
  const FIVE_DAYS := FindingPolicy(5, 5, 5, 5, 5, 5, 1, 24)
  const ONE_APPROVAL := ApprovalPolicy(1, 1, 1, 1, 1)
  const SECOND := Collection(2, TEN_DAYS,
                             Report([], [DISABLED_RULE], [], [], Null, [Issue({Disabled}, "/a")]),
                             FIVE_DAYS, 60, ONE_APPROVAL, map[])
  const APPROVED := Decision(7, 1, ReviewFingerprint(Disabled, EvidenceOf(DISABLED_RULE)), map[], None, false, None)

  /** A finding that points at collection 1, observed since the beginning, an hour before collection 2. */
  function Earlier(key: Key, state: WorkflowState, approvals: Approvals): FindingRow {
    FindingRow(key, EvidenceOf(DISABLED_RULE), true, TEN_DAYS - HOUR, Some(1), 0,
               Watch(Eligible, Some(0), 10, 9, 5, Some(TEN_DAYS - HOUR), Some(PolicySignature(5, 1, 24 * HOUR))),
               Review(state, approvals, 1, Some(7), "", []))
  }

  const FIRST_FOLD := map[UNSURE := Earlier(UNSURE, OwnerReview, NO_APPROVALS),
                          SURE := Earlier(SURE, Ready, Approvals(Some(APPROVED), None))]

  lemma RuleCandidates(report: Report)
    requires report.objects == [] && report.policies == [] && report.tags == []
    ensures Candidates(report) == CandidatesOfRows(report.rules, Rules)
    ensures SourceRows(report) == RowsByPath(report.rules)
  {
    assert report.objects + report.rules + report.policies == report.rules;
  }

  /** What one rule row contributes. */
  lemma OneRule(row: Row)
    requires !Truthy(Get(row, "audit_exclusions"))
    ensures CandidatesOfRows([row], Rules) ==
              (if Applies(ZeroHits, row) then [Candidate(Key(ZeroHits, PathOf(row)), EvidenceOf(row), row)] else [])
              + (if Applies(Disabled, row) then [Candidate(Key(Disabled, PathOf(row)), EvidenceOf(row), row)] else [])
              + (if Applies(Statistics, row) then [Candidate(Key(Statistics, PathOf(row)), EvidenceOf(row), row)] else [])
  {
    hide EvidenceOf, Applies;
    assert KindsOf(Rules)[1..] == [Disabled, Statistics];
    assert [Disabled, Statistics][1..] == [Statistics];
    assert [Statistics][1..] == [];
    assert CandidatesOfRow(row, [Statistics])
        == if Applies(Statistics, row) then [Candidate(Key(Statistics, PathOf(row)), EvidenceOf(row), row)] else [];
    assert [row][1..] == [] && CandidatesOfRows([], Rules) == [];
    assert CandidatesOfRows([row], Rules) == CandidatesOfRow(row, KindsOf(Rules)) + CandidatesOfRows([], Rules);
    assert CandidatesOfRow(row, KindsOf(Rules))
        == (if Applies(ZeroHits, row) then [Candidate(Key(ZeroHits, PathOf(row)), EvidenceOf(row), row)] else [])
           + CandidatesOfRow(row, [Disabled, Statistics]);
  }

  lemma SecondCandidates()
    ensures CandidateFor(SECOND.report, SURE) == Some(Candidate(SURE, EvidenceOf(DISABLED_RULE), DISABLED_RULE))
    ensures SourceRow(SECOND.report, "/b") == Some(DISABLED_RULE)
    ensures !Affects(SECOND.report.issues, SURE) && Affects(SECOND.report.issues, UNSURE)
  {
    hide EvidenceOf;
    RuleCandidates(SECOND.report);
    OneRule(DISABLED_RULE);
    var candidate := Candidate(SURE, EvidenceOf(DISABLED_RULE), DISABLED_RULE);
    assert Candidates(SECOND.report) == [candidate];
    assert FirstCandidate([candidate], 1, SURE) == Some(candidate);
    assert [DISABLED_RULE][..0] == [];
    assert SECOND.report.issues[0] in SECOND.report.issues;
  }

  /** What folding collection 2 makes of the finding about rule /b while it is ready. */
  lemma ReadyFolds(finding: FindingRow)
    requires finding.key == SURE && finding.present && finding.evidence == EvidenceOf(DISABLED_RULE)
    requires finding.review.state == Ready && finding.review.owner.Some?
    ensures var result, check := Folded(Some(finding), SURE, SECOND),
                Check(FIVE_DAYS, 60, TEN_DAYS, false, DISABLED_RULE);
            && result.Some? && result.value.key == SURE && result.value.present
            && result.value.evidence == finding.evidence && result.value.lastSeen == TEN_DAYS
            && result.value.watch == Advanced(finding.watch, Disabled, finding.lastSeen, check)
            && result.value.review.owner == finding.review.owner
            && result.value.review.state == if result.value.watch.qualification == Eligible then Ready else OwnerReview
  {
    hide Affects, CandidateFor, SourceRow, EvidenceOf, Advanced, ConditionFingerprint;
    SecondCandidates();
    assert CheckOf(finding, finding.evidence, SECOND) == Check(FIVE_DAYS, 60, TEN_DAYS, false, DISABLED_RULE);
    assert "path" in DISABLED_RULE;
    assert Accepted(SURE, SECOND);
    assert CheckedReview(finding, finding.evidence, SECOND) == finding.review;
  }

  /** The first call leaves the observed finding ready; calling again with the same collection withdraws that. */
  lemma FoldingTwiceWithdraws(after: map<Key, FindingRow>, again: map<Key, FindingRow>)
    requires Synchronized(FIRST_FOLD, after, SECOND) && Synchronized(after, again, SECOND)
    ensures SURE in after && after[SURE].review.state == Ready && after[SURE].watch.qualification == Eligible
    ensures SURE in again && again[SURE].review.state == OwnerReview && again[SURE].watch.qualification == Observing
  {
    hide Affects, CandidateFor, SourceRow, EvidenceOf, Folded;
    SecondCandidates();
    var finding := Earlier(SURE, Ready, Approvals(Some(APPROVED), None));
    assert FIRST_FOLD[SURE] == finding && FIRST_FOLD[UNSURE].snapshot == Some(1);
    StillElsewhere(FIRST_FOLD, after, SECOND, UNSURE);
    assert Lookup(after, SURE) == Folded(Some(finding), SURE, SECOND);
    ReadyFolds(finding);
    assert Lookup(again, SURE) == Folded(Some(after[SURE]), SURE, SECOND);
    ReadyFolds(after[SURE]);
  }

  const ZERO_RULE: Row := map["path" := Str("/r"), "hit_status" := Str("zero_hits"), "hit_count" := Num(0),
                              "statistics_checked_at" := Stamp(0)]
  const BUSY_RULE: Row := map["path" := Str("/r"), "hit_status" := Str("traffic_recorded"), "hit_count" := Num(7),
                              "statistics_checked_at" := Stamp(0)]
  const LISTED_TWICE := Collection(1, 0, Report([], [ZERO_RULE, BUSY_RULE], [], [], Null, []), FIVE_DAYS, 60, ONE_APPROVAL, map[])

  const TWICE := Key(ZeroHits, "/r")

  lemma TwiceCandidate()
    ensures CandidateFor(LISTED_TWICE.report, TWICE) == Some(Candidate(TWICE, EvidenceOf(ZERO_RULE), ZERO_RULE))
    ensures SourceRow(LISTED_TWICE.report, "/r") == Some(BUSY_RULE) && LISTED_TWICE.report.issues == []
  {
    hide EvidenceOf;
    var candidate := Candidate(TWICE, EvidenceOf(ZERO_RULE), ZERO_RULE);
    RuleCandidates(LISTED_TWICE.report);
    OneRule(ZERO_RULE);
    OneRule(BUSY_RULE);
    assert [ZERO_RULE, BUSY_RULE][1..] == [BUSY_RULE];
    assert CandidatesOfRows([ZERO_RULE, BUSY_RULE], Rules) == CandidatesOfRows([ZERO_RULE], Rules) + CandidatesOfRows([BUSY_RULE], Rules);
    assert Candidates(LISTED_TWICE.report) == [candidate];
    assert FirstCandidate([candidate], 1, TWICE) == Some(candidate);
    assert [ZERO_RULE, BUSY_RULE][..1] == [ZERO_RULE];
  }

  /** Folded in, the rule's finding is not being observed; replayed, it is. */
  lemma ListedTwiceDisagrees()
    ensures var folded, replayed := Folded(None, TWICE, LISTED_TWICE),
                ReplayStep(None, TWICE, LISTED_TWICE, {ZeroHits}, FIVE_DAYS, 60);
            && folded.Some? && folded.value.watch.qualification == Insufficient
            && replayed.Some? && replayed.value.watch.qualification == Observing
            && !ReadingsAgree(None, TWICE, LISTED_TWICE)
  {
    hide EvidenceOf, ConditionFingerprint, CandidateFor, SourceRow;
    TwiceCandidate();
    assert !Affects(LISTED_TWICE.report.issues, TWICE);
  }
}
