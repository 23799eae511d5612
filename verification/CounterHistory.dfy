/** Conservative judgement of rule activity from the counters of saved collections. */
module CounterHistory {
  import opened Common
  import opened Sorting


  /** Instants and durations in microseconds. */
  type Time = int
  const GAP_LIMIT: Time := 24 * 3600 * 1_000_000

  type Path = string
  type Scope = string

  datatype Field = HitCount | PacketCount | ByteCount | SessionCount

  /** Valid counts are non-negative integers. */
  datatype Number = Valid(n: nat) | Invalid

  datatype Reading = Reading(scope: Option<Scope>, fields: map<Field, Number>)

  datatype Identity = Identity(ruleId: string, policyRuleId: string, uniqueId: Option<string>, createdAt: Option<string>)

  /** A rule as one collection saw it; `judged` says its hit status was traffic or zero hits. */
  datatype Record = Record(
    identity: Identity,
    configuration: Option<string>,
    disabled: bool,
    checkedAt: Option<Time>,
    readings: seq<Reading>,
    judged: bool)

  /** Counters per enforcement point. */
  type Values = map<Scope, map<Field, nat>>

  // ----- Accepting the counters of one record -----

  predicate Usable(reading: Reading) {
    && reading.scope.Some? && reading.scope.value != ""
    && HitCount in reading.fields
    && forall f | f in reading.fields :: reading.fields[f].Valid?
  }

  predicate AllUsable(readings: seq<Reading>) {
    && (forall r | r in readings :: Usable(r))
    && forall i, j :: 0 <= i < j < |readings| ==> readings[i].scope != readings[j].scope
  }

  function CountsOf(fields: map<Field, Number>): map<Field, nat> {
    map f | f in fields && fields[f].Valid? :: fields[f].n
  }

  function ValuesOf(readings: seq<Reading>): Values {
    if readings == [] then map[]
    else
      var last := readings[|readings| - 1];
      var before := ValuesOf(readings[..|readings| - 1]);
      if last.scope == None then before else before[last.scope.value := CountsOf(last.fields)]
  }

  predicate Acceptable(record: Record, generated: Time) {
    && record.checkedAt.Some? && record.checkedAt.value <= generated
    && record.readings != [] && AllUsable(record.readings) && record.judged
  }

  datatype Sample = Sample(stamp: Time, values: Values)

  /** Zero is never inferred from absence: without explicit, valid counters there is no sample. */
  function Accepted(record: Record, generated: Time): Option<Sample> {
    if Acceptable(record, generated) then Some(Sample(record.checkedAt.value, ValuesOf(record.readings))) else None
  }

  /** Reading i can be added to the usable ones before it. */
  predicate Extends(result: Values, reading: Reading) {
    Usable(reading) && reading.scope.value !in result
  }

  lemma {:induction false} ScopesOfValues(readings: seq<Reading>)
    ensures forall scope :: scope in ValuesOf(readings) <==> exists r :: r in readings && r.scope == Some(scope)
  {
    if readings != [] {
      var before, last := readings[..|readings| - 1], readings[|readings| - 1];
      ScopesOfValues(before);
      assert readings == before + [last];
      assert forall r :: r in readings <==> r in before || r == last;
    }
  }

  lemma UsableGrows(before: seq<Reading>, reading: Reading)
    requires AllUsable(before)
    ensures AllUsable(before + [reading]) <==> Extends(ValuesOf(before), reading)
  {
    ScopesOfValues(before);
    var all := before + [reading];
    assert forall r :: r in all <==> r in before || r == reading;
    assert all[|before|] == reading;
    if reading.scope.Some? && reading.scope.value in ValuesOf(before) {
      var r :| r in before && r.scope == reading.scope;
      var j :| 0 <= j < |before| && before[j] == r;
      assert all[j].scope == all[|before|].scope;
    } else {
      assert forall j :: 0 <= j < |before| ==> all[j] == before[j] && before[j] in before;
    }
  }

  lemma PrefixIsUsable(readings: seq<Reading>, n: nat)
    requires n <= |readings| && AllUsable(readings)
    ensures AllUsable(readings[..n])
  {
  }

  method Counters(record: Record, generated: Time) returns (sample: Option<Sample>)
    ensures sample == Accepted(record, generated)
  {
    hide AllUsable, ValuesOf, Extends;
    if record.checkedAt == None || record.checkedAt.value > generated || record.readings == [] {
      return None;
    }
    var usable, values := ReadAll(record.readings);
    if !usable || !record.judged {
      return None;
    }
    return Some(Sample(record.checkedAt.value, values));
  }

  method ReadAll(readings: seq<Reading>) returns (usable: bool, values: Values)
    ensures usable == AllUsable(readings)
    ensures usable ==> values == ValuesOf(readings)
  {
    hide AllUsable;
    values := map[];
    assert AllUsable([]) by {
      NothingIsUsable();
    }
    for i := 0 to |readings|
      invariant AllUsable(readings[..i]) && values == ValuesOf(readings[..i])
    {
      var reading := readings[i];
      assert readings[..i + 1] == readings[..i] + [reading] && readings[..i + 1][..i] == readings[..i];
      UsableGrows(readings[..i], reading);
      if reading.scope == None || reading.scope.value == "" || reading.scope.value in values
         || HitCount !in reading.fields || exists f | f in reading.fields :: reading.fields[f].Invalid? {
        assert !Extends(values, reading);
        if AllUsable(readings) {
          PrefixIsUsable(readings, i + 1);
        }
        return false, values;
      }
      values := values[reading.scope.value := CountsOf(reading.fields)];
    }
    assert readings[..|readings|] == readings;
    return true, values;
  }

  lemma NothingIsUsable()
    ensures AllUsable([])
  {
  }

  // ----- Scanning collections from the newest to the oldest -----

  datatype Snapshot = Snapshot(generated: Time, records: map<Path, Record>, errors: bool)

  /** The samples kept for one rule; `conflicts` are times with contradictory copies. */
  datatype State = State(samples: map<Time, Values>, conflicts: set<Time>, unknown: nat, closed: bool)

  const FRESH := State(map[], {}, 0, false)

  datatype Window = Window(start: Time, end: Time)

  predicate SameRule(latest: Record, snapshot: Snapshot, path: Path) {
    && path in snapshot.records
    && snapshot.records[path].identity == latest.identity
    && snapshot.records[path].configuration == latest.configuration
  }

  predicate InRange(window: Window, stamp: Time) {
    window.start - GAP_LIMIT <= stamp <= window.end
  }

  /** The valid copy of a counter observation one collection contributes. */
  function Copy(snapshot: Snapshot, path: Path, window: Window): Option<Sample> {
    if path !in snapshot.records || snapshot.errors then None
    else
      var sample := Accepted(snapshot.records[path], snapshot.generated);
      if sample.Some? && InRange(window, sample.value.stamp) then sample else None
  }

  function Keep(state: State, sample: Sample): (kept: State)
    ensures kept.closed == state.closed
    ensures kept.unknown == state.unknown + |kept.conflicts| - |state.conflicts|
  {
    if sample.stamp in state.conflicts then state
    else if sample.stamp in state.samples && state.samples[sample.stamp] != sample.values then
      state.(unknown := state.unknown + 1, conflicts := state.conflicts + {sample.stamp},
             samples := state.samples - {sample.stamp})
    else state.(samples := state.samples[sample.stamp := sample.values])
  }

  function Look(state: State, latest: Record, path: Path, snapshot: Snapshot, window: Window): State {
    if state.closed then state
    else if !SameRule(latest, snapshot, path) then state.(closed := true)
    else
      var copy := Copy(snapshot, path, window);
      if copy == None then state.(unknown := state.unknown + 1) else Keep(state, copy.value)
  }

  function Looked(latest: Record, path: Path, snapshots: seq<Snapshot>, window: Window): State {
    if snapshots == [] then FRESH
    else Look(Looked(latest, path, snapshots[..|snapshots| - 1], window), latest, path, snapshots[|snapshots| - 1], window)
  }

  method Scan(latest: map<Path, Record>, snapshots: seq<Snapshot>, window: Window) returns (states: map<Path, State>)
    ensures states.Keys == latest.Keys
    ensures forall path | path in states :: states[path] == Looked(latest[path], path, snapshots, window)
  {
    states := map path | path in latest :: FRESH;
    for n := 0 to |snapshots|
      invariant states.Keys == latest.Keys
      invariant forall path | path in states :: states[path] == Looked(latest[path], path, snapshots[..n], window)
    {
      assert snapshots[..n + 1][..n] == snapshots[..n];
      states := ScanOne(latest, states, snapshots[n], window);
    }
    assert snapshots[..|snapshots|] == snapshots;
  }

  method ScanOne(latest: map<Path, Record>, before: map<Path, State>, snapshot: Snapshot, window: Window)
      returns (states: map<Path, State>)
    requires before.Keys == latest.Keys
    ensures states.Keys == latest.Keys
    ensures forall path | path in states :: states[path] == Look(before[path], latest[path], path, snapshot, window)
  {
    hide Accepted, Acceptable, Keep;
    states := before;
    var remaining := latest.Keys;
    while remaining != {}
      invariant remaining <= latest.Keys && states.Keys == latest.Keys
      invariant forall path | path in states :: states[path] ==
                  if path in remaining then before[path] else Look(before[path], latest[path], path, snapshot, window)
    {
      var path :| path in remaining;
      remaining := remaining - {path};
      var state := states[path];
      if state.closed {
        continue;
      }
      if path !in snapshot.records || snapshot.records[path].identity != latest[path].identity
         || snapshot.records[path].configuration != latest[path].configuration {
        states := states[path := state.(closed := true)];
        continue;
      }
      var sample := Counters(snapshot.records[path], snapshot.generated);
      if snapshot.errors || sample == None || !InRange(window, sample.value.stamp) {
        states := states[path := state.(unknown := state.unknown + 1)];
        continue;
      }
      states := states[path := Keep(state, sample.value)];
    }
  }

  // ----- What is kept -----

  /** The collections before the rule changed, was recreated or was absent. */
  function Unchanged(latest: Record, path: Path, snapshots: seq<Snapshot>): seq<Snapshot> {
    if snapshots == [] then []
    else
      var before := Unchanged(latest, path, snapshots[..|snapshots| - 1]);
      if |before| == |snapshots| - 1 && SameRule(latest, snapshots[|snapshots| - 1], path) then snapshots else before
  }

  /** All valid copies of the rule's observations. */
  function Copies(latest: Record, path: Path, snapshots: seq<Snapshot>, window: Window): set<Sample> {
    set s | s in Unchanged(latest, path, snapshots) && Copy(s, path, window).Some? :: Copy(s, path, window).value
  }

  predicate Unanimous(copies: set<Sample>, stamp: Time) {
    forall a, b | a in copies && b in copies :: a.stamp == stamp && b.stamp == stamp ==> a.values == b.values
  }

  /** Kept are exactly the times with a copy whose copies all agree, with what they agree on. */
  ghost predicate KeepsUnanimous(samples: map<Time, Values>, conflicts: set<Time>, copies: set<Sample>) {
    && (forall stamp :: stamp in conflicts <==> !Unanimous(copies, stamp))
    && (forall stamp, values :: stamp in samples && samples[stamp] == values <==>
          Sample(stamp, values) in copies && Unanimous(copies, stamp))
  }

  lemma KeepIsUnanimous(state: State, copies: set<Sample>, sample: Sample)
    requires KeepsUnanimous(state.samples, state.conflicts, copies)
    ensures var kept := Keep(state, sample); KeepsUnanimous(kept.samples, kept.conflicts, copies + {sample})
  {
    var after := copies + {sample};
    forall stamp
      ensures !Unanimous(after, stamp) <==>
                !Unanimous(copies, stamp)
                || (stamp == sample.stamp
                    && exists other :: other in copies && other.stamp == stamp && other.values != sample.values)
    {
    }
    if sample.stamp in state.samples {
      assert Sample(sample.stamp, state.samples[sample.stamp]) in copies;
    }
    forall other | other in copies && other.stamp == sample.stamp && Unanimous(copies, other.stamp)
      ensures other.stamp in state.samples && state.samples[other.stamp] == other.values
    {
      assert other == Sample(other.stamp, other.values);
    }
  }

  lemma {:induction false} ScanKeepsUnanimous(latest: Record, path: Path, snapshots: seq<Snapshot>, window: Window)
    ensures var state := Looked(latest, path, snapshots, window);
            && (state.closed <==> Unchanged(latest, path, snapshots) != snapshots)
            && KeepsUnanimous(state.samples, state.conflicts, Copies(latest, path, snapshots, window))
    ensures Unchanged(latest, path, snapshots) <= snapshots
  {
    hide Keep, Copy;
    if snapshots != [] {
      var before, last := snapshots[..|snapshots| - 1], snapshots[|snapshots| - 1];
      assert snapshots == before + [last];
      ScanKeepsUnanimous(latest, path, before, window);
      if Unchanged(latest, path, before) == before && SameRule(latest, last, path) {
        var copies := Copies(latest, path, before, window);
        var copy := Copy(last, path, window);
        assert Unchanged(latest, path, snapshots) == snapshots;
        if copy.Some? {
          assert Copies(latest, path, snapshots, window) == copies + {copy.value};
          KeepIsUnanimous(Looked(latest, path, before, window), copies, copy.value);
        } else {
          assert Copies(latest, path, snapshots, window) == copies;
        }
      } else {
        assert Unchanged(latest, path, snapshots) == Unchanged(latest, path, before);
        assert Copies(latest, path, snapshots, window) == Copies(latest, path, before, window);
      }
    }
  }

  /** The order in which copies are met does not matter: the same copies leave the same samples. */
  lemma SamplesIgnoreOrder(first: State, second: State, copies: set<Sample>)
    requires KeepsUnanimous(first.samples, first.conflicts, copies)
    requires KeepsUnanimous(second.samples, second.conflicts, copies)
    ensures first.samples == second.samples && first.conflicts == second.conflicts
  {
    forall stamp
      ensures stamp in first.conflicts <==> stamp in second.conflicts
      ensures stamp in first.samples <==> stamp in second.samples
      ensures stamp in first.samples ==> first.samples[stamp] == second.samples[stamp]
    {
      if stamp in first.samples {
        assert Sample(stamp, first.samples[stamp]) in copies;
      }
      if stamp in second.samples {
        assert Sample(stamp, second.samples[stamp]) in copies;
      }
    }
  }

  /** Nothing unknown was met: every collection gave a valid copy and no copies disagree. */
  lemma {:induction false} UnknownCounts(latest: Record, path: Path, snapshots: seq<Snapshot>, window: Window)
    ensures Looked(latest, path, snapshots, window).unknown == 0 <==>
              && (forall s | s in Unchanged(latest, path, snapshots) :: Copy(s, path, window).Some?)
              && Looked(latest, path, snapshots, window).conflicts == {}
  {
    hide Copy;
    if snapshots != [] {
      var before, last := snapshots[..|snapshots| - 1], snapshots[|snapshots| - 1];
      assert snapshots == before + [last];
      UnknownCounts(latest, path, before, window);
      ScanKeepsUnanimous(latest, path, before, window);
      ScanKeepsUnanimous(latest, path, snapshots, window);
      var state := Looked(latest, path, before, window);
      if !state.closed && SameRule(latest, last, path) {
        assert Unchanged(latest, path, snapshots) == snapshots;
        assert forall s :: s in snapshots <==> s in before || s == last;
      } else {
        assert Unchanged(latest, path, snapshots) == Unchanged(latest, path, before);
      }
    }
  }

  /** Kept samples lie between a day before the window and its end. */
  lemma SamplesAreInRange(latest: Record, path: Path, snapshots: seq<Snapshot>, window: Window, stamp: Time)
    requires stamp in Looked(latest, path, snapshots, window).samples
    ensures InRange(window, stamp)
  {
    hide Looked, Accepted;
    ScanKeepsUnanimous(latest, path, snapshots, window);
    var samples := Looked(latest, path, snapshots, window).samples;
    assert Sample(stamp, samples[stamp]) in Copies(latest, path, snapshots, window);
  }

  // ----- The verdict -----

  datatype Status = DisabledRule | Traffic | Zero | Limited | Unknown

  predicate AllZero(values: Values) {
    forall scope | scope in values :: forall f | f in values[scope] :: values[scope][f] == 0
  }

  predicate SameShape(a: Values, b: Values) {
    a.Keys == b.Keys && forall scope | scope in a :: a[scope].Keys == b[scope].Keys
  }

  predicate LimitedIdentity(identity: Identity) {
    identity.uniqueId in {None, Some("")} && identity.createdAt in {None, Some("")}
  }

  predicate LimitedConfiguration(configuration: Option<string>) {
    configuration in {None, Some("")}
  }

  predicate LongStretch(window: Window, a: Time, b: Time) {
    window.start <= a && b <= window.end && b - a > GAP_LIMIT
  }

  ghost predicate SampledBetween(samples: map<Time, Values>, a: Time, b: Time) {
    exists stamp :: stamp in samples && a < stamp < b
  }

  /** Every stretch of the window longer than a day has a sample strictly inside. */
  ghost predicate Dense(samples: map<Time, Values>, window: Window) {
    forall a, b :: LongStretch(window, a, b) ==> SampledBetween(samples, a, b)
  }

  /** What the label "consistently zero" promises. */
  ghost predicate ConsistentlyZero(state: State, latest: Record, window: Window, failedJobs: nat) {
    && !LimitedIdentity(latest.identity) && !LimitedConfiguration(latest.configuration)
    && !state.closed && state.unknown == 0 && failedJobs == 0
    && |state.samples| >= 2
    && (forall stamp | stamp in state.samples :: AllZero(state.samples[stamp]))
    && (forall a, b | a in state.samples && b in state.samples :: SameShape(state.samples[a], state.samples[b]))
    && (exists stamp :: stamp in state.samples && stamp <= window.start)
    && (exists stamp :: stamp in state.samples && window.end - stamp <= GAP_LIMIT)
    && Dense(state.samples, window)
  }

  method SortedTimes(times: set<Time>) returns (sorted: seq<Time>)
    ensures Ascending(sorted) && forall x :: x in sorted <==> x in times
    ensures |sorted| == |times|
  {
    sorted := [];
    var remaining := times;
    while remaining != {}
      invariant remaining <= times && Ascending(sorted)
      invariant forall x :: x in sorted <==> x in times && x !in remaining
      invariant |sorted| == |times| - |remaining|
    {
      SomeMember(remaining);
      var x :| x in remaining;
      var longer := Insert(sorted, x);
      assert |longer| == |sorted| + 1 by {
        AscendingSize(longer, sorted, x);
      }
      sorted := longer;
      remaining := remaining - {x};
    }
  }

  lemma SomeMember(times: set<Time>)
    requires times != {}
    ensures exists x :: x in times
  {
    if forall x :: x !in times {
      assert false;
    }
  }

  lemma AscendingSize(longer: seq<int>, sorted: seq<int>, x: int)
    requires Ascending(longer) && Ascending(sorted) && x !in sorted
    requires forall y :: y in longer <==> y in sorted || y == x
    ensures |longer| == |sorted| + 1
  {
    MembersCount(longer);
    MembersCount(sorted);
    assert (set y | y in longer) == (set y | y in sorted) + {x};
  }

  lemma {:induction false} MembersCount(sorted: seq<int>)
    requires Ascending(sorted)
    ensures |set y | y in sorted| == |sorted|
  {
    if sorted != [] {
      var before, last := sorted[..|sorted| - 1], sorted[|sorted| - 1];
      MembersCount(before);
      assert sorted == before + [last];
      assert last !in before;
      assert (set y | y in sorted) == (set y | y in before) + {last};
    }
  }

  /** The largest distance between neighbours. */
  function MaxGap(boundaries: seq<Time>): Time {
    if |boundaries| < 2 then 0
    else
      var n := |boundaries|;
      var rest, gap := MaxGap(boundaries[..n - 1]), boundaries[n - 1] - boundaries[n - 2];
      if rest < gap then gap else rest
  }

  lemma {:induction false} MaxGapBounds(boundaries: seq<Time>)
    requires Ascending(boundaries)
    ensures MaxGap(boundaries) <= GAP_LIMIT <==>
              forall i :: 0 < i < |boundaries| ==> boundaries[i] - boundaries[i - 1] <= GAP_LIMIT
  {
    if |boundaries| >= 2 {
      var before := boundaries[..|boundaries| - 1];
      MaxGapBounds(before);
      assert forall i :: 0 <= i < |before| ==> before[i] == boundaries[i];
    }
  }

  /** The ends of the window and every sample inside it. */
  ghost predicate BoundariesOf(boundaries: seq<Time>, samples: map<Time, Values>, window: Window) {
    && Ascending(boundaries)
    && forall x :: x in boundaries <==>
         || x == window.start || x == window.end
         || exists stamp :: stamp in samples && x == (if stamp < window.start then window.start else stamp)
  }

  lemma {:induction false} LastAtMost(boundaries: seq<Time>, a: Time) returns (i: nat)
    requires Ascending(boundaries) && boundaries != [] && boundaries[0] <= a
    ensures i < |boundaries| && boundaries[i] <= a && (i + 1 < |boundaries| ==> boundaries[i + 1] > a)
  {
    i := |boundaries| - 1;
    if boundaries[i] > a {
      i := LastAtMost(boundaries[..i], a);
    }
  }

  lemma SmallGapsAreDense(boundaries: seq<Time>, samples: map<Time, Values>, window: Window, a: Time, b: Time)
    requires BoundariesOf(boundaries, samples, window) && LongStretch(window, a, b)
    requires forall i :: 0 < i < |boundaries| ==> boundaries[i] - boundaries[i - 1] <= GAP_LIMIT
    ensures SampledBetween(samples, a, b)
  {
    assert window.start in boundaries && window.end in boundaries;
    var s :| 0 <= s < |boundaries| && boundaries[s] == window.start;
    var e :| 0 <= e < |boundaries| && boundaries[e] == window.end;
    assert boundaries[0] <= boundaries[s];
    var i := LastAtMost(boundaries, a);
    assert i < e;
    var next := boundaries[i + 1];
    assert next in boundaries && a < next < b;
  }

  lemma DenseHasSmallGaps(boundaries: seq<Time>, samples: map<Time, Values>, window: Window, i: nat)
    requires BoundariesOf(boundaries, samples, window) && window.start <= window.end
    requires forall stamp | stamp in samples :: stamp <= window.end
    requires Dense(samples, window) && 0 < i < |boundaries|
    ensures boundaries[i] - boundaries[i - 1] <= GAP_LIMIT
  {
    var a, b := boundaries[i - 1], boundaries[i];
    NoneBetween(boundaries, i);
    assert a in boundaries && b in boundaries;
    assert window.start <= a && b <= window.end;
    assert forall stamp | stamp in samples && a < stamp :: stamp in boundaries;
    assert !SampledBetween(samples, a, b);
  }

  lemma NoneBetween(boundaries: seq<Time>, i: nat)
    requires Ascending(boundaries) && 0 < i < |boundaries|
    ensures forall x | x in boundaries :: x <= boundaries[i - 1] || x >= boundaries[i]
  {
  }

  /** The largest gap is within the limit exactly when no long stretch is left without a sample. */
  method LargestGap(samples: map<Time, Values>, window: Window) returns (gap: Time)
    requires window.start <= window.end
    requires forall stamp | stamp in samples :: stamp <= window.end
    ensures gap <= GAP_LIMIT <==> Dense(samples, window)
  {
    var boundaries := SortedTimes({window.start, window.end}
      + set stamp | stamp in samples :: if stamp < window.start then window.start else stamp);
    gap := MaxGap(boundaries);
    MaxGapBounds(boundaries);
    assert BoundariesOf(boundaries, samples, window);
    if gap <= GAP_LIMIT {
      forall a, b | LongStretch(window, a, b)
        ensures SampledBetween(samples, a, b)
      {
        SmallGapsAreDense(boundaries, samples, window, a, b);
      }
    }
    if Dense(samples, window) {
      forall i: nat | 0 < i < |boundaries|
        ensures boundaries[i] - boundaries[i - 1] <= GAP_LIMIT
      {
        DenseHasSmallGaps(boundaries, samples, window, i);
      }
    }
  }

  /** The verdict on one rule. */
  method Judge(state: State, latest: Record, window: Window, failedJobs: nat) returns (status: Status)
    requires window.start <= window.end
    requires forall stamp | stamp in state.samples :: stamp <= window.end
    ensures status == DisabledRule <==> latest.disabled
    ensures status == Traffic <==>
              !latest.disabled && exists stamp :: stamp in state.samples && !AllZero(state.samples[stamp])
    ensures status == Unknown <==> !latest.disabled && state.samples == map[]
    ensures status == Zero <==> !latest.disabled && ConsistentlyZero(state, latest, window, failedJobs)
  {
    hide AllZero, ConsistentlyZero, Ascending;
    ZeroHasSamples(state, latest, window, failedJobs);
    var stamps := SortedTimes(state.samples.Keys);
    if latest.disabled {
      return DisabledRule;
    }
    assert forall i :: 0 <= i < |stamps| ==> stamps[i] in stamps;
    if exists i | 0 <= i < |stamps| :: !AllZero(state.samples[stamps[i]]) {
      return Traffic;
    }
    assert forall stamp | stamp in state.samples :: AllZero(state.samples[stamp]);
    if stamps == [] {
      return Unknown;
    }
    var doubtful := Doubtful(state, latest, window, failedJobs, stamps);
    status := if doubtful then Limited else Zero;
  }

  lemma ZeroHasSamples(state: State, latest: Record, window: Window, failedJobs: nat)
    ensures ConsistentlyZero(state, latest, window, failedJobs) ==>
              state.samples != map[] && forall stamp | stamp in state.samples :: AllZero(state.samples[stamp])
  {
    hide AllZero, SameShape, Dense;
  }

  /** Among all-zero samples: is anything missing for the label "consistently zero"? */
  method Doubtful(state: State, latest: Record, window: Window, failedJobs: nat, stamps: seq<Time>) returns (doubtful: bool)
    requires window.start <= window.end && forall stamp | stamp in state.samples :: stamp <= window.end
    requires Ascending(stamps) && stamps != [] && |stamps| == |state.samples|
    requires forall x :: x in stamps <==> x in state.samples
    requires forall i :: 0 <= i < |stamps| ==> stamps[i] in state.samples
    requires forall stamp | stamp in state.samples :: AllZero(state.samples[stamp])
    ensures doubtful <==> !ConsistentlyZero(state, latest, window, failedJobs)
  {
    hide AllZero, SameShape, Dense, LimitedIdentity, LimitedConfiguration, Ascending;
    var shapesChanged := exists i | 0 < i < |stamps| :: !SameShape(state.samples[stamps[i - 1]], state.samples[stamps[i]]);
    ShapesAgree(state.samples, stamps);
    var gap := LargestGap(state.samples, window);
    Ends(state.samples, stamps, window);
    var covers := stamps[0] <= window.start && window.end - stamps[|stamps| - 1] <= GAP_LIMIT;
    doubtful := || LimitedIdentity(latest.identity) || LimitedConfiguration(latest.configuration)
                || state.closed || state.unknown > 0 || failedJobs > 0 || shapesChanged
                || |stamps| < 2 || !covers || gap > GAP_LIMIT;
  }

  /** The whole analysis: the status of every rule of the latest collection, from all collections scanned. */
  method Analyze(latest: map<Path, Record>, snapshots: seq<Snapshot>, window: Window, failedJobs: nat)
      returns (statuses: map<Path, Status>)
    requires window.start <= window.end
    ensures statuses.Keys == latest.Keys
    ensures forall path | path in statuses :: statuses[path] == Zero <==>
              !latest[path].disabled
              && ConsistentlyZero(Looked(latest[path], path, snapshots, window), latest[path], window, failedJobs)
    ensures forall path | path in statuses :: statuses[path] == Unknown <==>
              !latest[path].disabled && Looked(latest[path], path, snapshots, window).samples == map[]
  {
    hide ConsistentlyZero, Looked, AllZero;
    var states := Scan(latest, snapshots, window);
    statuses := map[];
    var remaining := latest.Keys;
    while remaining != {}
      invariant remaining <= latest.Keys && statuses.Keys == latest.Keys - remaining
      invariant forall path | path in statuses :: statuses[path] == Zero <==>
                  !latest[path].disabled && ConsistentlyZero(states[path], latest[path], window, failedJobs)
      invariant forall path | path in statuses :: statuses[path] == Unknown <==>
                  !latest[path].disabled && states[path].samples == map[]
    {
      var path :| path in remaining;
      remaining := remaining - {path};
      forall stamp | stamp in states[path].samples
        ensures stamp <= window.end
      {
        SamplesAreInRange(latest[path], path, snapshots, window, stamp);
      }
      var status := Judge(states[path], latest[path], window, failedJobs);
      statuses := statuses[path := status];
    }
  }

  lemma ShapesAgree(samples: map<Time, Values>, stamps: seq<Time>)
    requires Ascending(stamps) && (forall x :: x in stamps <==> x in samples)
    requires forall i :: 0 <= i < |stamps| ==> stamps[i] in samples
    ensures (forall i | 0 < i < |stamps| :: SameShape(samples[stamps[i - 1]], samples[stamps[i]])) <==>
            (forall a, b | a in samples && b in samples :: SameShape(samples[a], samples[b]))
  {
    if forall i | 0 < i < |stamps| :: SameShape(samples[stamps[i - 1]], samples[stamps[i]]) {
      forall a, b | a in samples && b in samples
        ensures SameShape(samples[a], samples[b])
      {
        var i :| 0 <= i < |stamps| && stamps[i] == a;
        var j :| 0 <= j < |stamps| && stamps[j] == b;
        ShapeOfFirst(samples, stamps, i);
        ShapeOfFirst(samples, stamps, j);
      }
    }
  }

  lemma {:induction false} ShapeOfFirst(samples: map<Time, Values>, stamps: seq<Time>, i: nat)
    requires i < |stamps| && forall j :: 0 <= j < |stamps| ==> stamps[j] in samples
    requires forall j | 0 < j < |stamps| :: SameShape(samples[stamps[j - 1]], samples[stamps[j]])
    ensures SameShape(samples[stamps[0]], samples[stamps[i]])
  {
    if i > 0 {
      ShapeOfFirst(samples, stamps, i - 1);
      assert SameShape(samples[stamps[i - 1]], samples[stamps[i]]);
    }
  }

  lemma Ends(samples: map<Time, Values>, stamps: seq<Time>, window: Window)
    requires Ascending(stamps) && stamps != [] && forall x :: x in stamps <==> x in samples
    ensures stamps[0] <= window.start <==> exists stamp :: stamp in samples && stamp <= window.start
    ensures window.end - stamps[|stamps| - 1] <= GAP_LIMIT <==>
              exists stamp :: stamp in samples && window.end - stamp <= GAP_LIMIT
  {
    var first, last := stamps[0], stamps[|stamps| - 1];
    assert first in stamps && last in stamps;
    assert forall x | x in stamps :: first <= x <= last;
  }

  // ----- The label in terms of the collections themselves -----

  const ONE_DAY: Time := 86_400_000_000

  predicate Explicit(reading: Reading) {
    && reading.scope.Some? && reading.scope.value != ""
    && HitCount in reading.fields && forall f | f in reading.fields :: reading.fields[f] != Invalid
  }

  /** The collection saw this very rule and has complete counters for it, read in the window or the day before. */
  predicate Reports(snapshot: Snapshot, path: Path, latest: Record, window: Window) {
    && path in snapshot.records && !snapshot.errors
    && var record := snapshot.records[path];
       && record.identity == latest.identity && record.configuration == latest.configuration && record.judged
       && record.checkedAt.Some? && record.checkedAt.value <= snapshot.generated
       && window.start - ONE_DAY <= record.checkedAt.value <= window.end
       && record.readings != []
       && (forall i | 0 <= i < |record.readings| :: Explicit(record.readings[i]))
       && forall i, j | 0 <= i < j < |record.readings| :: record.readings[i].scope != record.readings[j].scope
  }

  predicate ReportsZero(record: Record) {
    forall i, f | 0 <= i < |record.readings| && f in record.readings[i].fields :: record.readings[i].fields[f] == Valid(0)
  }

  /** The counters given, by enforcement point and field. */
  function Shape(record: Record): set<(Option<Scope>, Field)> {
    set i, f | 0 <= i < |record.readings| && f in record.readings[i].fields :: (record.readings[i].scope, f)
  }

  lemma {:induction false} ValuesAreReadings(readings: seq<Reading>, i: nat)
    requires AllUsable(readings) && i < |readings|
    ensures readings[i].scope.Some? && readings[i].scope.value in ValuesOf(readings)
    ensures ValuesOf(readings)[readings[i].scope.value] == CountsOf(readings[i].fields)
  {
    var n := |readings| - 1;
    assert readings[n] in readings && readings[i] in readings;
    if i < n {
      PrefixIsUsable(readings, n);
      assert readings[..n][i] == readings[i];
      ValuesAreReadings(readings[..n], i);
    }
  }

  lemma ReportsIff(snapshot: Snapshot, path: Path, latest: Record, window: Window)
    ensures Reports(snapshot, path, latest, window) <==>
              SameRule(latest, snapshot, path) && Copy(snapshot, path, window).Some?
    ensures Reports(snapshot, path, latest, window) ==>
              && AllUsable(snapshot.records[path].readings)
              && Copy(snapshot, path, window).value
                 == Sample(snapshot.records[path].checkedAt.value, ValuesOf(snapshot.records[path].readings))
  {
    hide ValuesOf;
    if path in snapshot.records {
      var readings := snapshot.records[path].readings;
      assert forall r: Reading :: Usable(r) == Explicit(r);
      if forall r | r in readings :: Usable(r) {
        assert forall i | 0 <= i < |readings| :: readings[i] in readings && Explicit(readings[i]);
      }
    }
  }

  lemma ZeroIsExplicit(record: Record)
    requires AllUsable(record.readings)
    ensures AllZero(ValuesOf(record.readings)) <==> ReportsZero(record)
  {
    var readings, values := record.readings, ValuesOf(record.readings);
    ScopesOfValues(readings);
    forall i | 0 <= i < |readings|
      ensures readings[i].scope.Some? && readings[i].scope.value in values
      ensures values[readings[i].scope.value] == CountsOf(readings[i].fields)
      ensures forall f | f in readings[i].fields :: readings[i].fields[f].Valid?
    {
      ValuesAreReadings(readings, i);
      assert readings[i] in readings;
    }
    if AllZero(values) {
      forall i, f | 0 <= i < |readings| && f in readings[i].fields
        ensures readings[i].fields[f] == Valid(0)
      {
        assert values[readings[i].scope.value][f] == 0;
      }
    }
    if ReportsZero(record) {
      forall scope, f | scope in values && f in values[scope]
        ensures values[scope][f] == 0
      {
        var r :| r in readings && r.scope == Some(scope);
        var i :| 0 <= i < |readings| && readings[i] == r;
      }
    }
  }

  /** The values have this shape: a count for each of these fields at each of these points, hits among them. */
  ghost predicate HasShape(values: Values, shape: set<(Option<Scope>, Field)>) {
    && (forall scope, f :: (Some(scope), f) in shape <==> scope in values && f in values[scope])
    && (forall scope | scope in values :: HitCount in values[scope])
    && (forall pair | pair in shape :: pair.0.Some?)
  }

  lemma SameShapeIff(a: Values, b: Values, first: set<(Option<Scope>, Field)>, second: set<(Option<Scope>, Field)>)
    requires HasShape(a, first) && HasShape(b, second)
    ensures SameShape(a, b) <==> first == second
  {
    if first == second {
      forall scope
        ensures scope in a <==> scope in b
        ensures scope in a && scope in b ==> a[scope].Keys == b[scope].Keys
      {
        assert scope in a <==> (Some(scope), HitCount) in first;
        assert scope in b <==> (Some(scope), HitCount) in second;
        if scope in a && scope in b {
          assert forall f :: f in a[scope] <==> (Some(scope), f) in first;
          assert forall f :: f in b[scope] <==> (Some(scope), f) in second;
        }
      }
    }
    if SameShape(a, b) {
      assert first <= second && second <= first by {
        ShapeWithin(a, b, first, second);
        ShapeWithin(b, a, second, first);
      }
    }
  }

  lemma ShapeWithin(a: Values, b: Values, first: set<(Option<Scope>, Field)>, second: set<(Option<Scope>, Field)>)
    requires HasShape(a, first) && HasShape(b, second) && SameShape(a, b)
    ensures first <= second
  {
    forall pair | pair in first
      ensures pair in second
    {
      var scope, f := pair.0.value, pair.1;
      assert pair == (Some(scope), f);
      assert scope in a && f in a[scope] && f in b[scope];
    }
  }

  lemma ShapeIsExplicit(first: Record, second: Record)
    requires AllUsable(first.readings) && AllUsable(second.readings)
    ensures SameShape(ValuesOf(first.readings), ValuesOf(second.readings)) <==> Shape(first) == Shape(second)
  {
    hide ValuesOf, Shape, AllUsable, HasShape, SameShape;
    ShapeOfValues(first);
    ShapeOfValues(second);
    SameShapeIff(ValuesOf(first.readings), ValuesOf(second.readings), Shape(first), Shape(second));
  }

  lemma ShapeOfValues(record: Record)
    requires AllUsable(record.readings)
    ensures HasShape(ValuesOf(record.readings), Shape(record))
  {
    var readings, values := record.readings, ValuesOf(record.readings);
    ScopesOfValues(readings);
    forall i | 0 <= i < |readings|
      ensures readings[i].scope.Some? && readings[i].scope.value in values && HitCount in readings[i].fields
      ensures values[readings[i].scope.value] == CountsOf(readings[i].fields)
      ensures CountsOf(readings[i].fields).Keys == readings[i].fields.Keys
    {
      ValuesAreReadings(readings, i);
      assert readings[i] in readings && Usable(readings[i]);
    }
    forall scope | scope in values
      ensures exists i :: 0 <= i < |readings| && readings[i].scope == Some(scope)
    {
      var r :| r in readings && r.scope == Some(scope);
      var i :| 0 <= i < |readings| && readings[i] == r;
    }
    forall scope, f
      ensures (Some(scope), f) in Shape(record) <==> scope in values && f in values[scope]
    {
      if scope in values && f in values[scope] {
        var i :| 0 <= i < |readings| && readings[i].scope == Some(scope);
        assert (readings[i].scope, f) in Shape(record);
      }
    }
  }

  /** When the collections read the rule's counters. */
  function Times(path: Path, snapshots: seq<Snapshot>): set<Time>
    requires forall s | s in snapshots :: path in s.records && s.records[path].checkedAt.Some?
  {
    set s | s in snapshots :: s.records[path].checkedAt.value
  }

  predicate AllReport(latest: Record, path: Path, snapshots: seq<Snapshot>, window: Window) {
    forall s | s in snapshots :: Reports(s, path, latest, window)
  }

  predicate AllZeroAlike(path: Path, snapshots: seq<Snapshot>) {
    && (forall s | s in snapshots :: path in s.records && ReportsZero(s.records[path]))
    && (forall s, t | s in snapshots && t in snapshots :: Shape(s.records[path]) == Shape(t.records[path]))
  }

  /** Read twice at least, not after the window began for the first time, within a day of its end, and without a
      longer pause. */
  ghost predicate Covers(times: set<Time>, window: Window) {
    && (exists a, b :: a in times && b in times && a != b)
    && (exists a :: a in times && a <= window.start)
    && (exists a :: a in times && window.end - a <= ONE_DAY)
    && (forall a, b :: DayApart(window, a, b) ==> exists t :: t in times && a < t < b)
  }

  predicate DayApart(window: Window, a: Time, b: Time) {
    window.start <= a && b <= window.end && b - a > ONE_DAY
  }

  lemma {:induction false} AllReportUnchanged(latest: Record, path: Path, snapshots: seq<Snapshot>, window: Window)
    requires AllReport(latest, path, snapshots, window)
    ensures Unchanged(latest, path, snapshots) == snapshots
  {
    hide Reports;
    if snapshots != [] {
      var before, last := snapshots[..|snapshots| - 1], snapshots[|snapshots| - 1];
      assert snapshots == before + [last] && last in snapshots;
      AllReportUnchanged(latest, path, before, window);
      ReportsIff(last, path, latest, window);
    }
  }

  lemma {:induction false} UnchangedIsSame(latest: Record, path: Path, snapshots: seq<Snapshot>)
    requires Unchanged(latest, path, snapshots) == snapshots
    ensures forall s | s in snapshots :: SameRule(latest, s, path)
  {
    if snapshots != [] {
      var before, last := snapshots[..|snapshots| - 1], snapshots[|snapshots| - 1];
      assert snapshots == before + [last];
      ScanKeepsUnanimous(latest, path, before, Window(0, 0));
      UnchangedIsSame(latest, path, before);
    }
  }

  /** Two copies of explicit zeros in the same shape are equal. */
  lemma ZerosAlikeAreEqual(a: Values, b: Values)
    requires AllZero(a) && AllZero(b) && SameShape(a, b)
    ensures a == b
  {
    forall scope | scope in a
      ensures a[scope] == b[scope]
    {
      assert forall f | f in a[scope] :: a[scope][f] == 0 && b[scope][f] == 0;
    }
  }

  /** The rule was observed by every collection without contradiction exactly when nothing closed or spoilt its scan. */
  lemma CleanIff(latest: Record, path: Path, snapshots: seq<Snapshot>, window: Window)
    ensures var state := Looked(latest, path, snapshots, window);
            !state.closed && state.unknown == 0 <==>
              AllReport(latest, path, snapshots, window) && state.conflicts == {}
  {
    hide Reports, Copy, SameRule, Looked;
    UnknownCounts(latest, path, snapshots, window);
    ScanKeepsUnanimous(latest, path, snapshots, window);
    forall s: Snapshot
      ensures Reports(s, path, latest, window) <==> SameRule(latest, s, path) && Copy(s, path, window).Some?
    {
      ReportsIff(s, path, latest, window);
    }
    if AllReport(latest, path, snapshots, window) {
      AllReportUnchanged(latest, path, snapshots, window);
    }
    if Unchanged(latest, path, snapshots) == snapshots {
      UnchangedIsSame(latest, path, snapshots);
    }
  }

  /** Without contradictions the samples are what the collections read, at the times they read it. */
  lemma SamplesAreReadings(latest: Record, path: Path, snapshots: seq<Snapshot>, window: Window)
    requires AllReport(latest, path, snapshots, window) && Looked(latest, path, snapshots, window).conflicts == {}
    ensures forall s | s in snapshots :: path in s.records && s.records[path].checkedAt.Some?
    ensures var samples := Looked(latest, path, snapshots, window).samples;
            && samples.Keys == Times(path, snapshots)
            && forall s | s in snapshots ::
                 && AllUsable(s.records[path].readings)
                 && samples[s.records[path].checkedAt.value] == ValuesOf(s.records[path].readings)
  {
    hide Looked, ValuesOf, AllUsable, KeepsUnanimous, Copies, Reports;
    ScanKeepsUnanimous(latest, path, snapshots, window);
    ReportsHaveTimes(latest, path, snapshots, window);
    var samples, copies := Looked(latest, path, snapshots, window).samples, Copies(latest, path, snapshots, window);
    forall s | s in snapshots
      ensures s.records[path].checkedAt.value in samples
      ensures samples[s.records[path].checkedAt.value] == ValuesOf(s.records[path].readings)
    {
      ReadingIsCopy(latest, path, snapshots, window, s);
      KeptCopy(samples, Looked(latest, path, snapshots, window).conflicts, copies,
               Sample(s.records[path].checkedAt.value, ValuesOf(s.records[path].readings)));
    }
    forall s | s in snapshots
      ensures AllUsable(s.records[path].readings)
    {
      ReadingIsCopy(latest, path, snapshots, window, s);
    }
    forall stamp | stamp in samples
      ensures stamp in Times(path, snapshots)
    {
      KeptCopy(samples, Looked(latest, path, snapshots, window).conflicts, copies, Sample(stamp, samples[stamp]));
      CopyIsReading(latest, path, snapshots, window, Sample(stamp, samples[stamp]));
    }
  }

  lemma KeptCopy(samples: map<Time, Values>, conflicts: set<Time>, copies: set<Sample>, sample: Sample)
    requires KeepsUnanimous(samples, conflicts, copies) && conflicts == {}
    ensures sample in copies <==> sample.stamp in samples && samples[sample.stamp] == sample.values
  {
    hide Unanimous;
    assert sample == Sample(sample.stamp, sample.values);
    assert sample.stamp !in conflicts && Unanimous(copies, sample.stamp);
  }

  lemma NoConflicts(samples: map<Time, Values>, conflicts: set<Time>, copies: set<Sample>)
    requires KeepsUnanimous(samples, conflicts, copies)
    requires forall a, b | a in copies && b in copies :: a.values == b.values
    ensures conflicts == {}
  {
    forall stamp
      ensures stamp !in conflicts
    {
      assert Unanimous(copies, stamp);
    }
  }

  lemma ReadingIsCopy(latest: Record, path: Path, snapshots: seq<Snapshot>, window: Window, s: Snapshot)
    requires AllReport(latest, path, snapshots, window) && s in snapshots
    ensures path in s.records && s.records[path].checkedAt.Some? && AllUsable(s.records[path].readings)
    ensures Sample(s.records[path].checkedAt.value, ValuesOf(s.records[path].readings)) in Copies(latest, path, snapshots, window)
  {
    hide Copy, ValuesOf, AllUsable;
    AllReportUnchanged(latest, path, snapshots, window);
    assert Reports(s, path, latest, window);
    ReportsIff(s, path, latest, window);
  }

  lemma CopyIsReading(latest: Record, path: Path, snapshots: seq<Snapshot>, window: Window, sample: Sample)
    requires AllReport(latest, path, snapshots, window) && sample in Copies(latest, path, snapshots, window)
    ensures exists s :: s in snapshots && path in s.records && s.records[path].checkedAt == Some(sample.stamp)
                        && AllUsable(s.records[path].readings) && sample.values == ValuesOf(s.records[path].readings)
  {
    hide Copy, ValuesOf, AllUsable;
    AllReportUnchanged(latest, path, snapshots, window);
    var s :| s in snapshots && Copy(s, path, window).Some? && Copy(s, path, window).value == sample;
    assert Reports(s, path, latest, window);
    ReportsIff(s, path, latest, window);
  }

  /** Copies of zeros alike never contradict each other. */
  lemma ZerosDoNotConflict(latest: Record, path: Path, snapshots: seq<Snapshot>, window: Window)
    requires AllReport(latest, path, snapshots, window) && AllZeroAlike(path, snapshots)
    ensures Looked(latest, path, snapshots, window).conflicts == {}
  {
    hide Looked, Copy, ValuesOf, AllUsable, Shape, ReportsZero, AllZero, SameShape;
    hide Copies, Reports, AllReport, KeepsUnanimous;
    ScanKeepsUnanimous(latest, path, snapshots, window);
    var copies := Copies(latest, path, snapshots, window);
    forall a, b | a in copies && b in copies
      ensures a.values == b.values
    {
      CopyIsReading(latest, path, snapshots, window, a);
      CopyIsReading(latest, path, snapshots, window, b);
      var s :| s in snapshots && path in s.records && s.records[path].checkedAt == Some(a.stamp)
               && AllUsable(s.records[path].readings) && a.values == ValuesOf(s.records[path].readings);
      var t :| t in snapshots && path in t.records && t.records[path].checkedAt == Some(b.stamp)
               && AllUsable(t.records[path].readings) && b.values == ValuesOf(t.records[path].readings);
      ZeroIsExplicit(s.records[path]);
      ZeroIsExplicit(t.records[path]);
      ShapeIsExplicit(s.records[path], t.records[path]);
      ZerosAlikeAreEqual(a.values, b.values);
    }
    NoConflicts(Looked(latest, path, snapshots, window).samples, Looked(latest, path, snapshots, window).conflicts, copies);
  }

  /** A rule is labelled consistently zero exactly when it has a stable identity and a known configuration, no
      collection failed, every collection of the window saw this very rule and gave explicit zeros for the same
      counters, and their readings cover the window. */
  lemma ZeroIff(latest: Record, path: Path, snapshots: seq<Snapshot>, window: Window, failedJobs: nat)
    ensures ConsistentlyZero(Looked(latest, path, snapshots, window), latest, window, failedJobs) <==>
              && (latest.identity.uniqueId !in {None, Some("")} || latest.identity.createdAt !in {None, Some("")})
              && latest.configuration !in {None, Some("")}
              && failedJobs == 0
              && AllReport(latest, path, snapshots, window) && AllZeroAlike(path, snapshots)
              && Covers(Times(path, snapshots), window)
  {
    hide Looked, AllReport, AllZeroAlike, Covers, Times, AllZero, SameShape, Dense;
    CleanIff(latest, path, snapshots, window);
    var state := Looked(latest, path, snapshots, window);
    if AllReport(latest, path, snapshots, window) {
      ReportsHaveTimes(latest, path, snapshots, window);
      if AllZeroAlike(path, snapshots) {
        ZerosDoNotConflict(latest, path, snapshots, window);
      }
      if state.conflicts == {} {
        SamplesAreReadings(latest, path, snapshots, window);
        ZerosAlikeIff(latest, path, snapshots, window);
        CoversIff(state.samples, window);
      }
    }
  }

  lemma ReportsHaveTimes(latest: Record, path: Path, snapshots: seq<Snapshot>, window: Window)
    requires AllReport(latest, path, snapshots, window)
    ensures forall s | s in snapshots :: path in s.records && s.records[path].checkedAt.Some?
  {
    forall s | s in snapshots
      ensures path in s.records && s.records[path].checkedAt.Some?
    {
      assert Reports(s, path, latest, window);
    }
  }

  lemma ZerosAlikeIff(latest: Record, path: Path, snapshots: seq<Snapshot>, window: Window)
    requires AllReport(latest, path, snapshots, window) && Looked(latest, path, snapshots, window).conflicts == {}
    ensures var samples := Looked(latest, path, snapshots, window).samples;
            AllZeroAlike(path, snapshots) <==>
              && (forall stamp | stamp in samples :: AllZero(samples[stamp]))
              && forall a, b | a in samples && b in samples :: SameShape(samples[a], samples[b])
  {
    hide Looked, AllReport, ValuesOf, AllUsable, Shape, ReportsZero, AllZero, SameShape;
    SamplesAreReadings(latest, path, snapshots, window);
    var samples := Looked(latest, path, snapshots, window).samples;
    forall s | s in snapshots
      ensures AllZero(samples[s.records[path].checkedAt.value]) <==> ReportsZero(s.records[path])
    {
      ZeroIsExplicit(s.records[path]);
    }
    forall s, t | s in snapshots && t in snapshots
      ensures SameShape(samples[s.records[path].checkedAt.value], samples[t.records[path].checkedAt.value]) <==>
                Shape(s.records[path]) == Shape(t.records[path])
    {
      ShapeIsExplicit(s.records[path], t.records[path]);
    }
    forall stamp | stamp in samples
      ensures exists s :: s in snapshots && s.records[path].checkedAt.value == stamp
    {
      assert stamp in Times(path, snapshots);
    }
    if AllZeroAlike(path, snapshots) {
      forall a, b | a in samples && b in samples
        ensures AllZero(samples[a]) && SameShape(samples[a], samples[b])
      {
        var s :| s in snapshots && s.records[path].checkedAt.value == a;
        var t :| t in snapshots && t.records[path].checkedAt.value == b;
      }
    }
    if (forall stamp | stamp in samples :: AllZero(samples[stamp]))
       && forall a, b | a in samples && b in samples :: SameShape(samples[a], samples[b]) {
      forall s, t | s in snapshots && t in snapshots
        ensures ReportsZero(s.records[path]) && Shape(s.records[path]) == Shape(t.records[path])
      {
        assert s.records[path].checkedAt.value in Times(path, snapshots);
        assert t.records[path].checkedAt.value in Times(path, snapshots);
      }
    }
  }

  lemma CoversIff(samples: map<Time, Values>, window: Window)
    ensures Covers(samples.Keys, window) <==>
              && |samples| >= 2
              && (exists stamp :: stamp in samples && stamp <= window.start)
              && (exists stamp :: stamp in samples && window.end - stamp <= GAP_LIMIT)
              && Dense(samples, window)
  {
    TwoMembers(samples.Keys);
    assert |samples| == |samples.Keys|;
    assert forall a, b :: DayApart(window, a, b) <==> LongStretch(window, a, b);
    assert forall a, b :: SampledBetween(samples, a, b) <==> exists t :: t in samples.Keys && a < t < b;
    if Dense(samples, window) {
      forall a, b | DayApart(window, a, b)
        ensures exists t :: t in samples.Keys && a < t < b
      {
        assert LongStretch(window, a, b) && SampledBetween(samples, a, b);
      }
    }
    if forall a, b :: DayApart(window, a, b) ==> exists t :: t in samples.Keys && a < t < b {
      forall a, b | LongStretch(window, a, b)
        ensures SampledBetween(samples, a, b)
      {
        assert DayApart(window, a, b);
      }
    }
  }

  lemma TwoMembers(times: set<Time>)
    ensures |times| >= 2 <==> exists a, b :: a in times && b in times && a != b
  {
    if |times| >= 2 {
      SomeMember(times);
      var a :| a in times;
      assert |times - {a}| == |times| - 1;
      SomeMember(times - {a});
      var b :| b in times - {a};
    }
    if a, b :| a in times && b in times && a != b {
      assert |times| == |times - {a, b}| + 2;
    }
  }
}
