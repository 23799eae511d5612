/** What the stored observation fields mean in terms of the whole history of one finding. */
module ObservationRuns {
  import opened Common
  import opened FindingModel
  import opened Observation

  /** One collection, as one finding sees it: its condition was evaluated, or it was not observed. */
  datatype Sighting = Seen(check: Check) | Lost(row: Row)

  /** A finding starts with an evaluation that resets it. */
  predicate Started(history: seq<Sighting>) {
    history != [] && history[0].Seen? && history[0].check.reset
  }

  /** The stored fields after the first n collections, with the time of the last evaluation. */
  function Recorded(kind: Kind, history: seq<Sighting>, n: nat): (Watch, Time)
    requires Started(history) && 1 <= n <= |history|
  {
    var (watch, lastSeen) := if n == 1 then (UNWATCHED, history[0].check.stamp) else Recorded(kind, history, n - 1);
    match history[n - 1]
    case Seen(check) => (Advanced(watch, kind, lastSeen, check), check.stamp)
    case Lost(row) => (Lapsed(watch, kind, row), lastSeen)
  }

  function LastSeen(history: seq<Sighting>, n: nat): Time
    requires Started(history) && n <= |history|
  {
    if n == 0 then history[0].check.stamp
    else if history[n - 1].Seen? then history[n - 1].check.stamp
    else LastSeen(history, n - 1)
  }

  function SignatureOf(kind: Kind, check: Check): Option<PolicySignature> {
    match DaysFor(check.policy, kind)
    case None => None
    case Some(days) => Some(PolicySignature(days, check.policy.minimumObservations, Gap(check)))
  }

  /** Collection i counts as an observation of the condition. */
  predicate Counted(kind: Kind, history: seq<Sighting>, i: nat)
    requires Started(history) && i < |history|
  {
    && history[i].Seen?
    && SignatureOf(kind, history[i].check).Some?
    && (kind == ZeroHits ==> FreshZero(history[i].check, LastSeen(history, i)))
  }

  /** Collection i carries on the sequence that collection i - 1 belongs to. */
  predicate Continues(kind: Kind, history: seq<Sighting>, i: nat)
    requires Started(history) && i < |history|
  {
    && i > 0
    && Counted(kind, history, i - 1)
    && Counted(kind, history, i)
    && var before, check := history[i - 1].check, history[i].check;
       && !check.reset
       && SignatureOf(kind, check) == SignatureOf(kind, before)
       && before.stamp < check.stamp <= before.stamp + Gap(check)
  }

  /** Collections start..n form an unbroken run that cannot be extended backwards. */
  predicate MaximalRun(kind: Kind, history: seq<Sighting>, start: nat, n: nat)
    requires Started(history) && start < n <= |history|
  {
    && Counted(kind, history, start)
    && !Continues(kind, history, start)
    && forall i :: start < i < n ==> Continues(kind, history, i)
  }

  /** The waiting period and the number of observations are reached at collection i of the run. */
  predicate Satisfied(kind: Kind, history: seq<Sighting>, start: nat, i: nat)
    requires Started(history) && start <= i < |history|
    requires Counted(kind, history, start) && Counted(kind, history, i)
  {
    var terms := SignatureOf(kind, history[i].check).value;
    || terms.days == 0
    || ((history[i].check.stamp - history[start].check.stamp) / DAY >= terms.days && i - start + 1 >= terms.minimum)
  }

  /** Collection i is the first of the run at which the criteria were met. */
  predicate FirstSatisfied(kind: Kind, history: seq<Sighting>, start: nat, n: nat, i: nat)
    requires Started(history) && start < n <= |history| && MaximalRun(kind, history, start, n)
  {
    && start <= i < n
    && Counted(kind, history, i)
    && Satisfied(kind, history, start, i)
    && forall j :: start <= j < i && Counted(kind, history, j) ==> !Satisfied(kind, history, start, j)
  }

  ghost predicate Describes(kind: Kind, history: seq<Sighting>, start: nat, n: nat, watch: Watch)
    requires Started(history) && start < n <= |history| && MaximalRun(kind, history, start, n)
    requires Counted(kind, history, n - 1)
  {
    && watch.started == Some(history[start].check.stamp)
    && watch.count == n - start
    && watch.days == (history[n - 1].check.stamp - history[start].check.stamp) / DAY
    && watch.signature == SignatureOf(kind, history[n - 1].check)
    && watch.qualification == (if Satisfied(kind, history, start, n - 1) then Eligible else Observing)
    && (watch.qualifiedAt.Some? <==> Satisfied(kind, history, start, n - 1))
    && (watch.qualifiedAt.Some? ==>
          exists i: nat :: FirstSatisfied(kind, history, start, n, i) && watch.qualifiedAt == Some(history[i].check.stamp))
  }

  /** The fields describe exactly the maximal unbroken run that ends with the newest collection,
      and say that there is none when the newest collection does not count. */
  lemma {:induction false} RecordedDescribesMaximalRun(kind: Kind, history: seq<Sighting>, n: nat)
      returns (start: nat)
    requires Started(history) && 1 <= n <= |history|
    ensures Recorded(kind, history, n).1 == LastSeen(history, n)
    ensures var watch := Recorded(kind, history, n).0;
            if Counted(kind, history, n - 1) then
              start < n && MaximalRun(kind, history, start, n) && Describes(kind, history, start, n, watch)
            else
              watch.started == None && watch.qualifiedAt == None && watch.count == watch.days == 0
              && watch.qualification in {Insufficient, Cleared}
  {
    hide Advanced, Lapsed, FreshZero, MaximalRun, Satisfied, FirstSatisfied;
    start := n - 1;
    if !Counted(kind, history, n - 1) {
      UncountedStartsNothing(kind, history, n);
    }
    if n == 1 {
      assert LastSeen(history, 0) == history[0].check.stamp;
      if Counted(kind, history, 0) {
        BeginRun(kind, history, 1, UNWATCHED, history[0].check.stamp);
      }
    } else {
      var earlier := RecordedDescribesMaximalRun(kind, history, n - 1);
      var (watch, lastSeen) := Recorded(kind, history, n - 1);
      if Continues(kind, history, n - 1) {
        start := earlier;
        ExtendRun(kind, history, start, n, watch);
      } else if Counted(kind, history, n - 1) {
        BeginRun(kind, history, n, watch, lastSeen);
      }
    }
  }

  /** A collection that does not count leaves no sequence behind. */
  lemma UncountedStartsNothing(kind: Kind, history: seq<Sighting>, n: nat)
    requires Started(history) && 1 <= n <= |history| && !Counted(kind, history, n - 1)
    ensures var watch := Recorded(kind, history, n).0;
            && watch.started == None && watch.qualifiedAt == None && watch.count == watch.days == 0
            && watch.qualification in {Insufficient, Cleared}
  {
    var (watch, lastSeen) := if n == 1 then (UNWATCHED, history[0].check.stamp) else Recorded(kind, history, n - 1);
    if n > 1 {
      LastSeenIsRecorded(kind, history, n - 1);
    }
  }

  lemma {:induction false} LastSeenIsRecorded(kind: Kind, history: seq<Sighting>, n: nat)
    requires Started(history) && 1 <= n <= |history|
    ensures Recorded(kind, history, n).1 == LastSeen(history, n)
  {
    hide Advanced, Lapsed;
    if n > 1 {
      LastSeenIsRecorded(kind, history, n - 1);
    } else {
      assert LastSeen(history, 0) == history[0].check.stamp;
    }
  }

  lemma BeginRun(kind: Kind, history: seq<Sighting>, n: nat, watch: Watch, lastSeen: Time)
    requires Started(history) && 1 <= n <= |history|
    requires Counted(kind, history, n - 1) && !Continues(kind, history, n - 1)
    requires lastSeen == LastSeen(history, n - 1)
    requires || watch.started == None
             || history[n - 1].check.reset
             || (n > 1 && Counted(kind, history, n - 2)
                 && watch.signature == SignatureOf(kind, history[n - 2].check))
    ensures MaximalRun(kind, history, n - 1, n)
    ensures Describes(kind, history, n - 1, n, Advanced(watch, kind, lastSeen, history[n - 1].check))
  {
    assert MaximalRun(kind, history, n - 1, n);
    if Satisfied(kind, history, n - 1, n - 1) {
      assert FirstSatisfied(kind, history, n - 1, n, n - 1);
    }
  }

  lemma ExtendRun(kind: Kind, history: seq<Sighting>, start: nat, n: nat, watch: Watch)
    requires Started(history) && start < n - 1 < n <= |history|
    requires MaximalRun(kind, history, start, n - 1) && Counted(kind, history, n - 2)
    requires Describes(kind, history, start, n - 1, watch)
    requires Continues(kind, history, n - 1)
    ensures MaximalRun(kind, history, start, n)
    ensures Describes(kind, history, start, n,
                      Advanced(watch, kind, history[n - 2].check.stamp, history[n - 1].check))
  {
    RunIncreases(kind, history, start, n - 2);
    assert MaximalRun(kind, history, start, n);
    StaysSatisfied(kind, history, start, n - 2, n - 1);
    if Satisfied(kind, history, start, n - 1) {
      var i := FirstOfLongerRun(kind, history, start, n, watch);
    }
  }

  lemma FirstOfLongerRun(kind: Kind, history: seq<Sighting>, start: nat, n: nat, watch: Watch) returns (i: nat)
    requires Started(history) && start < n - 1 < n <= |history|
    requires MaximalRun(kind, history, start, n - 1) && MaximalRun(kind, history, start, n)
    requires Counted(kind, history, n - 2) && Counted(kind, history, n - 1)
    requires Describes(kind, history, start, n - 1, watch)
    requires Satisfied(kind, history, start, n - 1)
    ensures FirstSatisfied(kind, history, start, n, i)
    ensures Some(history[i].check.stamp) ==
            if watch.qualifiedAt.Some? then watch.qualifiedAt else Some(history[n - 1].check.stamp)
  {
    if Satisfied(kind, history, start, n - 2) {
      i :| FirstSatisfied(kind, history, start, n - 1, i) && watch.qualifiedAt == Some(history[i].check.stamp);
    } else {
      i := n - 1;
      forall j | start <= j < n - 1 && Counted(kind, history, j)
        ensures !Satisfied(kind, history, start, j)
      {
        StaysSatisfied(kind, history, start, j, n - 2);
      }
    }
  }

  lemma {:induction false} RunIncreases(kind: Kind, history: seq<Sighting>, start: nat, i: nat)
    requires Started(history) && start <= i < |history|
    requires Counted(kind, history, start)
    requires forall j :: start < j <= i ==> Continues(kind, history, j)
    ensures Counted(kind, history, i)
    ensures SignatureOf(kind, history[i].check) == SignatureOf(kind, history[start].check)
    ensures history[i].check.stamp >= history[start].check.stamp + (i - start)
  {
    if i > start {
      RunIncreases(kind, history, start, i - 1);
      assert Continues(kind, history, i);
    }
  }

  /** Within a run the criteria, once met, stay met. */
  lemma {:induction false} StaysSatisfied(kind: Kind, history: seq<Sighting>, start: nat, j: nat, i: nat)
    requires Started(history) && start <= j <= i < |history|
    requires Counted(kind, history, start) && Counted(kind, history, j) && Counted(kind, history, i)
    requires forall m :: start < m <= i ==> Continues(kind, history, m)
    ensures Satisfied(kind, history, start, j) ==> Satisfied(kind, history, start, i)
  {
    if j < i {
      assert Continues(kind, history, i);
      StaysSatisfied(kind, history, start, j, i - 1);
    }
  }

  /** An eligible finding with a waiting period has been watched without a break for at least that
      many full days and at least the configured number of times. */
  lemma EligibleIsEarned(kind: Kind, history: seq<Sighting>, n: nat) returns (start: nat)
    requires Started(history) && 1 <= n <= |history|
    requires Recorded(kind, history, n).0.qualification == Eligible
    ensures start < n && MaximalRun(kind, history, start, n) && Counted(kind, history, n - 1)
    ensures var terms := SignatureOf(kind, history[n - 1].check).value;
            terms.days > 0 ==>
              && history[n - 1].check.stamp >= history[start].check.stamp + terms.days * DAY
              && n - start >= terms.minimum
  {
    start := RecordedDescribesMaximalRun(kind, history, n);
  }
}
