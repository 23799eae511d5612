/** What holds in every state a deletion can reach, however requests, workers, crashes and recovery interleave. */
module DeletionSafety {
  import opened Common
  import opened FindingModel
  import opened FindingWorkflow
  import opened DeletionGuards
  import opened DeletionProtocol
  import opened DeletionRows
  import Reviews = ApprovalSafety

  // ----- Reading the log of network requests -----

  function Upto(n: nat): (indexes: seq<nat>)
    ensures |indexes| == n
  {
    seq(n, i => i)
  }

  /** The rule changes requested for an item, in order, as positions in its plan. */
  function Mutated(log: seq<Event>, i: ItemId): seq<nat> {
    if log == [] then []
    else
      var before, last := Mutated(log[..|log| - 1], i), log[|log| - 1];
      if last.RuleRequest? && last.item == i then before + [last.index] else before
  }

  predicate ObjectSent(log: seq<Event>, i: ItemId) {
    exists n :: 0 <= n < |log| && log[n].ObjectRequest? && log[n].item == i
  }

  /** The object as the latest live check of the item read it, if that found no references and no rule change of
      the item has been requested since. */
  function FreshlyChecked(log: seq<Event>, i: ItemId): Option<Row> {
    if log == [] then None
    else
      var before, last := FreshlyChecked(log[..|log| - 1], i), log[|log| - 1];
      if last.item != i || last.ObjectRequest? then before
      else if last.FreshCheck? && last.references == {} then Some(last.live) else None
  }

  lemma LogAppends(log: seq<Event>, event: Event, i: ItemId)
    ensures Mutated(log + [event], i) ==
              if event.RuleRequest? && event.item == i then Mutated(log, i) + [event.index] else Mutated(log, i)
    ensures ObjectSent(log + [event], i) <==> ObjectSent(log, i) || (event.ObjectRequest? && event.item == i)
    ensures FreshlyChecked(log + [event], i) ==
              if event.item != i || event.ObjectRequest? then FreshlyChecked(log, i)
              else if event.FreshCheck? && event.references == {} then Some(event.live) else None
  {
    var longer := log + [event];
    assert longer[..|log|] == log;
    if n :| 0 <= n < |log| && log[n].ObjectRequest? && log[n].item == i {
      assert longer[n] == log[n];
    }
    assert longer[|log|] == event;
  }

  lemma {:induction false} NothingLogged(log: seq<Event>, i: ItemId)
    requires forall n | 0 <= n < |log| :: log[n].item != i
    ensures Mutated(log, i) == [] && !ObjectSent(log, i)
  {
    if log != [] {
      NothingLogged(log[..|log| - 1], i);
    }
  }

  // ----- What holds of every item -----

  /** Recorded outcomes follow the plan; all but the last succeeded. */
  predicate Aligned(item: Item) {
    && |item.results| <= |item.plan|
    && (forall k | 0 <= k < |item.results| ::
          item.results[k].path == item.plan[k].path && item.results[k].removes == (item.plan[k].after == None))
    && forall k | 0 <= k < |item.results| - 1 :: item.results[k].status in {RuleUpdated, RuleDeleted}
  }

  predicate FullyApplied(item: Item) {
    |item.results| == |item.plan| && AllDone(item.results)
  }

  predicate LastIsPending(item: Item) {
    item.results != [] && item.results[|item.results| - 1].status == RuleSending
  }

  /** Requests for rule changes never run ahead of the recorded intents, and lag by at most the last one. */
  predicate Recorded(item: Item, mutated: seq<nat>) {
    || mutated == Upto(|item.results|)
    || (LastIsPending(item) && mutated == Upto(|item.results| - 1))
  }

  predicate ItemGood(item: Item, mutated: seq<nat>, sent: bool) {
    && Aligned(item) && Recorded(item, mutated)
    && (item.results != [] ==> item.status in {Validating, Sending, Deleted, Failed, Uncertain, ItemStatus.Blocked})
    && (sent ==> MayBeSent(item.status))
  }

  predicate SeenGood(item: Item, seen: nat, findings: seq<Reviews.Database>) {
    && seen < |findings| && item.key.Some? && item.key.value in findings[seen]
    && findings[seen][item.key.value].revision == item.revision
  }

  /** The item as it was before its last outcome was recorded; all earlier changes had succeeded. */
  predicate IntendedFor(before: Item, item: Item) {
    item.results != [] && before == item.(results := item.results[..|item.results| - 1]) && AllDone(before.results)
  }

  /** What an executing worker may rely on at each point. */
  predicate FlightGood(flight: Flight, item: Item, mutated: seq<nat>, sent: bool, checked: Option<Row>,
                       findings: seq<Reviews.Database>)
  {
    match flight
    case Inspecting(_) => item.results == []
    case Cleaning(_, seen) => AllDone(item.results) && mutated == Upto(|item.results|) && SeenGood(item, seen, findings)
    case Changing(_, seen, requested, _, authority) =>
      && LastIsPending(item) && SeenGood(item, seen, findings) && IntendedFor(authority.item, item)
      && mutated == Upto(if requested then |item.results| else |item.results| - 1)
    case Broken(_) => mutated == Upto(|item.results|)
    case Checked(_, seen) =>
      && FullyApplied(item) && mutated == Upto(|item.results|) && SeenGood(item, seen, findings)
      && checked == Some(item.before)
    case Intended(_, seen) =>
      && FullyApplied(item) && mutated == Upto(|item.results|) && SeenGood(item, seen, findings)
      && checked == Some(item.before) && !sent
    case _ => true
  }

  function StageOf(b: BatchId, batches: Batches, recovering: map<BatchId, nat>): nat {
    if b in recovering then recovering[b] else if b in batches && batches[b].status == Interrupted then 3 else 0
  }

  /** What recovery has settled so far. */
  predicate StageGood(item: Item, stage: nat) {
    && (stage >= 1 ==> item.status != Sending)
    && (stage >= 2 ==> !OpenItem(item.status) && item.status != Validating)
    && (stage >= 3 && item.results != [] ==> item.status in {Deleted, Uncertain})
  }

  predicate ItemsGood(items: Items, log: seq<Event>) {
    forall i | i in items :: ItemGood(items[i], Mutated(log, i), ObjectSent(log, i))
  }

  predicate WorkerGood(worker: Worker, items: Items, log: seq<Event>, findings: seq<Reviews.Database>) {
    worker.phase.Looping? && worker.phase.execute && !worker.phase.flight.Idle? && worker.phase.flight.item in items ==>
      var i := worker.phase.flight.item;
      FlightGood(worker.phase.flight, items[i], Mutated(log, i), ObjectSent(log, i), FreshlyChecked(log, i), findings)
  }

  predicate WorkersGood(workers: Workers, items: Items, log: seq<Event>, findings: seq<Reviews.Database>) {
    forall w | w in workers :: WorkerGood(workers[w], items, log, findings)
  }

  predicate StagesGood(items: Items, batches: Batches, recovering: map<BatchId, nat>) {
    forall i | i in items :: StageGood(items[i], StageOf(items[i].batch, batches, recovering))
  }

  predicate Logged(log: seq<Event>, items: Items) {
    forall n | 0 <= n < |log| :: log[n].item in items
  }

  predicate Good(s: State) {
    && Fits(s) && Logged(s.log, s.items) && ItemsGood(s.items, s.log)
    && WorkersGood(s.workers, s.items, s.log, s.findings)
    && StagesGood(s.items, s.batches, s.recovering)
  }

  // ----- Changing one row -----

  /** The item in hand, its worker and the log move on together. */
  lemma HandGood(s: State, t: State, w: WorkerId, item: Item, flight: Flight, events: seq<Event>)
    requires Good(s) && Fits(t) && On(s, w, true)
    requires |events| <= 1 && t.log == s.log + events && forall e | e in events :: e.item == FlightOf(s, w).item
    requires item.batch == s.items[FlightOf(s, w).item].batch
    requires t.items == Keep(s, FlightOf(s, w).item, item) && t.workers == Fly(s, w, flight)
    requires t.batches == s.batches && t.recovering == s.recovering && s.findings <= t.findings
    requires ItemGood(item, Mutated(t.log, FlightOf(s, w).item), ObjectSent(t.log, FlightOf(s, w).item))
    requires WorkerGood(t.workers[w], t.items, t.log, t.findings)
    ensures Good(t)
  {
    hide SameOrigins, ItemGood, FlightGood, Mutated, ObjectSent, FreshlyChecked, StageGood, ItemsFit, OriginsFit, FlightFits,
         ChildFits, StatusesFit, RecoveringFits;
    var i := FlightOf(s, w).item;
    forall j | j != i
      ensures Mutated(t.log, j) == Mutated(s.log, j) && ObjectSent(t.log, j) == ObjectSent(s.log, j)
      ensures FreshlyChecked(t.log, j) == FreshlyChecked(s.log, j)
    {
      if events != [] {
        assert events == [events[0]] && events[0] in events;
        LogAppends(s.log, events[0], j);
      } else {
        assert t.log == s.log;
      }
    }
    assert WorkerFits(s.workers[w], s.items, s.batches, s.recovering);
    forall v | v in t.workers
      ensures WorkerGood(t.workers[v], t.items, t.log, t.findings)
    {
      if v != w {
        assert WorkerFits(s.workers[v], s.items, s.batches, s.recovering) && s.workers[v].batch != s.workers[w].batch;
        FindingsGrow(s.workers[v], s.items, s.log, s.findings, t.findings);
      }
    }
    assert StageOf(item.batch, t.batches, t.recovering) == 0;
    StageZero(item);
  }

  lemma StageZero(item: Item)
    ensures StageGood(item, 0)
  {
  }

  lemma FindingsGrow(worker: Worker, items: Items, log: seq<Event>, before: seq<Reviews.Database>, after: seq<Reviews.Database>)
    requires WorkerGood(worker, items, log, before) && before <= after
    ensures WorkerGood(worker, items, log, after)
  {
  }

  /** Items are added or rewritten away from executing workers; nothing is requested. */
  lemma AwayGood(s: State, t: State)
    requires Good(s) && Fits(t) && t.log == s.log && t.findings == s.findings && s.items.Keys <= t.items.Keys
    requires forall i | i in s.items ::
               || t.items[i] == s.items[i]
               || ItemGood(t.items[i], Mutated(s.log, i), ObjectSent(s.log, i))
    requires forall i | i in t.items && i !in s.items :: t.items[i].results == [] && !MayBeSent(t.items[i].status)
    requires forall i | i in t.items :: StageGood(t.items[i], StageOf(t.items[i].batch, t.batches, t.recovering))
    requires forall w | w in t.workers ::
               || (w in s.workers && t.workers[w] == s.workers[w] && SameInHand(s, t, s.workers[w]))
               || WorkerGood(t.workers[w], t.items, t.log, t.findings)
    ensures Good(t)
  {
    hide SameOrigins, Fits, ItemGood, FlightGood, Mutated, ObjectSent, FreshlyChecked, StageGood;
    forall i | i in t.items && i !in s.items
      ensures ItemGood(t.items[i], Mutated(t.log, i), ObjectSent(t.log, i))
    {
      NothingLogged(s.log, i);
      FreshGood(t.items[i]);
    }
  }

  lemma FreshGood(item: Item)
    requires item.results == []
    ensures ItemGood(item, [], false)
  {
  }

  predicate SameInHand(s: State, t: State, worker: Worker) {
    worker.phase.Looping? && worker.phase.execute && !worker.phase.flight.Idle? && worker.phase.flight.item in t.items ==>
      worker.phase.flight.item in s.items && t.items[worker.phase.flight.item] == s.items[worker.phase.flight.item]
  }

  /** In a request that was never executed, nothing of an item has been requested. */
  lemma UntouchedIsUnsent(s: State, i: ItemId)
    requires Good(s) && i in s.items && s.items[i].results == []
    requires s.items[i].status != Validating && !MayBeSent(s.items[i].status)
    ensures Mutated(s.log, i) == [] && !ObjectSent(s.log, i)
  {
    hide SameOrigins, Fits, WorkersGood, StagesGood, Logged;
    assert ItemGood(s.items[i], Mutated(s.log, i), ObjectSent(s.log, i));
    assert Upto(0) == [];
  }

  lemma QuietGood(item: Item)
    requires item.results == []
    ensures ItemGood(item, [], false)
  {
    assert Upto(0) == [];
  }

  // ----- Steps of executing workers -----

  lemma ItemInHand(s: State, w: WorkerId)
    requires Good(s) && On(s, w, true)
    ensures var i := FlightOf(s, w).item;
            && ItemGood(s.items[i], Mutated(s.log, i), ObjectSent(s.log, i))
            && FlightGood(FlightOf(s, w), s.items[i], Mutated(s.log, i), ObjectSent(s.log, i), FreshlyChecked(s.log, i), s.findings)
            && FlightFits(FlightOf(s, w), true, s.items[i]) && s.items[i].batch == s.workers[w].batch
  {
    hide SameOrigins, ItemGood, FlightGood, FlightFits, ItemsFit, OriginsFit, StagesGood, StatusesFit,
         ChildFits, InLane;
    assert WorkerFits(s.workers[w], s.items, s.batches, s.recovering);
    assert WorkerGood(s.workers[w], s.items, s.log, s.findings);
  }

  lemma FindAbsentGood(s: State, w: WorkerId)
    requires Good(s) && Enabled(s, FindAbsent(w))
    ensures Good(After(s, FindAbsent(w)))
  {
    hide SameOrigins, Fits, ItemsGood, WorkersGood, StagesGood, Logged, Mutated, ObjectSent, FreshlyChecked,
         AfterPreview, AfterCleanup, AfterEnding, AfterRequest,
         PreviewEnabled, CleanupEnabled, EndingEnabled, RequestEnabled;
    StepFits(s, FindAbsent(w));
    ItemInHand(s, w);
    var t := After(s, FindAbsent(w));
    assert t.log == s.log + [];
    HandGood(s, t, w, t.items[FlightOf(s, w).item], Idle, []);
  }

  lemma IntendGood(s: State, w: WorkerId)
    requires Good(s) && Enabled(s, Intend(w))
    ensures Good(After(s, Intend(w)))
  {
    hide SameOrigins, Fits, ItemsGood, WorkersGood, StagesGood, Logged, Mutated, ObjectSent, FreshlyChecked,
         AfterPreview, AfterCleanup, AfterEnding, AfterRequest,
         PreviewEnabled, CleanupEnabled, EndingEnabled, RequestEnabled;
    StepFits(s, Intend(w));
    ItemInHand(s, w);
    var t := After(s, Intend(w));
    assert t.log == s.log + [];
    HandGood(s, t, w, t.items[FlightOf(s, w).item], t.workers[w].phase.flight, []);
  }

  lemma GiveUpGood(s: State, w: WorkerId)
    requires Good(s) && Enabled(s, GiveUp(w))
    ensures Good(After(s, GiveUp(w)))
  {
    hide SameOrigins, Fits, ItemsGood, WorkersGood, StagesGood, Logged, Mutated, ObjectSent, FreshlyChecked, SeenGood, SomeDoubt,
         AfterPreview, AfterCleanup, AfterEnding, AfterRequest,
         PreviewEnabled, CleanupEnabled, EndingEnabled, RequestEnabled;
    StepFits(s, GiveUp(w));
    ItemInHand(s, w);
    var t := After(s, GiveUp(w));
    assert t.log == s.log + [];
    HandGood(s, t, w, t.items[FlightOf(s, w).item], Idle, []);
  }

  lemma AnswerGood(s: State, w: WorkerId, outcome: ItemStatus, closed: Reviews.Database,
                   related: Reviews.Database)
    requires Good(s) && Enabled(s, Answer(w, outcome, closed, related))
    ensures Good(After(s, Answer(w, outcome, closed, related)))
  {
    hide SameOrigins, Fits, ItemsGood, WorkersGood, StagesGood, Logged, Mutated, ObjectSent, FreshlyChecked, SeenGood,
         AfterPreview, AfterCleanup, AfterEnding, AfterRequest,
         PreviewEnabled, CleanupEnabled, EndingEnabled, RequestEnabled;
    StepFits(s, Answer(w, outcome, closed, related));
    ItemInHand(s, w);
    var t := After(s, Answer(w, outcome, closed, related));
    assert t.log == s.log + [];
    HandGood(s, t, w, t.items[FlightOf(s, w).item], Idle, []);
  }

  lemma InspectGood(s: State, w: WorkerId, found: Inspection)
    requires Good(s) && Enabled(s, Inspect(w, found))
    ensures Good(After(s, Inspect(w, found)))
  {
    hide SameOrigins, Fits, ItemsGood, WorkersGood, StagesGood, Logged, Mutated, ObjectSent, FreshlyChecked, Authorized,
         CleanupApproved, SamePlan, ApprovalsValid;
    StepFits(s, Inspect(w, found));
    ItemInHand(s, w);
    var t, i := After(s, Inspect(w, found)), FlightOf(s, w).item;
    var event := FreshCheck(i, found.live, found.references);
    LogAppends(s.log, event, i);
    assert t.log == s.log + [event] && t.items == Keep(s, i, s.items[i]);
    assert Upto(0) == [];
    HandGood(s, t, w, s.items[i], t.workers[w].phase.flight, [event]);
  }

  lemma FinishCleanupGood(s: State, w: WorkerId, live: Row, references: set<Path>)
    requires Good(s) && Enabled(s, FinishCleanup(w, live, references))
    ensures Good(After(s, FinishCleanup(w, live, references)))
  {
    hide SameOrigins, Fits, ItemsGood, WorkersGood, StagesGood, Logged, Mutated, ObjectSent, FreshlyChecked, ApprovalsValid,
         FindingAt, SeenGood;
    StepFits(s, FinishCleanup(w, live, references));
    ItemInHand(s, w);
    var t, i := After(s, FinishCleanup(w, live, references)), FlightOf(s, w).item;
    var event := FreshCheck(i, live, references);
    LogAppends(s.log, event, i);
    assert t.log == s.log + [event] && t.items == Keep(s, i, s.items[i]);
    HandGood(s, t, w, s.items[i], t.workers[w].phase.flight, [event]);
  }

  lemma RequestChangeGood(s: State, w: WorkerId)
    requires Good(s) && Enabled(s, RequestChange(w))
    ensures Good(After(s, RequestChange(w)))
  {
    hide SameOrigins, Fits, ItemsGood, WorkersGood, StagesGood, Logged, Mutated, ObjectSent, FreshlyChecked, SeenGood, Aligned;
    StepFits(s, RequestChange(w));
    ItemInHand(s, w);
    var t, i := After(s, RequestChange(w)), FlightOf(s, w).item;
    var event := t.log[|s.log|];
    LogAppends(s.log, event, i);
    assert t.items == Keep(s, i, s.items[i]) && t.log == s.log + [event];
    assert Upto(|s.items[i].results|) == Upto(|s.items[i].results| - 1) + [event.index];
    HandGood(s, t, w, s.items[i], t.workers[w].phase.flight, [event]);
  }

  lemma SendDeleteGood(s: State, w: WorkerId, live: Row)
    requires Good(s) && Enabled(s, SendDelete(w, live))
    ensures Good(After(s, SendDelete(w, live)))
  {
    hide SameOrigins, Fits, ItemsGood, WorkersGood, StagesGood, Logged, Mutated, ObjectSent, FreshlyChecked, SeenGood, Aligned,
         Guard, Authorized, CleanupApproved, FindingAt,
         AfterPreview, AfterCleanup, AfterEnding, AfterRequest,
         PreviewEnabled, CleanupEnabled, EndingEnabled, RequestEnabled;
    StepFits(s, SendDelete(w, live));
    ItemInHand(s, w);
    var t, i := After(s, SendDelete(w, live)), FlightOf(s, w).item;
    var event := t.log[|s.log|];
    LogAppends(s.log, event, i);
    assert t.items == Keep(s, i, s.items[i]) && t.log == s.log + [event];
    HandGood(s, t, w, s.items[i], t.workers[w].phase.flight, [event]);
  }

  // ----- Steps elsewhere -----

  /** Items of one request change; workers of other requests still hold the same item. */
  lemma OthersHoldSame(s: State, items: Items, b: BatchId)
    requires Fits(s)
    requires forall i | i in s.items && s.items[i].batch != b :: i in items && items[i] == s.items[i]
    ensures forall v | v in s.workers && s.workers[v].batch != b :: SameInHand(s, s.(items := items), s.workers[v])
  {
    hide SameOrigins, ItemsFit, OriginsFit, StatusesFit, FlightFits, ChildFits, InLane, OnePerBatch;
    forall v | v in s.workers && s.workers[v].batch != b
      ensures SameInHand(s, s.(items := items), s.workers[v])
    {
      assert WorkerFits(s.workers[v], s.items, s.batches, s.recovering);
    }
  }

  /** Nothing recovered yet in a request that a worker attends. */
  lemma AttendedStage(s: State, w: WorkerId)
    requires Fits(s) && w in s.workers
    ensures StageOf(s.workers[w].batch, s.batches, s.recovering) == 0
    ensures forall v | v in s.workers && v != w :: s.workers[v].batch != s.workers[w].batch
  {
    hide SameOrigins, ItemsFit, OriginsFit, InHandFits, StatusesFit;
    assert WorkerFits(s.workers[w], s.items, s.batches, s.recovering);
  }

  lemma StatusesInBatch(s: State, w: WorkerId, i: ItemId)
    requires Fits(s) && w in s.workers && s.workers[w].phase.Looping? && i in s.workers[w].phase.statuses
    ensures i in s.items && s.items[i].batch == s.workers[w].batch
  {
    hide SameOrigins, ItemsFit, OriginsFit, InHandFits, InLane;
    assert WorkerFits(s.workers[w], s.items, s.batches, s.recovering);
  }

  lemma OldStages(s: State, i: ItemId)
    requires Good(s) && i in s.items
    ensures StageGood(s.items[i], StageOf(s.items[i].batch, s.batches, s.recovering))
  {
    hide SameOrigins, Fits, ItemsGood, WorkersGood, Logged, StageGood, StageOf;
  }

  lemma TakeGood(s: State, w: WorkerId, i: ItemId)
    requires Good(s) && Enabled(s, Take(w, i))
    ensures Good(After(s, Take(w, i)))
  {
    hide SameOrigins, Mutated, ObjectSent, FreshlyChecked, Fits, Good, StageOf, SameInHand, StageGood, ItemGood,
         AfterPreview, AfterCleanup, AfterEnding, AfterRequest,
         PreviewEnabled, CleanupEnabled, EndingEnabled, RequestEnabled;
    GoodFits(s);
    StepFits(s, Take(w, i));
    UntouchedVerified(s, i);
    var t := After(s, Take(w, i));
    QuietGood(t.items[i]);
    StatusesInBatch(s, w, i);
    AttendedStage(s, w);
    StageZero(t.items[i]);
    OthersHoldSame(s, t.items, s.workers[w].batch);
    forall j | j in t.items
      ensures StageGood(t.items[j], StageOf(t.items[j].batch, t.batches, t.recovering))
    {
      if j != i {
        OldStages(s, j);
      }
    }
    forall v | v in t.workers && v != w
      ensures SameInHand(s, t, s.workers[v])
    {
      HoldsSame(s, t, t.items, s.workers[v]);
    }
    AwayGood(s, t);
  }

  lemma GoodFits(s: State)
    requires Good(s)
    ensures Fits(s)
  {
    hide SameOrigins, Fits;
  }

  lemma HoldsSame(s: State, t: State, items: Items, worker: Worker)
    requires t.items == items && SameInHand(s, s.(items := items), worker)
    ensures SameInHand(s, t, worker)
  {
  }

  lemma UntouchedVerified(s: State, i: ItemId)
    requires Good(s) && i in s.items && s.items[i].status in {Verified, CleanupReview, CleanupRecheck, Pending, Delegated}
    ensures s.items[i].results == [] && Mutated(s.log, i) == [] && !ObjectSent(s.log, i)
  {
    hide SameOrigins, Fits, WorkersGood, StagesGood, Logged;
    assert ItemGood(s.items[i], Mutated(s.log, i), ObjectSent(s.log, i));
    UntouchedIsUnsent(s, i);
  }

  /** The items and the log stay; workers at most begin, pause or leave; nothing counts as recovered that was not. */
  lemma StillGood(s: State, t: State)
    requires Good(s) && Fits(t) && t.items == s.items && t.log == s.log && s.findings <= t.findings
    requires forall w | w in t.workers ::
               || (w in s.workers && t.workers[w] == s.workers[w])
               || t.workers[w].phase.Starting? || t.workers[w].phase.flight.Idle? || !t.workers[w].phase.execute
    requires forall i | i in s.items ::
               StageOf(s.items[i].batch, t.batches, t.recovering) <= StageOf(s.items[i].batch, s.batches, s.recovering)
    ensures Good(t)
  {
    hide SameOrigins, Fits, ItemGood, FlightGood, Mutated, ObjectSent, FreshlyChecked, StageOf, SeenGood;
    forall w | w in t.workers
      ensures WorkerGood(t.workers[w], t.items, t.log, t.findings)
    {
      if w in s.workers && t.workers[w] == s.workers[w] {
        FindingsGrow(s.workers[w], s.items, s.log, s.findings, t.findings);
      }
    }
  }

  lemma LeisureGood(s: State, step: Step)
    requires Good(s) && Enabled(s, step)
    requires step.Load? || step.BeginPreview? || step.Crash?
    ensures Good(After(s, step))
  {
    hide SameOrigins, Fits, ItemsGood, WorkersGood, StagesGood, Logged, StageOf;
    StepFits(s, step);
    StillGood(s, After(s, step));
  }

  lemma WorldGood(s: State, step: Step)
    requires Good(s) && Enabled(s, step)
    requires step.Review? || step.ChangeSettings? || step.ChangeAround? || step.Tick?
    ensures Good(After(s, step))
  {
    hide SameOrigins, Fits, ItemsGood, WorkersGood, StagesGood, Logged, StageOf,
         AfterPreview, AfterCleanup, AfterExecution, AfterEnding, AfterRequest,
         PreviewEnabled, CleanupEnabled, ExecutionEnabled, EndingEnabled, RequestEnabled;
    StepFits(s, step);
    StillGood(s, After(s, step));
  }

  lemma ClaimGood(s: State, b: BatchId, w: WorkerId)
    requires Good(s) && Enabled(s, Claim(b, w))
    ensures Good(After(s, Claim(b, w)))
  {
    hide SameOrigins, Fits, ItemsGood, WorkersGood, StagesGood, Logged;
    StepFits(s, Claim(b, w));
    StillGood(s, After(s, Claim(b, w)));
  }

  lemma FinishGood(s: State, w: WorkerId)
    requires Good(s) && Enabled(s, Finish(w))
    ensures Good(After(s, Finish(w)))
  {
    hide SameOrigins, Fits, ItemsGood, WorkersGood, StagesGood, Logged;
    StepFits(s, Finish(w));
    AttendedStage(s, w);
    StillGood(s, After(s, Finish(w)));
  }

  lemma ReconcileGood(s: State, b: BatchId)
    requires Good(s) && Enabled(s, Reconcile(b))
    ensures Good(After(s, Reconcile(b)))
  {
    hide SameOrigins, Fits, ItemsGood, WorkersGood, StagesGood, Logged;
    StepFits(s, Reconcile(b));
    StillGood(s, After(s, Reconcile(b)));
  }

  lemma StartRecoveryGood(s: State, b: BatchId)
    requires Good(s) && Enabled(s, StartRecovery(b))
    ensures Good(After(s, StartRecovery(b)))
  {
    hide SameOrigins, Fits, ItemsGood, WorkersGood, StagesGood, Logged, Attended;
    StepFits(s, StartRecovery(b));
    StillGood(s, After(s, StartRecovery(b)));
  }

  lemma AbandonRecoveryGood(s: State, b: BatchId)
    requires Good(s) && Enabled(s, AbandonRecovery(b))
    ensures Good(After(s, AbandonRecovery(b)))
  {
    hide SameOrigins, ItemsFit, WorkersFit, OriginsFit, ItemsGood, WorkersGood, StagesGood, Logged;
    StepFits(s, AbandonRecovery(b));
    StillGood(s, After(s, AbandonRecovery(b)));
  }

  lemma RecoverGood(s: State, b: BatchId)
    requires Good(s) && Enabled(s, Recover(b))
    ensures Good(After(s, Recover(b)))
  {
    hide SameOrigins, ItemsFit, OriginsFit, Mutated, ObjectSent, FreshlyChecked, ItemGood, StageGood, FlightGood, InLane,
         InHandFits, StatusesFit, ItemsGood, WorkersGood, StagesGood, Logged, RecoveredItem, StageOf;
    StepFits(s, Recover(b));
    var t, stage := After(s, Recover(b)), s.recovering[b];
    if stage >= 3 {
      assert forall c :: StageOf(c, t.batches, t.recovering) <= StageOf(c, s.batches, s.recovering) by {
        RecoveredStages(s, t, b);
      }
      StillGood(s, t);
    } else {
      forall i | i in s.items && s.items[i].batch == b
        ensures ItemGood(t.items[i], Mutated(s.log, i), ObjectSent(s.log, i))
      {
        ItemsAreGood(s, i);
        RecoveredIsGood(s.items[i], stage, Mutated(s.log, i), ObjectSent(s.log, i));
      }
      forall i | i in t.items
        ensures StageGood(t.items[i], StageOf(t.items[i].batch, t.batches, t.recovering))
      {
        OldStages(s, i);
        RecoveredStage(s, t, b, i);
      }
      forall w | w in t.workers
        ensures SameInHand(s, t, s.workers[w])
      {
        assert WorkerFits(s.workers[w], s.items, s.batches, s.recovering);
        OthersHoldSame(s, t.items, b);
        HoldsSame(s, t, t.items, s.workers[w]);
      }
      AwayGood(s, t);
    }
  }

  lemma ItemsAreGood(s: State, i: ItemId)
    requires Good(s) && i in s.items
    ensures ItemGood(s.items[i], Mutated(s.log, i), ObjectSent(s.log, i))
  {
    hide SameOrigins, Fits, WorkersGood, StagesGood, Logged, ItemGood;
  }

  lemma RecoveredIsGood(item: Item, stage: nat, mutated: seq<nat>, sent: bool)
    requires ItemGood(item, mutated, sent)
    ensures ItemGood(RecoveredItem(item, stage), mutated, sent)
  {
    hide SameOrigins, Recorded;
    assert RecoveredItem(item, stage).results == item.results;
    assert Recorded(RecoveredItem(item, stage), mutated) == Recorded(item, mutated) by {
      SameRecord(item, RecoveredItem(item, stage), mutated);
    }
  }

  lemma SameRecord(item: Item, other: Item, mutated: seq<nat>)
    requires item.results == other.results
    ensures Recorded(item, mutated) == Recorded(other, mutated)
  {
  }

  lemma RecoveredStages(s: State, t: State, b: BatchId)
    requires b in s.recovering && s.recovering[b] >= 3 && b in s.batches && t == RecoveryStep(s, b)
    ensures forall c :: StageOf(c, t.batches, t.recovering) <= StageOf(c, s.batches, s.recovering)
  {
  }

  lemma RecoveredStage(s: State, t: State, b: BatchId, i: ItemId)
    requires b in s.recovering && s.recovering[b] < 3 && b in s.batches && t == RecoveryStep(s, b) && i in s.items
    requires StageGood(s.items[i], StageOf(s.items[i].batch, s.batches, s.recovering))
    ensures StageGood(t.items[i], StageOf(t.items[i].batch, t.batches, t.recovering))
  {
  }

  /** Items of a request that is not being executed are rewritten, with nothing recorded or requested. */
  lemma QuietlyGood(s: State, t: State, b: BatchId)
    requires Good(s) && Fits(t) && t.log == s.log && t.findings == s.findings && t.items.Keys == s.items.Keys
    requires b in s.batches && !Executed(s.batches[b].status)
    requires forall i | i in s.items ::
               || t.items[i] == s.items[i]
               || (s.items[i].batch == b && t.items[i].batch == b && t.items[i].results == []
                   && StageGood(t.items[i], StageOf(b, t.batches, t.recovering)))
    requires forall c :: StageOf(c, t.batches, t.recovering) <= StageOf(c, s.batches, s.recovering)
    requires forall w | w in t.workers :: w in s.workers && (t.workers[w] == s.workers[w] || FlightOf(t, w).Idle?)
    ensures Good(t)
  {
    hide SameOrigins, Mutated, ObjectSent, FreshlyChecked, Fits, Good, StageOf, SameInHand, StageGood, ItemGood, Untouched,
         FlightGood;
    GoodFits(s);
    forall i | i in s.items && t.items[i] != s.items[i]
      ensures ItemGood(t.items[i], Mutated(s.log, i), ObjectSent(s.log, i))
    {
      QuietItem(s, i);
      UntouchedIsUnsent(s, i);
      QuietGood(t.items[i]);
    }
    forall i | i in t.items
      ensures StageGood(t.items[i], StageOf(t.items[i].batch, t.batches, t.recovering))
    {
      if t.items[i] == s.items[i] {
        OldStages(s, i);
        LowerStage(s.items[i], StageOf(s.items[i].batch, s.batches, s.recovering),
                   StageOf(s.items[i].batch, t.batches, t.recovering));
      }
    }
    OthersHoldSame(s, t.items, b);
    forall w | w in t.workers && t.workers[w] == s.workers[w]
      ensures SameInHand(s, t, s.workers[w])
    {
      if s.workers[w].batch == b {
        NotExecuting(s, w);
        IdleHolds(s, t, s.workers[w]);
      } else {
        HoldsSame(s, t, t.items, s.workers[w]);
      }
    }
    AwayGood(s, t);
  }

  lemma QuietItem(s: State, i: ItemId)
    requires Fits(s) && i in s.items && s.items[i].batch in s.batches && !Executed(s.batches[s.items[i].batch].status)
    ensures Untouched(s.items[i])
    ensures s.items[i].results == [] && s.items[i].status != Validating && !MayBeSent(s.items[i].status)
  {
    hide SameOrigins, WorkersFit, OriginsFit;
    assert ItemFits(s.items[i], s.batches);
  }

  lemma LowerStage(item: Item, before: nat, after: nat)
    requires StageGood(item, before) && after <= before
    ensures StageGood(item, after)
  {
  }

  lemma NotExecuting(s: State, w: WorkerId)
    requires Fits(s) && w in s.workers && s.workers[w].batch in s.batches && !Executed(s.batches[s.workers[w].batch].status)
    ensures s.workers[w].phase.Starting? || !s.workers[w].phase.execute
  {
    hide SameOrigins, ItemsFit, OriginsFit, InHandFits, StatusesFit;
    assert WorkerFits(s.workers[w], s.items, s.batches, s.recovering);
  }

  lemma IdleHolds(s: State, t: State, worker: Worker)
    requires worker.phase.Starting? || !worker.phase.execute
    ensures SameInHand(s, t, worker)
  {
  }

  lemma EndPreviewGood(s: State, w: WorkerId, preview: Preview)
    requires Good(s) && Enabled(s, EndPreview(w, preview))
    ensures Good(After(s, EndPreview(w, preview)))
  {
    hide Good, Fits, PreviewEnded, Guard, CleanupApproved, SamePlan, FindingAt, Rechecking;
    GoodFits(s);
    StepFits(s, EndPreview(w, preview));
    PreviewedGood(s, w, preview);
  }

  lemma PreviewedGood(s: State, w: WorkerId, preview: Preview)
    requires Good(s) && On(s, w, false) && FlightOf(s, w).Previewing? && Fits(PreviewEnded(s, w, preview))
    ensures Good(PreviewEnded(s, w, preview))
  {
    hide SameOrigins, Good, ItemsFit, OriginsFit, Rechecking, ChildFits, StatusesFit, Untouched;
    GoodFits(s);
    var t := PreviewEnded(s, w, preview);
    assert WorkerFits(s.workers[w], s.items, s.batches, s.recovering);
    QuietItem(s, FlightOf(s, w).item);
    AttendedStage(s, w);
    StageZero(t.items[FlightOf(s, w).item]);
    QuietlyGood(s, t, s.workers[w].batch);
  }

  /** A decision about a cleanup plan: one item of a request with a finished preview, and maybe the request. */
  lemma DecidedGood(s: State, t: State, i: ItemId)
    requires Good(s) && Fits(t) && i in s.items && s.items[i].batch in s.batches
    requires s.batches[s.items[i].batch].status == PreviewReady
    requires t.log == s.log && t.findings == s.findings && t.workers == s.workers && t.recovering == s.recovering
    requires i in t.items && t.items == s.items[i := t.items[i]]
    requires t.items[i].batch == s.items[i].batch && t.items[i].results == s.items[i].results
    requires t.batches.Keys == s.batches.Keys
    requires forall b | b in s.batches :: t.batches[b] == s.batches[b] || t.batches[b].status == PreviewQueued
    ensures Good(t)
  {
    hide Good, Fits;
    GoodFits(s);
    NobodyAttends(s, s.items[i].batch);
    QuietItem(s, i);
    StageZero(t.items[i]);
    QuietlyGood(s, t, s.items[i].batch);
  }

  lemma ApproveCleanupGood(s: State, i: ItemId, user: UserId)
    requires Good(s) && Enabled(s, ApproveCleanup(i, user))
    ensures Good(After(s, ApproveCleanup(i, user)))
  {
    hide SameOrigins, Good, Fits, Guard, CleanupSound, FindingAt, CleanupRequirement, Actors, DigestOf;
    GoodFits(s);
    StepFits(s, ApproveCleanup(i, user));
    DecidedGood(s, After(s, ApproveCleanup(i, user)), i);
  }

  lemma RejectCleanupGood(s: State, i: ItemId)
    requires Good(s) && Enabled(s, RejectCleanup(i))
    ensures Good(After(s, RejectCleanup(i)))
  {
    hide SameOrigins, Good, Fits;
    GoodFits(s);
    StepFits(s, RejectCleanup(i));
    DecidedGood(s, After(s, RejectCleanup(i)), i);
  }

  lemma RevalidateGood(s: State, i: ItemId, user: UserId)
    requires Good(s) && Enabled(s, Revalidate(i, user))
    ensures Good(After(s, Revalidate(i, user)))
  {
    hide SameOrigins, Good, Fits, Guard, CanExecute, CleanupApproved, FindingAt;
    GoodFits(s);
    StepFits(s, Revalidate(i, user));
    DecidedGood(s, After(s, Revalidate(i, user)), i);
  }

  lemma CancelCleanupGood(s: State, i: ItemId)
    requires Good(s) && Enabled(s, CancelCleanup(i))
    ensures Good(After(s, CancelCleanup(i)))
  {
    hide SameOrigins, Good, Fits;
    GoodFits(s);
    StepFits(s, CancelCleanup(i));
    OneCancelledGood(s, i);
  }

  lemma OneCancelledGood(s: State, i: ItemId)
    requires Good(s) && i in s.items && s.items[i].batch in s.batches && OpenBatch(s.batches[s.items[i].batch].status)
    requires var t := s.(items := Keep(s, i, s.items[i].(status := ItemCancelled))); Fits(t)
    ensures Good(s.(items := Keep(s, i, s.items[i].(status := ItemCancelled))))
  {
    hide Good, Fits;
    GoodFits(s);
    QuietItem(s, i);
    QuietlyGood(s, s.(items := Keep(s, i, s.items[i].(status := ItemCancelled))), s.items[i].batch);
  }

  lemma CancelBatchGood(s: State, b: BatchId)
    requires Good(s) && Enabled(s, CancelBatch(b))
    ensures Good(After(s, CancelBatch(b)))
  {
    hide SameOrigins, Good, Fits;
    GoodFits(s);
    StepFits(s, CancelBatch(b));
    AllCancelledGood(s, b);
  }

  lemma AllCancelledGood(s: State, b: BatchId)
    requires Good(s) && b in s.batches && OpenBatch(s.batches[b].status) && Fits(CancelledState(s, b))
    requires forall i | i in s.items && s.items[i].batch == b :: s.items[i].results == []
    ensures Good(CancelledState(s, b))
  {
    hide SameOrigins, Good, Fits;
    GoodFits(s);
    QuietlyGood(s, CancelledState(s, b), b);
  }

  lemma SelectGood(s: State, b: BatchId, requester: UserId, chosen: map<ItemId, Key>)
    requires Good(s) && Enabled(s, Select(b, requester, chosen))
    ensures Good(After(s, Select(b, requester, chosen)))
  {
    hide SameOrigins, Good, Fits, Selected, CanSelect;
    GoodFits(s);
    StepFits(s, Select(b, requester, chosen));
    SelectedGood(s, b, requester, chosen);
  }

  lemma SelectedGood(s: State, b: BatchId, requester: UserId, chosen: map<ItemId, Key>)
    requires Good(s) && CanSelect(s, b, chosen) && Fits(Selected(s, b, requester, chosen))
    ensures Good(Selected(s, b, requester, chosen))
  {
    hide SameOrigins, Good, Fits, ItemGood, Mutated, ObjectSent, FreshlyChecked, SameInHand, StageGood;
    GoodFits(s);
    var t := Selected(s, b, requester, chosen);
    NewBatchStages(s, t, b);
    forall i | i in t.items
      ensures StageGood(t.items[i], StageOf(t.items[i].batch, t.batches, t.recovering))
    {
      if i in s.items {
        OldStages(s, i);
        assert t.items[i] == s.items[i];
        LowerStage(s.items[i], StageOf(s.items[i].batch, s.batches, s.recovering),
                   StageOf(s.items[i].batch, t.batches, t.recovering));
      } else {
        StageZero(t.items[i]);
      }
    }
    HoldAll(s, t);
    AwayGood(s, t);
  }

  lemma NewBatchStages(s: State, t: State, b: BatchId)
    requires Fits(s) && b !in s.batches && b in t.batches
    requires t.batches == s.batches[b := t.batches[b]] && t.recovering == s.recovering
    requires t.batches[b].status != Interrupted
    ensures StageOf(b, t.batches, t.recovering) == 0
    ensures forall c :: StageOf(c, t.batches, t.recovering) <= StageOf(c, s.batches, s.recovering)
  {
    hide SameOrigins, ItemsFit, WorkersFit, OriginsFit;
  }

  lemma HoldAll(s: State, t: State)
    requires t.workers == s.workers && forall i | i in s.items :: i in t.items && t.items[i] == s.items[i]
    requires Fits(s)
    ensures forall w | w in t.workers :: SameInHand(s, t, s.workers[w])
  {
    hide SameOrigins, ItemsFit, OriginsFit, StatusesFit, FlightFits, ChildFits, InLane, OnePerBatch;
    forall w | w in t.workers
      ensures SameInHand(s, t, s.workers[w])
    {
      assert WorkerFits(s.workers[w], s.items, s.batches, s.recovering);
    }
  }

  lemma ConfirmGood(s: State, b: BatchId, user: UserId, ticket: string, selected: set<ItemId>, target: BatchId,
                    copies: map<ItemId, ItemId>)
    requires Good(s) && Enabled(s, Confirm(b, user, ticket, selected, target, copies))
    ensures Good(After(s, Confirm(b, user, ticket, selected, target, copies)))
  {
    hide SameOrigins, Good, Fits, CanExecute, FindingAt, Blank, TakesAll, FreshCopies, StageOf;
    GoodFits(s);
    StepFits(s, Confirm(b, user, ticket, selected, target, copies));
    var t := After(s, Confirm(b, user, ticket, selected, target, copies));
    if TakesAll(s, b, selected) {
      assert forall c :: StageOf(c, t.batches, t.recovering) <= StageOf(c, s.batches, s.recovering) by {
        QueuedStages(s, t, b);
      }
      StillGood(s, t);
    } else {
      ConfirmDivides(s, b, user, ticket, selected, target, copies);
      NewTarget(s, selected, target, copies);
      NewBatchStages(s, t, target);
      NobodyAttends(s, b);
      DividedGood(s, t, b, selected, target, copies);
    }
  }

  lemma QueuedStages(s: State, t: State, b: BatchId)
    requires b in s.batches && b in t.batches && t.batches == s.batches[b := t.batches[b]] && t.batches[b].status == Queued
    requires t.recovering == s.recovering
    ensures forall c :: StageOf(c, t.batches, t.recovering) <= StageOf(c, s.batches, s.recovering)
  {
  }

  lemma NewTarget(s: State, selected: set<ItemId>, target: BatchId, copies: map<ItemId, ItemId>)
    requires FreshCopies(s, selected, target, copies)
    ensures target !in s.batches
  {
  }

  lemma DividedGood(s: State, t: State, b: BatchId, selected: set<ItemId>, target: BatchId, copies: map<ItemId, ItemId>)
    requires Good(s) && Fits(t) && Divided(s.items, t.items, selected, target, copies)
    requires t.log == s.log && t.findings == s.findings && t.workers == s.workers
    requires forall i | i in selected :: i in s.items && s.items[i].batch == b && s.items[i].status == Verified
    requires forall w | w in s.workers :: s.workers[w].batch != b
    requires StageOf(target, t.batches, t.recovering) == 0
    requires forall c :: StageOf(c, t.batches, t.recovering) <= StageOf(c, s.batches, s.recovering)
    ensures Good(t)
  {
    hide SameOrigins, Mutated, ObjectSent, FreshlyChecked, Fits, Good, StageOf, SameInHand, ItemGood, FlightGood;
    GoodFits(s);
    forall i | i in s.items && t.items[i] != s.items[i]
      ensures ItemGood(t.items[i], Mutated(s.log, i), ObjectSent(s.log, i))
    {
      UntouchedVerified(s, i);
      QuietGood(t.items[i]);
    }
    forall c | c in t.items && c !in s.items
      ensures t.items[c].results == [] && t.items[c].status == Verified && t.items[c].batch == target
    {
      assert copies[c] in copies.Values;
    }
    forall i | i in t.items
      ensures StageGood(t.items[i], StageOf(t.items[i].batch, t.batches, t.recovering))
    {
      if i in s.items {
        OldStages(s, i);
        LowerStage(s.items[i], StageOf(s.items[i].batch, s.batches, s.recovering),
                   StageOf(s.items[i].batch, t.batches, t.recovering));
        if i in selected {
          UntouchedVerified(s, i);
        }
      }
    }
    OthersHoldSame(s, t.items, b);
    forall w | w in t.workers
      ensures SameInHand(s, t, s.workers[w])
    {
      HoldsSame(s, t, t.items, s.workers[w]);
    }
    AwayGood(s, t);
  }

  function Noted(item: Item): Item
    requires |item.results| < |item.plan|
  {
    var change := item.plan[|item.results|];
    item.(results := item.results + [Outcome(change.path, change.after == None, RuleSending)])
  }

  /** What holds when a change of a rule is about to be recorded. */
  lemma IntentAllowed(s: State, w: WorkerId, child: ItemId, live: Row, reading: RuleReading)
    requires Good(s) && Enabled(s, IntendChange(w, child, live, reading))
    ensures On(s, w, true) && FlightOf(s, w).Cleaning? && s.findings != [] && child !in s.items
    ensures var i := FlightOf(s, w).item;
            var item := s.items[i];
            && |item.results| < |item.plan| && item.status == Validating && item.batch == s.workers[w].batch
            && SeenGood(item, |s.findings| - 1, s.findings) && AllDone(item.results)
            && Mutated(s.log, i) == Upto(|item.results|)
            && ItemGood(Noted(item), Mutated(s.log, i), ObjectSent(s.log, i)) && LastIsPending(Noted(item))
    ensures var t := After(s, IntendChange(w, child, live, reading));
            t == ChangeIntended(s, w, child, live, reading) && Fits(t)
  {
    hide SameOrigins, Good, Fits, Authorized, CleanupApproved, ApprovalsValid, Mutated, ObjectSent, FreshlyChecked,
         ChangeIntended;
    GoodFits(s);
    StepFits(s, IntendChange(w, child, live, reading));
    ItemInHand(s, w);
    var i := FlightOf(s, w).item;
    IntentIsGood(s.items[i], Mutated(s.log, i), ObjectSent(s.log, i));
  }

  /** Recording the intent to change a rule; deleting one adds a row for it. */
  lemma IntendChangeGood(s: State, w: WorkerId, child: ItemId, live: Row, reading: RuleReading)
    requires Good(s) && Enabled(s, IntendChange(w, child, live, reading))
    ensures Good(After(s, IntendChange(w, child, live, reading)))
  {
    hide SameOrigins, Good, Fits, Mutated, ObjectSent, FreshlyChecked, After, Enabled, Noted, ItemGood, SeenGood, LastIsPending,
         IntendedFor, AllDone;
    IntentAllowed(s, w, child, live, reading);
    GoodFits(s);
    var t, i := ChangeIntended(s, w, child, live, reading), FlightOf(s, w).item;
    var item, noted := s.items[i], Noted(s.items[i]);
    NotedKeeps(item);
    if item.plan[|item.results|].after == None {
      var s1 := s.(items := Keep(s, i, noted), workers := Fly(s, w, Idle));
      HandFits(s, w, noted);
      RowsThenFits(s1);
      ChangingIsGood(t.workers[w], t.items, i, s.log, s.findings, noted);
      StoredGood(s, s1, w, noted);
      ChildGood(s1, t, w, child);
    } else {
      ChangingIsGood(t.workers[w], t.items, i, s.log, s.findings, noted);
      assert t.log == s.log + [];
      HandGood(s, t, w, noted, t.workers[w].phase.flight, []);
    }
  }

  lemma NotedKeeps(item: Item)
    requires |item.results| < |item.plan| && AllDone(item.results)
    ensures Noted(item) == item.(results := Noted(item).results) && |Noted(item).results| == |item.results| + 1
    ensures IntendedFor(item, Noted(item))
    ensures var change := item.plan[|item.results|];
            Noted(item) == item.(results := item.results + [Outcome(change.path, change.after == None, RuleSending)])
    ensures forall seen, findings :: SeenGood(Noted(item), seen, findings) == SeenGood(item, seen, findings)
  {
  }

  lemma ChangingIsGood(worker: Worker, items: Items, i: ItemId, log: seq<Event>, findings: seq<Reviews.Database>, noted: Item)
    requires worker.phase.Looping? && i in items && items[i] == noted && noted.results != []
    requires worker.phase.flight.Changing? && worker.phase.flight.item == i && !worker.phase.flight.requested
    requires LastIsPending(noted) && SeenGood(noted, worker.phase.flight.seen, findings)
    requires IntendedFor(worker.phase.flight.authority.item, noted)
    requires Mutated(log, i) == Upto(|noted.results| - 1)
    ensures WorkerGood(worker, items, log, findings)
  {
    hide SameOrigins, Mutated, ObjectSent, FreshlyChecked, SeenGood;
  }

  /** The intent is stored; the worker's position follows with the new row. */
  lemma StoredGood(s: State, t: State, w: WorkerId, noted: Item)
    requires Good(s) && Fits(t) && On(s, w, true) && FlightOf(s, w).Cleaning?
    requires var i := FlightOf(s, w).item;
             && noted == s.items[i].(results := noted.results) && ItemGood(noted, Mutated(s.log, i), ObjectSent(s.log, i))
             && t == s.(items := Keep(s, i, noted), workers := Fly(s, w, Idle))
    ensures Good(t)
  {
    hide SameOrigins, Good, Fits, Mutated, ObjectSent, FreshlyChecked, ItemGood;
    assert t.log == s.log + [];
    HandGood(s, t, w, noted, Idle, []);
  }

  lemma RowsThenFits(s: State)
    requires RowsFit(s.items, s.batches, s.workers, s.recovering)
    ensures Fits(s)
  {
  }

  lemma HandFits(s: State, w: WorkerId, item: Item)
    requires Fits(s) && On(s, w, true)
    requires item == s.items[FlightOf(s, w).item].(results := item.results) && item.status == Validating
    ensures RowsFit(Keep(s, FlightOf(s, w).item, item), s.batches, Fly(s, w, Idle), s.recovering)
  {
    hide SameOrigins, Fits;
    HandleFits(s, w, item, Idle);
  }

  lemma IntentIsGood(item: Item, mutated: seq<nat>, sent: bool)
    requires ItemGood(item, mutated, sent) && mutated == Upto(|item.results|) && AllDone(item.results)
    requires |item.results| < |item.plan| && item.status == Validating
    ensures ItemGood(Noted(item), mutated, sent) && LastIsPending(Noted(item))
  {
  }

  /** The row for a rule to be deleted appears, and the worker takes note of it. */
  lemma ChildGood(s: State, t: State, w: WorkerId, child: ItemId)
    requires Good(s) && Fits(t) && child !in s.items && child in t.items && t.items == s.items[child := t.items[child]]
    requires t.items[child].results == [] && t.items[child].status == Sending
    requires w in s.workers && s.workers[w].phase.Looping? && s.workers[w].batch == t.items[child].batch
    requires t.log == s.log && t.findings == s.findings && t.batches == s.batches && t.recovering == s.recovering
    requires w in t.workers && t.workers == s.workers[w := t.workers[w]]
    requires WorkerGood(t.workers[w], t.items, t.log, t.findings)
    ensures Good(t)
  {
    hide SameOrigins, Mutated, ObjectSent, FreshlyChecked, Fits, SameInHand, ItemGood, FlightGood, StageGood, StageOf;
    GoodFits(s);
    NothingLogged(s.log, child);
    FreshGood(t.items[child]);
    AttendedStage(s, w);
    StageZero(t.items[child]);
    forall v | v in s.workers && v != w
      ensures WorkerGood(t.workers[v], t.items, t.log, t.findings)
    {
      if s.workers[v].phase.Looping? && !s.workers[v].phase.flight.Idle? {
        OldFlight(s, v);
      }
    }
  }

  lemma OldFlight(s: State, w: WorkerId)
    requires Fits(s) && w in s.workers && s.workers[w].phase.Looping? && !s.workers[w].phase.flight.Idle?
    ensures s.workers[w].phase.flight.item in s.items
  {
    hide SameOrigins, ItemsFit, OriginsFit, StatusesFit, FlightFits, ChildFits, InLane, OnePerBatch;
    assert WorkerFits(s.workers[w], s.items, s.batches, s.recovering);
  }

  lemma ChildInHand(s: State, w: WorkerId)
    requires Fits(s) && On(s, w, true) && FlightOf(s, w).Changing?
    ensures ChildFits(FlightOf(s, w), s.workers[w].batch, s.items)
  {
    hide SameOrigins, ItemsFit, OriginsFit, StatusesFit, FlightFits, ChildFits, InLane, OnePerBatch;
    assert WorkerFits(s.workers[w], s.items, s.batches, s.recovering);
  }

  /** What is written when the outcome of a requested change is known. */
  lemma ConclusionWrites(s: State, w: WorkerId, status: RuleStatus)
    requires Fits(s) && InChange(s, w, true) && status != RuleSending
    ensures var t, i, child := ChangeConcluded(s, w, status), FlightOf(s, w).item, FlightOf(s, w).child;
            && t.items.Keys == s.items.Keys && t.items[i] == Concluded(s.items[i], status)
            && (forall j | j in s.items && j != i ::
                  || t.items[j] == s.items[j]
                  || (child == Some(j) && s.items[j].batch == s.workers[w].batch && s.items[j].status == Sending
                      && t.items[j] == s.items[j].(status := t.items[j].status)
                      && t.items[j].status in {Deleted, Failed, Uncertain}))
            && t.log == s.log && t.findings == s.findings && t.batches == s.batches && t.recovering == s.recovering
            && t.workers == Fly(s, w, if status in {RuleUpdated, RuleDeleted} then Cleaning(i, FlightOf(s, w).seen)
                                      else Broken(i))
  {
    hide SameOrigins, Fits;
    ChildInHand(s, w);
  }

  /** The outcome of a requested change is stored, with that of the row for a deleted rule. */
  lemma ConcludeChangeGood(s: State, w: WorkerId, status: RuleStatus)
    requires Good(s) && Enabled(s, ConcludeChange(w, status))
    ensures Good(After(s, ConcludeChange(w, status)))
  {
    hide SameOrigins, Good, Fits, ChangeConcluded;
    GoodFits(s);
    StepFits(s, ConcludeChange(w, status));
    ConcludedGood(s, w, status);
  }

  lemma ConcludedGood(s: State, w: WorkerId, status: RuleStatus)
    requires Good(s) && InChange(s, w, true) && status != RuleSending && Fits(ChangeConcluded(s, w, status))
    ensures Good(ChangeConcluded(s, w, status))
  {
    hide SameOrigins, Good, Fits, Mutated, ObjectSent, FreshlyChecked, ItemGood, SeenGood, Concluded, ChangeConcluded,
         LastIsPending;
    GoodFits(s);
    ItemInHand(s, w);
    ConclusionWrites(s, w, status);
    var t, flight := ChangeConcluded(s, w, status), FlightOf(s, w);
    var i := flight.item;
    var item, noted := s.items[i], Concluded(s.items[i], status);
    ConclusionIsGood(item, status, Mutated(s.log, i), ObjectSent(s.log, i));
    ConcludedKeeps(item, status);
    ConcludedFlight(t.workers[w], t.items, i, s.log, s.findings, noted, status);
    StoredOutcomeGood(s, w, noted);
    ChildStaysGood(s.(items := Keep(s, i, noted), workers := Fly(s, w, Idle)), t, w, flight.child);
  }

  lemma StoredOutcomeGood(s: State, w: WorkerId, noted: Item)
    requires Good(s) && On(s, w, true) && noted.status == Validating
    requires var i := FlightOf(s, w).item;
             noted == s.items[i].(results := noted.results) && ItemGood(noted, Mutated(s.log, i), ObjectSent(s.log, i))
    ensures Good(s.(items := Keep(s, FlightOf(s, w).item, noted), workers := Fly(s, w, Idle)))
  {
    hide Good, Fits, Mutated, ObjectSent, FreshlyChecked, ItemGood;
    GoodFits(s);
    var s1 := s.(items := Keep(s, FlightOf(s, w).item, noted), workers := Fly(s, w, Idle));
    HandFits(s, w, noted);
    RowsThenFits(s1);
    assert s1.log == s.log + [];
    HandGood(s, s1, w, noted, Idle, []);
  }

  function Concluded(item: Item, status: RuleStatus): Item
    requires item.results != []
  {
    var n := |item.results| - 1;
    item.(results := item.results[n := item.results[n].(status := status)])
  }

  lemma ConclusionIsGood(item: Item, status: RuleStatus, mutated: seq<nat>, sent: bool)
    requires ItemGood(item, mutated, sent) && LastIsPending(item) && mutated == Upto(|item.results|)
    requires item.status == Validating
    ensures ItemGood(Concluded(item, status), mutated, sent)
    ensures status in {RuleUpdated, RuleDeleted} ==> AllDone(Concluded(item, status).results)
  {
  }

  lemma ConcludedKeeps(item: Item, status: RuleStatus)
    requires item.results != []
    ensures Concluded(item, status) == item.(results := Concluded(item, status).results)
    ensures |Concluded(item, status).results| == |item.results|
    ensures var n := |item.results| - 1;
            Concluded(item, status) == item.(results := item.results[n := item.results[n].(status := status)])
    ensures forall seen, findings :: SeenGood(Concluded(item, status), seen, findings) == SeenGood(item, seen, findings)
  {
  }

  lemma ConcludedFlight(worker: Worker, items: Items, i: ItemId, log: seq<Event>, findings: seq<Reviews.Database>, noted: Item,
                        status: RuleStatus)
    requires worker.phase.Looping? && i in items && items[i] == noted
    requires worker.phase.flight.Broken? || (worker.phase.flight.Cleaning? && AllDone(noted.results)
                                             && SeenGood(noted, worker.phase.flight.seen, findings))
    requires worker.phase.flight.item == i && Mutated(log, i) == Upto(|noted.results|)
    ensures WorkerGood(worker, items, log, findings)
  {
    hide SameOrigins, Mutated, ObjectSent, FreshlyChecked, SeenGood;
  }

  lemma ChildStaysGood(s: State, t: State, w: WorkerId, child: Option<ItemId>)
    requires Good(s) && Fits(t) && t.items.Keys == s.items.Keys && w in s.workers
    requires forall i | i in s.items ::
               t.items[i] == s.items[i]
               || (child == Some(i) && s.items[i].batch == s.workers[w].batch && s.items[i].status == Sending
                   && t.items[i] == s.items[i].(status := t.items[i].status)
                   && t.items[i].status in {Deleted, Failed, Uncertain})
    requires t.log == s.log && t.findings == s.findings && t.batches == s.batches && t.recovering == s.recovering
    requires w in t.workers && t.workers == s.workers[w := t.workers[w]]
    requires WorkerGood(t.workers[w], t.items, t.log, t.findings)
    ensures Good(t)
  {
    hide SameOrigins, Mutated, ObjectSent, FreshlyChecked, Fits, Good, SameInHand, ItemGood, FlightGood, StageGood, StageOf;
    GoodFits(s);
    AttendedStage(s, w);
    forall i | i in s.items && t.items[i] != s.items[i]
      ensures ItemGood(t.items[i], Mutated(s.log, i), ObjectSent(s.log, i))
      ensures StageGood(t.items[i], StageOf(t.items[i].batch, t.batches, t.recovering))
    {
      ItemsAreGood(s, i);
      ClosedRowGood(s.items[i], t.items[i].status, Mutated(s.log, i), ObjectSent(s.log, i));
      StageZero(t.items[i]);
    }
    forall i | i in t.items
      ensures StageGood(t.items[i], StageOf(t.items[i].batch, t.batches, t.recovering))
    {
      OldStages(s, i);
    }
    OthersHoldSame(s, t.items, s.workers[w].batch);
    forall v | v in t.workers && v != w
      ensures SameInHand(s, t, s.workers[v])
    {
      HoldsSame(s, t, t.items, s.workers[v]);
    }
    AwayGood(s, t);
  }

  lemma ClosedRowGood(item: Item, status: ItemStatus, mutated: seq<nat>, sent: bool)
    requires ItemGood(item, mutated, sent) && item.status == Sending && status in {Deleted, Failed, Uncertain}
    ensures ItemGood(item.(status := status), mutated, sent)
  {
  }

  // ----- Every step, every run -----

  lemma StepGood(s: State, step: Step)
    requires Good(s) && Enabled(s, step)
    ensures Good(After(s, step))
  {
    hide *;
    match step
    case Select(b, requester, chosen) => SelectGood(s, b, requester, chosen);
    case Claim(b, w) => ClaimGood(s, b, w);
    case Load(w) => LeisureGood(s, step);
    case BeginPreview(w, i) => LeisureGood(s, step);
    case EndPreview(w, preview) => EndPreviewGood(s, w, preview);
    case Take(w, i) => TakeGood(s, w, i);
    case FindAbsent(w) => FindAbsentGood(s, w);
    case Inspect(w, found) => InspectGood(s, w, found);
    case IntendChange(w, child, live, reading) => IntendChangeGood(s, w, child, live, reading);
    case RequestChange(w) => RequestChangeGood(s, w);
    case ConcludeChange(w, status) => ConcludeChangeGood(s, w, status);
    case FinishCleanup(w, live, references) => FinishCleanupGood(s, w, live, references);
    case Intend(w) => IntendGood(s, w);
    case SendDelete(w, live) => SendDeleteGood(s, w, live);
    case Answer(w, outcome, closed, related) => AnswerGood(s, w, outcome, closed, related);
    case GiveUp(w) => GiveUpGood(s, w);
    case Finish(w) => FinishGood(s, w);
    case Crash(w) => LeisureGood(s, step);
    case StartRecovery(b) => StartRecoveryGood(s, b);
    case Recover(b) => RecoverGood(s, b);
    case AbandonRecovery(b) => AbandonRecoveryGood(s, b);
    case Confirm(b, user, ticket, selected, target, copies) =>
      ConfirmGood(s, b, user, ticket, selected, target, copies);
    case ApproveCleanup(i, user) => ApproveCleanupGood(s, i, user);
    case RejectCleanup(i) => RejectCleanupGood(s, i);
    case Revalidate(i, user) => RevalidateGood(s, i, user);
    case CancelBatch(b) => CancelBatchGood(s, b);
    case CancelCleanup(i) => CancelCleanupGood(s, i);
    case Reconcile(b) => ReconcileGood(s, b);
    case _ => WorldGood(s, step);
  }
}
