/** How requests, items, workers and copies fit together, whatever steps interleave. */
module DeletionRows {
  import opened Common
  import opened FindingModel
  import opened FindingWorkflow
  import opened DeletionGuards
  import opened DeletionProtocol
  import Reviews = ApprovalSafety

  // ----- Workers and requests -----

  predicate Executed(status: BatchStatus) {
    status in {Running, Completed, Interrupted}
  }

  /** The statuses of items whose DELETE may have left. */
  predicate MayBeSent(status: ItemStatus) {
    status in {Sending, Deleted, Failed, Uncertain}
  }

  predicate Untouched(item: Item) {
    item.status != Validating && !MayBeSent(item.status) && item.results == []
  }

  type Items = map<ItemId, Item>
  type Batches = map<BatchId, Batch>
  type Workers = map<WorkerId, Worker>

  predicate ItemFits(item: Item, batches: Batches) {
    item.batch in batches && (!Executed(batches[item.batch].status) ==> Untouched(item))
  }

  predicate ItemsFit(items: Items, batches: Batches) {
    forall i | i in items :: ItemFits(items[i], batches)
  }

  predicate InLane(phase: Phase, status: BatchStatus) {
    match phase
    case Starting => status in {Checking, Running, Cancelling, Cancelled}
    case Looping(execute, _, _, _) => if execute then status == Running else status in {Checking, Cancelling, Cancelled}
  }

  /** The status an item has while a worker is at this point with it. */
  predicate FlightFits(flight: Flight, execute: bool, item: Item) {
    match flight
    case Idle => true
    case Previewing(_) => !execute && item.status != Delegated
    case Intended(_, _) | Requested(_) => execute && item.status == Sending
    case _ => execute && item.status == Validating
  }

  /** The row recording the deletion of a rule belongs to the same request and is still open. */
  predicate ChildFits(flight: Flight, batch: BatchId, items: Items) {
    flight.Changing? && flight.child.Some? ==>
      && flight.child.value in items && flight.child.value != flight.item
      && items[flight.child.value].batch == batch && items[flight.child.value].status == Sending
  }

  predicate InHandFits(worker: Worker, items: Items)
    requires worker.phase.Looping?
  {
    var flight := worker.phase.flight;
    flight.Idle? ||
      (&& flight.item in items && items[flight.item].batch == worker.batch
       && FlightFits(flight, worker.phase.execute, items[flight.item]) && ChildFits(flight, worker.batch, items))
  }

  /** A preview run has seen which items were moved to another request. */
  predicate StatusesFit(worker: Worker, items: Items)
    requires worker.phase.Looping?
  {
    forall i | i in worker.phase.statuses ::
      && i in items && items[i].batch == worker.batch
      && (!worker.phase.execute && items[i].status == Delegated ==> worker.phase.statuses[i] == Delegated)
  }

  predicate WorkerFits(worker: Worker, items: Items, batches: Batches, recovering: map<BatchId, nat>) {
    && worker.batch in batches && worker.batch !in recovering
    && InLane(worker.phase, batches[worker.batch].status)
    && (worker.phase.Looping? ==> InHandFits(worker, items) && StatusesFit(worker, items))
  }

  predicate OnePerBatch(workers: Workers) {
    forall v, w | v in workers && w in workers :: workers[v].batch == workers[w].batch ==> v == w
  }

  predicate WorkersFit(workers: Workers, items: Items, batches: Batches, recovering: map<BatchId, nat>) {
    && (forall w | w in workers :: WorkerFits(workers[w], items, batches, recovering))
    && OnePerBatch(workers)
  }

  predicate RecoveringFits(recovering: map<BatchId, nat>, batches: Batches) {
    forall b | b in recovering :: b in batches && batches[b].status in {Checking, Running, Cancelling, Cancelled}
  }

  predicate OriginFits(item: Item, items: Items, batches: Batches) {
    item.origin.Some? ==>
      var origin := item.origin.value;
      && origin in items && items[origin].status == Delegated && items[origin].origin == None
      && item.batch in batches && batches[item.batch].status in {Queued, Running, Completed, Interrupted, Cancelled}
  }

  /** Partial confirmation copies an item at most once, and the original is out of play from then on. */
  predicate OriginsFit(items: Items, batches: Batches) {
    && (forall i | i in items :: OriginFits(items[i], items, batches))
    && (forall i, j | i in items && j in items && items[i].origin.Some? :: items[i].origin == items[j].origin ==> i == j)
    && (forall i | i in items && items[i].status == Delegated :: items[i].results == [])
  }

  predicate RowsFit(items: Items, batches: Batches, workers: Workers, recovering: map<BatchId, nat>) {
    && ItemsFit(items, batches) && WorkersFit(workers, items, batches, recovering)
    && RecoveringFits(recovering, batches) && OriginsFit(items, batches)
  }

  predicate Fits(s: State) {
    RowsFit(s.items, s.batches, s.workers, s.recovering)
  }

  // ----- Changing one row -----

  /** An item may be written over, in a request the given workers alone attend. */
  lemma WriteItem(s: State, i: ItemId, item: Item, workers: Workers)
    requires Fits(s) && i in s.items && item.batch == s.items[i].batch && item.origin == s.items[i].origin
    requires ItemFits(item, s.batches)
    requires item.status == Delegated ==> s.items[i].status == Delegated && item.results == []
    requires s.items[i].status == Delegated ==> item.status == Delegated
    requires workers.Keys == s.workers.Keys
    requires forall w | w in workers ::
               workers[w] == s.workers[w]
               || (&& workers[w].batch == s.workers[w].batch == item.batch
                   && WorkerFits(workers[w], s.items[i := item], s.batches, s.recovering))
    requires forall w | w in workers && workers[w].batch == item.batch ::
               WorkerFits(workers[w], s.items[i := item], s.batches, s.recovering)
    ensures RowsFit(s.items[i := item], s.batches, workers, s.recovering)
  {
    hide SameOrigins, ItemFits, InLane, FlightFits, OriginsFit, StatusesFit, ChildFits;
    var items := s.items[i := item];
    WrittenOrigins(s.items, i, item, s.batches);
    forall w | w in workers && workers[w].batch != item.batch
      ensures WorkerFits(workers[w], items, s.batches, s.recovering)
    {
      OtherWorkerFits(s.workers[w], s.items, i, item, s.batches, s.recovering);
    }
  }

  lemma WrittenOrigins(items: Items, i: ItemId, item: Item, batches: Batches)
    requires OriginsFit(items, batches) && i in items
    requires item.batch == items[i].batch && item.origin == items[i].origin
    requires item.status == Delegated ==> items[i].status == Delegated && item.results == []
    requires items[i].status == Delegated ==> item.status == Delegated
    ensures OriginsFit(items[i := item], batches)
  {
  }

  lemma OtherWorkerFits(worker: Worker, items: Items, i: ItemId, item: Item, batches: Batches, recovering: map<BatchId, nat>)
    requires WorkerFits(worker, items, batches, recovering) && i in items
    requires item.batch == items[i].batch && item.batch != worker.batch
    ensures WorkerFits(worker, items[i := item], batches, recovering)
  {
  }

  /** A request may change its status, if its workers and copies may go on with the new one. */
  lemma WriteBatch(s: State, b: BatchId, batch: Batch)
    requires Fits(s) && b in s.batches
    requires Executed(s.batches[b].status) ==> Executed(batch.status)
    requires forall w | w in s.workers && s.workers[w].batch == b :: InLane(s.workers[w].phase, batch.status)
    requires b in s.recovering ==> batch.status in {Checking, Running, Cancelling, Cancelled}
    requires s.batches[b].status in {Queued, Running, Completed, Interrupted, Cancelled} ==>
               batch.status in {Queued, Running, Completed, Interrupted, Cancelled}
    ensures RowsFit(s.items, s.batches[b := batch], s.workers, s.recovering)
  {
    hide SameOrigins, Untouched, InHandFits, StatusesFit, InLane;
  }

  lemma WriteWorker(s: State, w: WorkerId, worker: Worker)
    requires Fits(s) && w in s.workers && worker.batch == s.workers[w].batch
    requires WorkerFits(worker, s.items, s.batches, s.recovering)
    ensures RowsFit(s.items, s.batches, s.workers[w := worker], s.recovering)
  {
    hide SameOrigins, ItemsFit, OriginsFit, WorkerFits;
  }

  lemma RemoveWorker(s: State, w: WorkerId)
    requires Fits(s)
    ensures RowsFit(s.items, s.batches, s.workers - {w}, s.recovering)
  {
    hide SameOrigins, ItemsFit, OriginsFit, WorkerFits;
  }

  /** New items that are no copies. */
  lemma AddItems(s: State, more: Items)
    requires Fits(s) && more.Keys !! s.items.Keys
    requires forall i | i in more :: ItemFits(more[i], s.batches) && more[i].origin == None && more[i].status != Delegated
    ensures RowsFit(s.items + more, s.batches, s.workers, s.recovering)
  {
    hide SameOrigins, ItemFits, InLane;
    var items := s.items + more;
    forall w | w in s.workers
      ensures WorkerFits(s.workers[w], items, s.batches, s.recovering)
    {
      OldRowsStay(s.workers[w], s.items, more, s.batches, s.recovering);
    }
    assert OriginsFit(items, s.batches) by {
      hide WorkersFit, WorkerFits;
    }
  }

  lemma OldRowsStay(worker: Worker, items: Items, more: Items, batches: Batches, recovering: map<BatchId, nat>)
    requires WorkerFits(worker, items, batches, recovering) && more.Keys !! items.Keys
    ensures WorkerFits(worker, items + more, batches, recovering)
  {
  }

  lemma AddBatch(s: State, b: BatchId, batch: Batch)
    requires Fits(s) && b !in s.batches
    ensures RowsFit(s.items, s.batches[b := batch], s.workers, s.recovering)
  {
    hide SameOrigins, Untouched, InHandFits, StatusesFit, InLane;
  }

  /** Many items of one request may be written over. */
  lemma RewriteItems(s: State, b: BatchId, items: Items)
    requires Fits(s) && items.Keys == s.items.Keys
    requires forall i | i in items ::
               || items[i] == s.items[i]
               || (&& s.items[i].batch == b
                   && items[i] == s.items[i].(status := items[i].status)
                   && items[i].status != Delegated && s.items[i].status != Delegated && ItemFits(items[i], s.batches))
    requires forall w | w in s.workers && s.workers[w].batch == b :: WorkerFits(s.workers[w], items, s.batches, s.recovering)
    ensures RowsFit(items, s.batches, s.workers, s.recovering)
  {
    hide SameOrigins, InLane, FlightFits;
    forall w | w in s.workers && s.workers[w].batch != b
      ensures WorkerFits(s.workers[w], items, s.batches, s.recovering)
    {
      RewritingSparesOthers(s.workers[w], s.items, items, b, s.batches, s.recovering);
    }
    assert ItemsFit(items, s.batches) && OriginsFit(items, s.batches) by {
      hide WorkersFit, WorkerFits, Untouched;
    }
  }

  lemma RewritingSparesOthers(worker: Worker, before: Items, after: Items, b: BatchId, batches: Batches,
                              recovering: map<BatchId, nat>)
    requires WorkerFits(worker, before, batches, recovering) && worker.batch != b && after.Keys == before.Keys
    requires forall i | i in after :: after[i] == before[i] || (before[i].batch == b && after[i].batch == b)
    ensures WorkerFits(worker, after, batches, recovering)
  {
  }

  // ----- Every step -----

  lemma SelectFits(s: State, b: BatchId, requester: UserId, chosen: map<ItemId, Key>)
    requires Fits(s) && Enabled(s, Select(b, requester, chosen))
    ensures Fits(After(s, Select(b, requester, chosen)))
  {
    hide SameOrigins, Fits, Selected, CanSelect;
    SelectedFits(s, b, requester, chosen);
  }

  lemma SelectedFits(s: State, b: BatchId, requester: UserId, chosen: map<ItemId, Key>)
    requires Fits(s) && CanSelect(s, b, chosen)
    ensures Fits(Selected(s, b, requester, chosen))
  {
    hide SameOrigins, Fits;
    var t := Selected(s, b, requester, chosen);
    assert RowsFit(s.items, t.batches, s.workers, s.recovering) by {
      AddBatch(s, b, t.batches[b]);
    }
    var s1 := s.(batches := t.batches);
    assert Fits(s1) by {
      FitsIfRowsFit(s1);
    }
    var more := map i | i in chosen ::
                  Item(b, None, chosen[i].path, Some(chosen[i]), Latest(s)[chosen[i]].revision, Pending, None,
                       map[], [], [], []);
    AddItems(s1, more);
    FitsIfRowsFit(t);
  }

  lemma FitsIfRowsFit(s: State)
    ensures Fits(s) <==> RowsFit(s.items, s.batches, s.workers, s.recovering)
  {
  }

  lemma ClaimFits(s: State, b: BatchId, w: WorkerId)
    requires Fits(s) && Enabled(s, Claim(b, w))
    ensures Fits(After(s, Claim(b, w)))
  {
    hide SameOrigins, Untouched, InHandFits, StatusesFit, OriginsFit, ItemsFit,
         AfterCleanup, AfterExecution, AfterEnding, AfterRequest,
         CleanupEnabled, ExecutionEnabled, EndingEnabled, RequestEnabled;
    var t := Claimed(s, b, w);
    assert forall v | v in s.workers :: s.workers[v].batch != b;
    WriteBatch(s, b, t.batches[b]);
  }

  lemma LoadFits(s: State, w: WorkerId)
    requires Fits(s) && Enabled(s, Load(w))
    ensures Fits(After(s, Load(w)))
  {
    hide SameOrigins, ItemsFit, OriginsFit, OnePerBatch;
    if s.batches[s.workers[w].batch].status !in {Checking, Running} {
      RemoveWorker(s, w);
    } else {
      WriteWorker(s, w, Loaded(s, w).workers[w]);
    }
  }

  /** The worker moves on without writing an item. */
  lemma FlyFits(s: State, w: WorkerId, flight: Flight)
    requires Fits(s) && w in s.workers && s.workers[w].phase.Looping?
    requires flight.Idle? || (&& flight.item in s.items && s.items[flight.item].batch == s.workers[w].batch
                              && FlightFits(flight, s.workers[w].phase.execute, s.items[flight.item])
                              && ChildFits(flight, s.workers[w].batch, s.items))
    ensures RowsFit(s.items, s.batches, Fly(s, w, flight), s.recovering)
  {
    hide SameOrigins, FlightFits, ChildFits, ItemsFit, OriginsFit;
    WriteWorker(s, w, Fly(s, w, flight)[w]);
  }

  /** The item in hand is written and the worker moves on. */
  lemma HandleFits(s: State, w: WorkerId, item: Item, flight: Flight)
    requires Fits(s) && On(s, w, true)
    requires var i := FlightOf(s, w).item;
             && item.batch == s.items[i].batch && item.origin == s.items[i].origin && item.status != Delegated
             && (flight.Idle? || (flight.item == i && FlightFits(flight, true, item)
                                  && ChildFits(flight, item.batch, s.items[i := item])))
    ensures RowsFit(Keep(s, FlightOf(s, w).item, item), s.batches, Fly(s, w, flight), s.recovering)
  {
    hide SameOrigins, ItemsFit, OriginsFit, RecoveringFits;
    var i, items := FlightOf(s, w).item, Keep(s, FlightOf(s, w).item, item);
    var workers := Fly(s, w, flight);
    assert WorkerFits(s.workers[w], s.items, s.batches, s.recovering);
    assert WorkerFits(workers[w], items, s.batches, s.recovering);
    WriteItem(s, i, item, workers);
  }

  lemma EndPreviewFits(s: State, w: WorkerId, preview: Preview)
    requires Fits(s) && Enabled(s, EndPreview(w, preview))
    ensures Fits(After(s, EndPreview(w, preview)))
  {
    hide SameOrigins, Fits, PreviewEnded, Rechecking, Guard, CleanupApproved, SamePlan, FindingAt;
    PreviewFits(s, w, preview);
  }

  lemma PreviewFits(s: State, w: WorkerId, preview: Preview)
    requires Fits(s) && On(s, w, false) && FlightOf(s, w).Previewing?
    ensures Fits(PreviewEnded(s, w, preview))
  {
    hide SameOrigins, Rechecking, Fits, RowsFit;
    var i := FlightOf(s, w).item;
    var t := PreviewEnded(s, w, preview);
    if t.items != s.items {
      PreviewedIsQuiet(s, w, preview);
      PreviewWrites(s, w, t.items[i]);
    } else {
      FlyFits(s, w, Idle);
    }
    FitsIfRowsFit(t);
  }

  lemma PreviewedIsQuiet(s: State, w: WorkerId, preview: Preview)
    requires Fits(s) && On(s, w, false) && FlightOf(s, w).Previewing?
    ensures var item := PreviewedItem(s.items[FlightOf(s, w).item],
                                      Rechecking(s.workers[w].phase, FlightOf(s, w).item, s.items[FlightOf(s, w).item]),
                                      preview, s.now);
            s.items[FlightOf(s, w).item].batch in s.batches && Untouched(item) && item.status != Delegated
  {
    hide SameOrigins, Rechecking, StatusesFit, ChildFits, OriginsFit, RecoveringFits, OnePerBatch;
    assert WorkerFits(s.workers[w], s.items, s.batches, s.recovering);
    assert ItemFits(s.items[FlightOf(s, w).item], s.batches);
  }

  lemma PreviewWrites(s: State, w: WorkerId, item: Item)
    requires Fits(s) && On(s, w, false) && FlightOf(s, w).Previewing?
    requires var i := FlightOf(s, w).item;
             && item.batch == s.items[i].batch && item.origin == s.items[i].origin && Untouched(item) && item.status != Delegated
    ensures RowsFit(Keep(s, FlightOf(s, w).item, item), s.batches, Fly(s, w, Idle), s.recovering)
  {
    hide SameOrigins, ItemsFit, OriginsFit, RecoveringFits, Untouched;
    var i, items, workers := FlightOf(s, w).item, Keep(s, FlightOf(s, w).item, item), Fly(s, w, Idle);
    assert WorkerFits(s.workers[w], s.items, s.batches, s.recovering);
    assert WorkerFits(workers[w], items, s.batches, s.recovering);
    WriteItem(s, i, item, workers);
  }

  lemma TakeFits(s: State, w: WorkerId, i: ItemId)
    requires Fits(s) && Enabled(s, Take(w, i))
    ensures Fits(After(s, Take(w, i)))
  {
    hide SameOrigins, ItemsFit, OriginsFit, RecoveringFits,
         AfterPreview, AfterCleanup, AfterEnding, AfterRequest,
         PreviewEnabled, CleanupEnabled, EndingEnabled, RequestEnabled;
    var item := s.items[i].(status := Validating);
    var items, workers := Keep(s, i, item), Fly(s, w, Inspecting(i));
    assert WorkerFits(s.workers[w], s.items, s.batches, s.recovering);
    assert s.items[i].batch == s.workers[w].batch;
    assert WorkerFits(workers[w], items, s.batches, s.recovering);
    WriteItem(s, i, item, workers);
  }

  lemma IntendChangeFits(s: State, w: WorkerId, child: ItemId, live: Row, reading: RuleReading)
    requires Fits(s) && Enabled(s, IntendChange(w, child, live, reading))
    ensures Fits(After(s, IntendChange(w, child, live, reading)))
  {
    hide SameOrigins, Guard, Authorized, CleanupApproved, FindingAt, RowsFit, ChangeIntended;
    ChangeIntendedFits(s, w, child, live, reading);
  }

  /** What the intent writes: the item, the worker's position and, for a rule to be deleted, a row of its own. */
  lemma IntentWrites(s: State, w: WorkerId, child: ItemId, live: Row, reading: RuleReading)
    requires On(s, w, true) && FlightOf(s, w).Cleaning? && s.findings != [] && child !in s.items
    requires |s.items[FlightOf(s, w).item].results| < |s.items[FlightOf(s, w).item].plan|
    ensures var t, i := ChangeIntended(s, w, child, live, reading), FlightOf(s, w).item;
            var item, removes := s.items[i], s.items[i].plan[|s.items[i].results|].after == None;
            && t.batches == s.batches && t.recovering == s.recovering
            && i in t.items && t.items[i] == item.(results := t.items[i].results)
            && w in t.workers && t.workers == s.workers[w := t.workers[w]]
            && t.workers[w].phase.Looping? && t.workers == Fly(s, w, t.workers[w].phase.flight)
            && t.workers[w].phase.flight.Changing? && t.workers[w].phase.flight.item == i
            && t.workers[w].phase.flight.child == (if removes then Some(child) else None)
            && if removes then
                 && child in t.items && t.items == Keep(s, i, t.items[i])[child := t.items[child]]
                 && t.items[child].batch == item.batch && t.items[child].origin == None
                 && t.items[child].status == Sending && t.items[child].results == []
               else t.items == Keep(s, i, t.items[i])
  {
    hide SameOrigins, AuthorityOf;
  }

  lemma ChangeIntendedFits(s: State, w: WorkerId, child: ItemId, live: Row, reading: RuleReading)
    requires Fits(s) && On(s, w, true) && FlightOf(s, w).Cleaning? && s.findings != [] && child !in s.items
    requires |s.items[FlightOf(s, w).item].results| < |s.items[FlightOf(s, w).item].plan|
    ensures Fits(ChangeIntended(s, w, child, live, reading))
  {
    hide SameOrigins, ItemsFit, OriginsFit, RecoveringFits, OnePerBatch, StatusesFit, ChangeIntended, Fits;
    IntentWrites(s, w, child, live, reading);
    var i, t := FlightOf(s, w).item, ChangeIntended(s, w, child, live, reading);
    HandIsFit(s, w);
    if t.workers[w].phase.flight.child == None {
      HandleFits(s, w, t.items[i], t.workers[w].phase.flight);
      FitsIfRowsFit(t);
    } else {
      var s1 := s.(items := Keep(s, i, t.items[i]), workers := Fly(s, w, Cleaning(i, FlightOf(s, w).seen)));
      HandleFits(s, w, t.items[i], Cleaning(i, FlightOf(s, w).seen));
      FitsIfRowsFit(s1);
      ChildRowFits(s1, t, w, child);
    }
  }

  lemma HandIsFit(s: State, w: WorkerId)
    requires Fits(s) && On(s, w, true)
    ensures var i := FlightOf(s, w).item;
            && s.items[i].batch == s.workers[w].batch && s.workers[w].batch in s.batches
            && FlightFits(FlightOf(s, w), true, s.items[i])
            && s.batches[s.workers[w].batch].status == Running
  {
    hide SameOrigins, ItemsFit, OriginsFit, RecoveringFits, OnePerBatch, StatusesFit;
    assert WorkerFits(s.workers[w], s.items, s.batches, s.recovering);
  }

  /** The row of a rule to be deleted is added, and then the worker points at it. */
  lemma ChildRowFits(s: State, t: State, w: WorkerId, child: ItemId)
    requires Fits(s) && On(s, w, true) && FlightOf(s, w).Cleaning? && child !in s.items
    requires t.batches == s.batches && t.recovering == s.recovering
    requires s.items[FlightOf(s, w).item].batch == s.workers[w].batch && s.items[FlightOf(s, w).item].status == Validating
    requires s.workers[w].batch in s.batches && s.batches[s.workers[w].batch].status == Running
    requires child in t.items && t.items == s.items[child := t.items[child]]
    requires var row := t.items[child];
             row.batch == s.workers[w].batch && row.origin == None && row.status == Sending && row.results == []
    requires w in t.workers && t.workers[w].phase.Looping? && t.workers == Fly(s, w, t.workers[w].phase.flight)
    requires var flight := t.workers[w].phase.flight;
             flight.Changing? && flight.item == FlightOf(s, w).item && flight.child == Some(child)
    ensures Fits(t)
  {
    hide SameOrigins, ItemsFit, OriginsFit, RecoveringFits, OnePerBatch, StatusesFit, Fits, WorkersFit;
    var s1 := s.(items := t.items);
    assert s.items + map[child := t.items[child]] == t.items;
    AddItems(s, map[child := t.items[child]]);
    FitsIfRowsFit(s1);
    FlyFits(s1, w, t.workers[w].phase.flight);
    FitsIfRowsFit(t);
  }

  lemma ConcludeChangeFits(s: State, w: WorkerId, status: RuleStatus)
    requires Fits(s) && Enabled(s, ConcludeChange(w, status))
    ensures Fits(After(s, ConcludeChange(w, status)))
  {
    hide SameOrigins, Fits, ChangeConcluded;
    ChangeConcludedFits(s, w, status);
  }

  lemma ChangeConcludedFits(s: State, w: WorkerId, status: RuleStatus)
    requires Fits(s) && InChange(s, w, true) && status != RuleSending
    ensures Fits(ChangeConcluded(s, w, status))
  {
    hide SameOrigins, ItemsFit, OriginsFit, RecoveringFits, OnePerBatch, StatusesFit;
    var flight := FlightOf(s, w);
    var item, t := s.items[flight.item], ChangeConcluded(s, w, status);
    var n := |item.results| - 1;
    var noted := item.(results := item.results[n := item.results[n].(status := status)]);
    assert WorkerFits(s.workers[w], s.items, s.batches, s.recovering);
    HandleFits(s, w, noted, t.workers[w].phase.flight);
    if flight.child.Some? {
      var s1 := s.(items := Keep(s, flight.item, noted), workers := t.workers);
      var c := flight.child.value;
      assert t.items == s1.items[c := t.items[c]];
      assert WorkerFits(s1.workers[w], s1.items, s.batches, s.recovering);
      WriteChild(s1, w, c, t.items[c]);
    }
  }

  lemma WriteChild(s: State, w: WorkerId, c: ItemId, row: Item)
    requires Fits(s) && w in s.workers && c in s.items && s.items[c].batch == s.workers[w].batch
    requires row == s.items[c].(status := row.status) && s.items[c].status == Sending && MayBeSent(row.status)
    requires s.workers[w].phase.Looping? && s.workers[w].phase.execute
    requires var flight := s.workers[w].phase.flight; flight.Cleaning? || flight.Broken?
    requires s.workers[w].phase.flight.item != c
    ensures RowsFit(s.items[c := row], s.batches, s.workers, s.recovering)
  {
    hide SameOrigins, ItemsFit, OriginsFit, RecoveringFits;
    assert WorkerFits(s.workers[w], s.items, s.batches, s.recovering);
    assert WorkerFits(s.workers[w], s.items[c := row], s.batches, s.recovering);
    WriteItem(s, c, row, s.workers);
  }

  lemma FinishFits(s: State, w: WorkerId)
    requires Fits(s) && Enabled(s, Finish(w))
    ensures Fits(After(s, Finish(w)))
  {
    hide SameOrigins, ItemsFit, OriginsFit, StatusesFit, InHandFits;
    var b, t := s.workers[w].batch, Finished(s, w);
    RemoveWorker(s, w);
    var s1 := s.(workers := s.workers - {w});
    assert WorkerFits(s.workers[w], s.items, s.batches, s.recovering);
    WriteBatch(s1, b, t.batches[b]);
  }

  lemma StartRecoveryFits(s: State, b: BatchId)
    requires Fits(s) && Enabled(s, StartRecovery(b))
    ensures Fits(After(s, StartRecovery(b)))
  {
    hide SameOrigins, ItemsFit, OriginsFit, StatusesFit, InHandFits, InLane;
  }

  lemma RecoverFits(s: State, b: BatchId)
    requires Fits(s) && Enabled(s, Recover(b))
    ensures Fits(After(s, Recover(b)))
  {
    hide SameOrigins, RowsFit, RecoveryStep;
    RecoveredFits(s, b);
  }

  lemma RecoveredRowFits(item: Item, stage: nat, batches: Batches)
    requires ItemFits(item, batches) && (item.status == Delegated ==> item.results == [])
    ensures ItemFits(RecoveredItem(item, stage), batches)
    ensures RecoveredItem(item, stage).status == Delegated <==> item.status == Delegated
    ensures RecoveredItem(item, stage).results == item.results
  {
  }

  lemma RecoveredFits(s: State, b: BatchId)
    requires Fits(s) && b in s.recovering && b in s.batches
    ensures Fits(RecoveryStep(s, b))
  {
    hide SameOrigins, InHandFits, StatusesFit, InLane, OnePerBatch, RecoveredItem;
    var t := RecoveryStep(s, b);
    assert forall w | w in s.workers :: s.workers[w].batch != b;
    if s.recovering[b] < 3 {
      forall i | i in s.items && s.items[i].batch == b
        ensures ItemFits(t.items[i], s.batches)
        ensures (t.items[i].status == Delegated <==> s.items[i].status == Delegated)
        ensures t.items[i].status == Delegated ==> t.items[i].results == []
      {
        hide WorkersFit, OriginFits, RecoveringFits;
        RecoveredRowFits(s.items[i], s.recovering[b], s.batches);
      }
      RewriteItems(s, b, t.items);
      assert forall w | w in s.workers :: WorkerFits(s.workers[w], t.items, t.batches, t.recovering);
    } else {
      hide ItemsFit, OriginsFit;
      var s1 := s.(recovering := s.recovering - {b});
      assert Fits(s1);
      WriteBatch(s1, b, t.batches[b]);
    }
  }

  /** A request in preview has no worker once its preview is ready. */
  lemma NobodyAttends(s: State, b: BatchId)
    requires Fits(s) && b in s.batches && s.batches[b].status in {PreviewReady, PreviewQueued, Queued}
    ensures forall w | w in s.workers :: s.workers[w].batch != b
    ensures b !in s.recovering
  {
    hide SameOrigins, ItemsFit, OriginsFit, InHandFits, StatusesFit;
  }

  lemma ConfirmAllFits(s: State, b: BatchId, batch: Batch)
    requires Fits(s) && b in s.batches && s.batches[b].status == PreviewReady && batch.status == Queued
    ensures RowsFit(s.items, s.batches[b := batch], s.workers, s.recovering)
  {
    hide SameOrigins, RowsFit;
    NobodyAttends(s, b);
    WriteBatch(s, b, batch);
  }

  /** The selected items are moved out, each into one copy of its own. */
  predicate Divided(before: Items, after: Items, selected: set<ItemId>, target: BatchId, copies: map<ItemId, ItemId>) {
    && copies.Values == selected && selected <= before.Keys && copies.Keys !! before.Keys
    && (forall c, d | c in copies && d in copies :: copies[c] == copies[d] ==> c == d)
    && after.Keys == before.Keys + copies.Keys
    && (forall i | i in before :: after[i] == if i in selected then before[i].(status := Delegated) else before[i])
    && (forall c | c in copies :: copies[c] in before
                                  && after[c] == before[copies[c]].(batch := target, origin := Some(copies[c]), results := []))
  }

  lemma ConfirmDivides(s: State, b: BatchId, user: UserId, ticket: string, selected: set<ItemId>, target: BatchId,
                       copies: map<ItemId, ItemId>)
    requires b in s.batches && selected <= s.items.Keys && FreshCopies(s, selected, target, copies) && !TakesAll(s, b, selected)
    ensures Divided(s.items, ConfirmedState(s, b, user, ticket, selected, target, copies).items, selected, target, copies)
  {
    hide SameOrigins, TakesAll, Divided, Split;
    SplitDivides(s.items, selected, target, copies);
  }

  lemma SplitDivides(items: Items, selected: set<ItemId>, target: BatchId, copies: map<ItemId, ItemId>)
    requires selected <= items.Keys && copies.Keys !! items.Keys && copies.Values == selected
    requires forall i, j | i in copies && j in copies :: copies[i] == copies[j] ==> i == j
    ensures forall c | c in copies :: copies[c] in items
    ensures Divided(items, Split(items, selected, target, copies), selected, target, copies)
  {
    hide SameOrigins;
    assert forall c | c in copies :: copies[c] in copies.Values;
  }

  lemma ConfirmPartFits(s: State, b: BatchId, user: UserId, ticket: string, selected: set<ItemId>, target: BatchId,
                        copies: map<ItemId, ItemId>)
    requires Fits(s) && b in s.batches && s.batches[b].status == PreviewReady && FreshCopies(s, selected, target, copies)
    requires forall i | i in selected :: i in s.items && s.items[i].batch == b && s.items[i].status == Verified
    requires !TakesAll(s, b, selected)
    ensures Fits(ConfirmedState(s, b, user, ticket, selected, target, copies))
  {
    hide SameOrigins, TakesAll, InLane, ItemsFit, WorkersFit, OriginsFit, Divided;
    var t := ConfirmedState(s, b, user, ticket, selected, target, copies);
    NobodyAttends(s, b);
    ConfirmDivides(s, b, user, ticket, selected, target, copies);
    CopyItemsFit(s.items, t.items, s.batches, b, selected, target, copies, t.batches[target]);
    CopyOriginsFit(s.items, t.items, s.batches, b, selected, target, copies, t.batches[target]);
    ConfirmSparesWorkers(s, t, b, selected, target, copies);
  }

  lemma ConfirmSparesWorkers(s: State, t: State, b: BatchId, selected: set<ItemId>, target: BatchId, copies: map<ItemId, ItemId>)
    requires WorkersFit(s.workers, s.items, s.batches, s.recovering) && forall w | w in s.workers :: s.workers[w].batch != b
    requires forall i | i in selected :: i in s.items && s.items[i].batch == b
    requires Divided(s.items, t.items, selected, target, copies) && target !in s.batches
    requires t.batches.Keys == s.batches.Keys + {target} && forall c | c in s.batches :: t.batches[c] == s.batches[c]
    requires t.workers == s.workers && t.recovering == s.recovering
    ensures WorkersFit(t.workers, t.items, t.batches, t.recovering)
  {
    hide SameOrigins, InLane, FlightFits;
    forall w | w in s.workers
      ensures WorkerFits(s.workers[w], t.items, t.batches, t.recovering)
    {
      ConfirmSparesWorker(s, t, b, s.workers[w]);
    }
  }

  lemma ConfirmSparesWorker(s: State, t: State, b: BatchId, worker: Worker)
    requires WorkerFits(worker, s.items, s.batches, s.recovering) && worker.batch != b
    requires forall i | i in s.items :: i in t.items && (s.items[i].batch != b ==> t.items[i] == s.items[i])
    requires worker.batch in t.batches && t.batches[worker.batch] == s.batches[worker.batch] && t.recovering == s.recovering
    ensures WorkerFits(worker, t.items, t.batches, t.recovering)
  {
  }

  lemma CopyItemsFit(before: Items, after: Items, batches: Batches, b: BatchId, selected: set<ItemId>, target: BatchId,
                     copies: map<ItemId, ItemId>, batch: Batch)
    requires ItemsFit(before, batches) && Divided(before, after, selected, target, copies)
    requires forall i | i in selected :: before[i].status == Verified
    requires target !in batches
    ensures ItemsFit(after, batches[target := batch])
  {
    forall i | i in after
      ensures ItemFits(after[i], batches[target := batch])
    {
      if i in before {
        assert ItemFits(before[i], batches);
      } else {
        assert copies[i] in copies.Values;
      }
    }
  }

  lemma CopyOriginsFit(before: Items, after: Items, batches: Batches, b: BatchId, selected: set<ItemId>, target: BatchId,
                       copies: map<ItemId, ItemId>, batch: Batch)
    requires ItemsFit(before, batches) && OriginsFit(before, batches) && Divided(before, after, selected, target, copies)
    requires b in batches && batches[b].status == PreviewReady && target !in batches && batch.status == Queued
    requires forall i | i in selected :: before[i].batch == b && before[i].status == Verified
    ensures OriginsFit(after, batches[target := batch])
  {
    assert selected <= before.Keys;
    hide ItemFits, OriginFits, Divided;
    forall i | i in selected
      ensures before[i].origin == None && before[i].results == []
    {
      SelectedIsOriginal(before, batches, b, selected, i);
    }
    forall i | i in before && before[i].origin.Some?
      ensures before[i].origin.value in before && before[i].origin.value !in selected
    {
      OriginIsUnselected(before, batches, selected, i);
    }
    DividedStaysQuiet(before, after, batches, selected, target, copies);
    forall i | i in after
      ensures OriginFits(after[i], after, batches[target := batch])
    {
      CopyOriginFits(before, after, batches, selected, target, copies, batch, i);
    }
    forall i, j | i in after && j in after && after[i].origin.Some? && after[i].origin == after[j].origin
      ensures i == j
    {
      hide OriginFits;
      SameOrigin(before, after, selected, target, copies, i, j);
    }
  }

  lemma SelectedIsOriginal(before: Items, batches: Batches, b: BatchId, selected: set<ItemId>, i: ItemId)
    requires ItemsFit(before, batches) && OriginsFit(before, batches) && i in selected && i in before
    requires b in batches && batches[b].status == PreviewReady && before[i].batch == b && before[i].status == Verified
    ensures before[i].origin == None && before[i].results == []
  {
    assert OriginFits(before[i], before, batches) && ItemFits(before[i], batches);
  }

  lemma OriginIsUnselected(before: Items, batches: Batches, selected: set<ItemId>, i: ItemId)
    requires OriginsFit(before, batches) && i in before && before[i].origin.Some?
    requires forall j | j in selected :: j in before && before[j].status == Verified
    ensures before[i].origin.value in before && before[i].origin.value !in selected
  {
    assert OriginFits(before[i], before, batches);
  }

  lemma DividedStaysQuiet(before: Items, after: Items, batches: Batches, selected: set<ItemId>, target: BatchId,
                          copies: map<ItemId, ItemId>)
    requires OriginsFit(before, batches) && Divided(before, after, selected, target, copies)
    requires forall i | i in selected :: i in before && before[i].status == Verified && before[i].results == []
    ensures forall i | i in after && after[i].status == Delegated :: after[i].results == []
  {
    hide OriginFits;
    forall i | i in after && i !in before
      ensures after[i].status == Verified
    {
      assert copies[i] in copies.Values;
    }
  }

  lemma CopyOriginFits(before: Items, after: Items, batches: Batches, selected: set<ItemId>, target: BatchId,
                       copies: map<ItemId, ItemId>, batch: Batch, i: ItemId)
    requires Divided(before, after, selected, target, copies) && target !in batches && batch.status == Queued
    requires forall j | j in before :: OriginFits(before[j], before, batches)
    requires forall j | j in selected :: before[j].origin == None
    requires i in after
    ensures OriginFits(after[i], after, batches[target := batch])
  {
    if i in before {
      assert OriginFits(before[i], before, batches);
    } else {
      assert copies[i] in copies.Values;
    }
  }

  lemma SameOrigin(before: Items, after: Items, selected: set<ItemId>, target: BatchId, copies: map<ItemId, ItemId>,
                   i: ItemId, j: ItemId)
    requires Divided(before, after, selected, target, copies) && i in after && j in after
    requires forall i | i in selected :: before[i].origin == None
    requires forall i | i in before && before[i].origin.Some? :: before[i].origin.value !in selected
    requires forall i, j | i in before && j in before && before[i].origin.Some? ::
               before[i].origin == before[j].origin ==> i == j
    requires after[i].origin.Some? && after[i].origin == after[j].origin
    ensures i == j
  {
    forall c | c in copies
      ensures copies[c] in selected && after[c].origin == Some(copies[c])
    {
      assert copies[c] in copies.Values;
    }
  }

  /** A decision on an item of a request nobody works on. */
  lemma DecideFits(s: State, i: ItemId, item: Item)
    requires Fits(s) && i in s.items && s.items[i].batch in s.batches
    requires s.batches[s.items[i].batch].status == PreviewReady
    requires item.batch == s.items[i].batch && item.origin == s.items[i].origin && item.results == s.items[i].results
    requires s.items[i].status != Delegated && item.status != Delegated && item.status != Validating && !MayBeSent(item.status)
    ensures Fits(s.(items := Keep(s, i, item)))
  {
    hide SameOrigins, WorkerFits, OriginsFit;
    NobodyAttends(s, item.batch);
    WriteItem(s, i, item, s.workers);
  }

  lemma RequeueFits(s: State, i: ItemId, item: Item)
    requires Fits(s) && i in s.items && s.items[i].batch in s.batches
    requires s.batches[s.items[i].batch].status == PreviewReady
    requires item.batch == s.items[i].batch && item.origin == s.items[i].origin && item.results == s.items[i].results
    requires s.items[i].status != Delegated
    ensures Fits(Requeued(s, i, item))
  {
    hide SameOrigins, RowsFit;
    var rechecked := item.(status := CleanupRecheck);
    DecideFits(s, i, rechecked);
    var s1 := s.(items := Keep(s, i, rechecked));
    NobodyAttends(s1, item.batch);
    WriteBatch(s1, item.batch, s.batches[item.batch].(status := PreviewQueued));
  }

  lemma CancelBatchFits(s: State, b: BatchId)
    requires Fits(s) && Enabled(s, CancelBatch(b))
    ensures Fits(After(s, CancelBatch(b)))
  {
    hide SameOrigins, RowsFit, CancelledState;
    CancelledFits(s, b);
  }

  lemma CancelledFits(s: State, b: BatchId)
    requires Fits(s) && b in s.batches && OpenBatch(s.batches[b].status)
    ensures Fits(CancelledState(s, b))
  {
    hide SameOrigins;
    var t := CancelledState(s, b);
    CancelledItemsFit(s, b, t.items);
    var s1 := s.(items := t.items);
    WriteBatch(s1, b, t.batches[b]) by {
      hide ItemsFit, OriginsFit, InHandFits, StatusesFit;
      assert forall w | w in s1.workers && s1.workers[w].batch == b ::
               WorkerFits(s1.workers[w], s1.items, s1.batches, s1.recovering);
    }
  }

  lemma CancelledItemsFit(s: State, b: BatchId, items: Items)
    requires Fits(s) && b in s.batches && OpenBatch(s.batches[b].status)
    requires items == map i | i in s.items ::
               if s.items[i].batch == b && OpenItem(s.items[i].status) then s.items[i].(status := ItemCancelled) else s.items[i]
    ensures RowsFit(items, s.batches, s.workers, s.recovering)
  {
    hide WorkerFits, OriginsFit, InLane;
    forall w | w in s.workers && s.workers[w].batch == b
      ensures WorkerFits(s.workers[w], items, s.batches, s.recovering)
    {
      CancellingSparesWorker(s.workers[w], s.items, items, b, s.batches, s.recovering);
    }
    assert forall i | i in s.items :: ItemFits(s.items[i], s.batches);
    RewriteItems(s, b, items);
  }

  /** A preview goes on with its item cancelled. */
  lemma CancellingSparesWorker(worker: Worker, before: Items, after: Items, b: BatchId, batches: Batches,
                               recovering: map<BatchId, nat>)
    requires WorkerFits(worker, before, batches, recovering) && worker.batch == b && OpenBatch(batches[b].status)
    requires after.Keys == before.Keys
    requires forall i | i in before :: after[i] == before[i] || after[i] == before[i].(status := ItemCancelled)
    ensures WorkerFits(worker, after, batches, recovering)
  {
  }

  lemma CancelCleanupFits(s: State, i: ItemId)
    requires Fits(s) && Enabled(s, CancelCleanup(i))
    ensures Fits(After(s, CancelCleanup(i)))
  {
    hide Fits;
    CancelOneFits(s, i);
  }

  lemma CancelOneFits(s: State, i: ItemId)
    requires Fits(s) && i in s.items && s.items[i].batch in s.batches && OpenBatch(s.batches[s.items[i].batch].status)
    requires OpenItem(s.items[i].status) && s.items[i].results == []
    ensures Fits(s.(items := Keep(s, i, s.items[i].(status := ItemCancelled))))
  {
    hide SameOrigins, OriginsFit;
    var item := s.items[i].(status := ItemCancelled);
    forall w | w in s.workers && s.workers[w].batch == item.batch
      ensures WorkerFits(s.workers[w], s.items[i := item], s.batches, s.recovering)
    {
      assert WorkerFits(s.workers[w], s.items, s.batches, s.recovering);
    }
    assert ItemFits(s.items[i], s.batches);
    hide SameOrigins, WorkerFits;
    WriteItem(s, i, item, s.workers);
  }

  lemma ReconcileFits(s: State, b: BatchId)
    requires Fits(s) && Enabled(s, Reconcile(b))
    ensures Fits(After(s, Reconcile(b)))
  {
    hide SameOrigins, ItemsFit, OriginsFit, InHandFits, StatusesFit;
    assert forall w | w in s.workers && s.workers[w].batch == b :: WorkerFits(s.workers[w], s.items, s.batches, s.recovering);
    WriteBatch(s, b, s.batches[b].(status := BatchStatus.Cancelled));
  }

  lemma BeginPreviewFits(s: State, w: WorkerId, i: ItemId)
    requires Fits(s) && Enabled(s, BeginPreview(w, i))
    ensures Fits(After(s, BeginPreview(w, i)))
  {
    hide SameOrigins, ItemsFit, OriginsFit, RecoveringFits, OnePerBatch, InLane;
    assert WorkerFits(s.workers[w], s.items, s.batches, s.recovering);
    FlyFits(s, w, Previewing(i));
  }

  lemma AbandonFits(s: State, b: BatchId)
    requires Fits(s) && Enabled(s, AbandonRecovery(b))
    ensures Fits(After(s, AbandonRecovery(b)))
  {
    hide SameOrigins, ItemsFit, OriginsFit, InHandFits, StatusesFit, InLane;
  }

  lemma ConfirmFits(s: State, b: BatchId, user: UserId, ticket: string, selected: set<ItemId>, target: BatchId,
                    copies: map<ItemId, ItemId>)
    requires Fits(s) && Enabled(s, Confirm(b, user, ticket, selected, target, copies))
    ensures Fits(After(s, Confirm(b, user, ticket, selected, target, copies)))
  {
    hide SameOrigins, CanExecute, FindingAt, Blank, RowsFit, FreshCopies, TakesAll;
    if TakesAll(s, b, selected) {
      ConfirmAllFits(s, b, Confirmed(s.batches[b], user, ticket, s.now));
    } else {
      ConfirmPartFits(s, b, user, ticket, selected, target, copies);
    }
  }

  lemma ApproveCleanupFits(s: State, i: ItemId, user: UserId)
    requires Fits(s) && Enabled(s, ApproveCleanup(i, user))
    ensures Fits(After(s, ApproveCleanup(i, user)))
  {
    hide SameOrigins, Guard, CleanupSound, RowsFit, Requeued, CleanupRequirement, FindingAt;
    var item := s.items[i];
    var approved := item.(approvals := item.approvals + [CleanupApproval(user, DigestOf(item))]);
    RequeueFits(s, i, approved);
    DecideFits(s, i, approved);
  }

  lemma RejectCleanupFits(s: State, i: ItemId)
    requires Fits(s) && Enabled(s, RejectCleanup(i))
    ensures Fits(After(s, RejectCleanup(i)))
  {
    hide SameOrigins, RowsFit;
    DecideFits(s, i, s.items[i].(status := CleanupRejected));
  }

  lemma RevalidateFits(s: State, i: ItemId, user: UserId)
    requires Fits(s) && Enabled(s, Revalidate(i, user))
    ensures Fits(After(s, Revalidate(i, user)))
  {
    hide SameOrigins, RowsFit, Requeued, Guard, CanExecute, CleanupApproved, FindingAt;
    RequeueFits(s, i, s.items[i]);
  }

  lemma CrashFits(s: State, w: WorkerId)
    requires Fits(s) && Enabled(s, Crash(w))
    ensures Fits(After(s, Crash(w)))
  {
    hide SameOrigins, RowsFit;
    RemoveWorker(s, w);
  }

  lemma ElsewhereFits(s: State, step: Step)
    requires Fits(s) && Enabled(s, step) && (step.Review? || step.ChangeSettings? || step.ChangeAround? || step.Tick?)
    ensures Fits(After(s, step))
  {
    hide SameOrigins, RowsFit, AfterPreview, AfterCleanup, AfterExecution, AfterEnding, AfterRequest, PreviewEnabled,
         CleanupEnabled, ExecutionEnabled, EndingEnabled, RequestEnabled;
  }

  lemma InspectFits(s: State, w: WorkerId, found: Inspection)
    requires Fits(s) && Enabled(s, Inspect(w, found))
    ensures Fits(After(s, Inspect(w, found)))
  {
    hide SameOrigins, Guard, Authorized, CleanupApproved, SamePlan, ApprovalsValid, FindingAt, ItemsFit,
         OriginsFit, RecoveringFits, OnePerBatch, StatusesFit;
    assert WorkerFits(s.workers[w], s.items, s.batches, s.recovering);
    FlyFits(s, w, After(s, Inspect(w, found)).workers[w].phase.flight);
  }

  lemma RequestChangeFits(s: State, w: WorkerId)
    requires Fits(s) && Enabled(s, RequestChange(w))
    ensures Fits(After(s, RequestChange(w)))
  {
    hide SameOrigins, Guard, Authorized, CleanupApproved, SamePlan, ApprovalsValid, FindingAt, ItemsFit,
         OriginsFit, RecoveringFits, OnePerBatch, StatusesFit;
    assert WorkerFits(s.workers[w], s.items, s.batches, s.recovering);
    FlyFits(s, w, After(s, RequestChange(w)).workers[w].phase.flight);
  }

  lemma FinishCleanupFits(s: State, w: WorkerId, live: Row, references: set<Path>)
    requires Fits(s) && Enabled(s, FinishCleanup(w, live, references))
    ensures Fits(After(s, FinishCleanup(w, live, references)))
  {
    hide SameOrigins, Guard, Authorized, CleanupApproved, SamePlan, ApprovalsValid, FindingAt, ItemsFit,
         OriginsFit, RecoveringFits, OnePerBatch, StatusesFit;
    assert WorkerFits(s.workers[w], s.items, s.batches, s.recovering);
    FlyFits(s, w, After(s, FinishCleanup(w, live, references)).workers[w].phase.flight);
  }

  lemma SendDeleteFits(s: State, w: WorkerId, live: Row)
    requires Fits(s) && Enabled(s, SendDelete(w, live))
    ensures Fits(After(s, SendDelete(w, live)))
  {
    hide SameOrigins, Guard, Authorized, CleanupApproved, SamePlan, ApprovalsValid, FindingAt, ItemsFit,
         OriginsFit, RecoveringFits, OnePerBatch, StatusesFit;
    assert WorkerFits(s.workers[w], s.items, s.batches, s.recovering);
    FlyFits(s, w, After(s, SendDelete(w, live)).workers[w].phase.flight);
  }

  lemma FindAbsentFits(s: State, w: WorkerId)
    requires Fits(s) && Enabled(s, FindAbsent(w))
    ensures Fits(After(s, FindAbsent(w)))
  {
    hide SameOrigins, SomeDoubt, ItemsFit, OriginsFit, RecoveringFits, OnePerBatch, StatusesFit;
    var t := After(s, FindAbsent(w));
    assert WorkerFits(s.workers[w], s.items, s.batches, s.recovering);
    HandleFits(s, w, t.items[FlightOf(s, w).item], t.workers[w].phase.flight);
  }

  lemma IntendFits(s: State, w: WorkerId)
    requires Fits(s) && Enabled(s, Intend(w))
    ensures Fits(After(s, Intend(w)))
  {
    hide SameOrigins, SomeDoubt, ItemsFit, OriginsFit, RecoveringFits, OnePerBatch, StatusesFit,
         AfterPreview, AfterCleanup, AfterEnding, AfterRequest,
         PreviewEnabled, CleanupEnabled, EndingEnabled, RequestEnabled;
    var t := After(s, Intend(w));
    assert WorkerFits(s.workers[w], s.items, s.batches, s.recovering);
    HandleFits(s, w, t.items[FlightOf(s, w).item], t.workers[w].phase.flight);
  }

  lemma AnswerFits(s: State, w: WorkerId, outcome: ItemStatus, closed: Reviews.Database,
                   related: Reviews.Database)
    requires Fits(s) && Enabled(s, Answer(w, outcome, closed, related))
    ensures Fits(After(s, Answer(w, outcome, closed, related)))
  {
    hide SameOrigins, SomeDoubt, ItemsFit, OriginsFit, RecoveringFits, OnePerBatch, StatusesFit,
         AfterPreview, AfterCleanup, AfterEnding, AfterRequest,
         PreviewEnabled, CleanupEnabled, EndingEnabled, RequestEnabled;
    var t := After(s, Answer(w, outcome, closed, related));
    assert WorkerFits(s.workers[w], s.items, s.batches, s.recovering);
    HandleFits(s, w, t.items[FlightOf(s, w).item], t.workers[w].phase.flight);
  }

  lemma GiveUpFits(s: State, w: WorkerId)
    requires Fits(s) && Enabled(s, GiveUp(w))
    ensures Fits(After(s, GiveUp(w)))
  {
    hide SameOrigins, SomeDoubt, ItemsFit, OriginsFit, RecoveringFits, OnePerBatch, StatusesFit;
    var t := After(s, GiveUp(w));
    assert WorkerFits(s.workers[w], s.items, s.batches, s.recovering);
    HandleFits(s, w, t.items[FlightOf(s, w).item], t.workers[w].phase.flight);
  }

  /** Requests, items, workers and copies fit together after every step. */
  lemma StepFits(s: State, step: Step)
    requires Fits(s) && Enabled(s, step)
    ensures Fits(After(s, step))
  {
    hide *;
    match step
    case Select(b, requester, chosen) => SelectFits(s, b, requester, chosen);
    case Claim(b, w) => ClaimFits(s, b, w);
    case Load(w) => LoadFits(s, w);
    case BeginPreview(w, i) => BeginPreviewFits(s, w, i);
    case EndPreview(w, preview) => EndPreviewFits(s, w, preview);
    case Take(w, i) => TakeFits(s, w, i);
    case FindAbsent(w) => FindAbsentFits(s, w);
    case Inspect(w, found) => InspectFits(s, w, found);
    case IntendChange(w, child, live, reading) => IntendChangeFits(s, w, child, live, reading);
    case RequestChange(w) => RequestChangeFits(s, w);
    case ConcludeChange(w, status) => ConcludeChangeFits(s, w, status);
    case FinishCleanup(w, live, references) => FinishCleanupFits(s, w, live, references);
    case Intend(w) => IntendFits(s, w);
    case SendDelete(w, live) => SendDeleteFits(s, w, live);
    case Answer(w, outcome, closed, related) => AnswerFits(s, w, outcome, closed, related);
    case GiveUp(w) => GiveUpFits(s, w);
    case Finish(w) => FinishFits(s, w);
    case Crash(w) => CrashFits(s, w);
    case StartRecovery(b) => StartRecoveryFits(s, b);
    case Recover(b) => RecoverFits(s, b);
    case AbandonRecovery(b) => AbandonFits(s, b);
    case Confirm(b, user, ticket, selected, target, copies) =>
      ConfirmFits(s, b, user, ticket, selected, target, copies);
    case ApproveCleanup(i, user) => ApproveCleanupFits(s, i, user);
    case RejectCleanup(i) => RejectCleanupFits(s, i);
    case Revalidate(i, user) => RevalidateFits(s, i, user);
    case CancelBatch(b) => CancelBatchFits(s, b);
    case CancelCleanup(i) => CancelCleanupFits(s, i);
    case Reconcile(b) => ReconcileFits(s, b);
    case _ => ElsewhereFits(s, step);
  }
}
