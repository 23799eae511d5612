/** Deleting objects from NSX: every interleaving of requests, confirmations, workers, crashes and recovery.

    One environment. A step is one database transaction, one network request, or one answer. */
module DeletionProtocol {
  import opened Common
  import opened FindingModel
  import opened FindingWorkflow
  import opened CleanupPlan
  import opened PlanComparison
  import opened DeletionGuards
  import opened Findings
  import Reviews = ApprovalSafety

  type WorkerId = nat

  /** What a worker is doing with one item. `seen` is the state of the findings it last looked at. */
  datatype Flight =
    | Idle
    | Previewing(item: ItemId)
    | Inspecting(item: ItemId)
    | Cleaning(item: ItemId, seen: nat)
    | Changing(item: ItemId, seen: nat, requested: bool, child: Option<ItemId>, authority: Authority)
    | Broken(item: ItemId)
    | Checked(item: ItemId, seen: nat)
    | Intended(item: ItemId, seen: nat)
    | Requested(item: ItemId)

  datatype Phase =
    | Starting
    | Looping(execute: bool, statuses: map<ItemId, ItemStatus>, since: nat, flight: Flight)

  datatype Worker = Worker(batch: BatchId, phase: Phase)

  /** What deciding about a finding reads besides the finding and the clock: settings, pending recalculations and
      the newest collections with what they say about each finding. */
  datatype Surroundings = Surroundings(
    staleHours: nat,
    interval: nat,
    recalculating: set<Kind>,
    affected: set<Key>,
    latest: map<Key, SavedCollection>,
    direct: map<Key, SavedCollection>)

  /** A planned rule and its policy as read just before a change; `users` refer to the rule or lie below it. */
  datatype RuleReading = RuleReading(rule: Row, policy: Row, users: set<Path>)

  /** What the last checks before a request found: the rows, the finding as of `locked`, and the object. */
  datatype Authority = Authority(
    batch: Batch, item: Item, settings: Settings, around: Surroundings, now: Time, locked: nat, live: Row,
    reading: Option<RuleReading>)

  datatype Event =
    | FreshCheck(item: ItemId, live: Row, references: set<Path>)
    | RuleRequest(item: ItemId, index: nat, authority: Authority)
    | ObjectRequest(item: ItemId, authority: Authority)

  /** `findings` and `reviews` are the whole history of the findings so far. */
  datatype State = State(
    batches: map<BatchId, Batch>,
    items: map<ItemId, Item>,
    workers: map<WorkerId, Worker>,
    recovering: map<BatchId, nat>,
    settings: Settings,
    around: Surroundings,
    now: Time,
    findings: seq<Reviews.Database>,
    reviews: seq<Reviews.Step>,
    log: seq<Event>)

  datatype Preview = NoObject | Refused | Found(live: Row, plan: seq<Change>)

  /** What a live check of an object found: the object, who refers to it, and the plan that would free it. */
  datatype Inspection = Inspection(live: Row, references: set<Path>, plan: seq<Change>)

  datatype Step =
    | Select(batch: BatchId, requester: UserId, chosen: map<ItemId, Key>)
    | Claim(batch: BatchId, worker: WorkerId)
    | Load(worker: WorkerId)
    | BeginPreview(worker: WorkerId, item: ItemId)
    | EndPreview(worker: WorkerId, preview: Preview)
    | Take(worker: WorkerId, item: ItemId)
    | FindAbsent(worker: WorkerId)
    | Inspect(worker: WorkerId, found: Inspection)
    | IntendChange(worker: WorkerId, child: ItemId, live: Row, reading: RuleReading)
    | RequestChange(worker: WorkerId)
    | ConcludeChange(worker: WorkerId, status: RuleStatus)
    | FinishCleanup(worker: WorkerId, live: Row, references: set<Path>)
    | Intend(worker: WorkerId)
    | SendDelete(worker: WorkerId, live: Row)
    | Answer(worker: WorkerId, outcome: ItemStatus, closed: Reviews.Database, related: Reviews.Database)
    | GiveUp(worker: WorkerId)
    | Finish(worker: WorkerId)
    | Crash(worker: WorkerId)
    | StartRecovery(batch: BatchId)
    | Recover(batch: BatchId)
    | AbandonRecovery(batch: BatchId)
    | Confirm(batch: BatchId, user: UserId, ticket: string, selected: set<ItemId>, target: BatchId,
              copies: map<ItemId, ItemId>)
    | ApproveCleanup(item: ItemId, user: UserId)
    | RejectCleanup(item: ItemId)
    | Revalidate(item: ItemId, user: UserId)
    | CancelBatch(batch: BatchId)
    | CancelCleanup(item: ItemId)
    | Reconcile(batch: BatchId)
    | Review(step: Reviews.Step, after: Reviews.Database)
    | ChangeSettings(settings: Settings)
    | ChangeAround(around: Surroundings)
    | Tick(now: Time)

  // ----- Reading the state -----

  function Latest(s: State): Reviews.Database
    requires s.findings != []
  {
    s.findings[|s.findings| - 1]
  }

  /** The finding an item is about, in one of the states the findings went through. */
  function FindingAt(s: State, n: nat, item: Item): Option<FindingRow> {
    if n < |s.findings| && item.key.Some? then Lookup(s.findings[n], item.key.value) else None
  }

  function At<V>(rows: map<Key, V>, key: Option<Key>): Option<V> {
    if key.Some? && key.value in rows then Some(rows[key.value]) else None
  }

  /** The circumstances in which an item's finding is judged. */
  function ContextOf(around: Surroundings, now: Time, item: Item): ReviewContext {
    ReviewContext(now, around.staleHours, around.interval,
                  item.key.Some? && item.key.value.kind in around.recalculating,
                  item.key.Some? && item.key.value in around.affected,
                  At(around.latest, item.key), At(around.direct, item.key))
  }

  function Context(s: State, item: Item): ReviewContext {
    ContextOf(s.around, s.now, item)
  }

  predicate Working(s: State, w: WorkerId, execute: bool) {
    && w in s.workers && s.workers[w].phase.Looping? && s.workers[w].phase.execute == execute
    && s.workers[w].batch in s.batches
  }

  function FlightOf(s: State, w: WorkerId): Flight
    requires w in s.workers
  {
    if s.workers[w].phase.Looping? then s.workers[w].phase.flight else Idle
  }

  /** The worker is at work on this item. */
  predicate On(s: State, w: WorkerId, execute: bool) {
    && Working(s, w, execute) && !FlightOf(s, w).Idle? && FlightOf(s, w).item in s.items
  }

  function Fly(s: State, w: WorkerId, flight: Flight): map<WorkerId, Worker>
    requires w in s.workers && s.workers[w].phase.Looping?
  {
    s.workers[w := s.workers[w].(phase := s.workers[w].phase.(flight := flight))]
  }

  predicate Attended(s: State, b: BatchId) {
    exists w | w in s.workers :: s.workers[w].batch == b
  }

  predicate OpenBatch(status: BatchStatus) {
    status in {PreviewQueued, Checking, PreviewReady, Queued}
  }

  predicate OpenItem(status: ItemStatus) {
    status in {Pending, Verified, CleanupReview, CleanupRecheck}
  }

  predicate AllDone(results: seq<Outcome>) {
    forall k | 0 <= k < |results| :: results[k].status in {RuleUpdated, RuleDeleted}
  }

  predicate SomeDoubt(results: seq<Outcome>) {
    exists k | 0 <= k < |results| :: results[k].status in {RuleSending, RuleUncertain}
  }

  predicate SamePlan(a: seq<Change>, b: seq<Change>) {
    Among(a, b) && Among(b, a)
  }

  // ----- What each step needs -----

  predicate CanSelect(s: State, b: BatchId, chosen: map<ItemId, Key>) {
    && s.findings != [] && b !in s.batches && chosen.Keys !! s.items.Keys
    && forall i | i in chosen ::
         && chosen[i] in Latest(s) && Deletable(chosen[i].kind) && Latest(s)[chosen[i]].review.state == Ready
  }

  predicate MayPreview(s: State, w: WorkerId, preview: Preview) {
    && On(s, w, false) && FlightOf(s, w).Previewing?
    && var item, phase := s.items[FlightOf(s, w).item], s.workers[w].phase;
       preview.Found? ==>
         && var finding := FindingAt(s, phase.since, item);
            && finding.Some?
            && Guard(s.batches[s.workers[w].batch], finding.value, item, s.settings, Context(s, item))
            && (preview.plan != [] ==> finding.value.key.kind == EmptyGroup)
            && (Rechecking(phase, FlightOf(s, w).item, item) ==>
                  preview.live == item.before && SamePlan(item.plan, preview.plan)
                  && CleanupApproved(item, finding.value, s.settings))
  }

  /** In a run that rechecks approved plans, items already verified with a plan are rechecked as well. */
  predicate Rechecking(phase: Phase, i: ItemId, item: Item)
    requires phase.Looping?
  {
    && i in phase.statuses
    && (|| phase.statuses[i] == CleanupRecheck
        || (CleanupRecheck in phase.statuses.Values && phase.statuses[i] == Verified && item.plan != []))
  }

  /** Which items a preview run looks at: all but withdrawn ones, or only approved plans to recheck. */
  predicate Previewed(phase: Phase, i: ItemId)
    requires phase.Looping? && i in phase.statuses
  {
    && phase.statuses[i] !in {ItemCancelled, Delegated}
    && (CleanupRecheck in phase.statuses.Values ==> phase.statuses[i] in {CleanupRecheck, Verified})
  }

  function PathsOf(plan: seq<Change>): set<Path> {
    set change | change in plan :: change.path
  }

  /** A live check refuses references except to groups without members, which get one planned change for each. */
  predicate Acceptable(found: Inspection, item: Item, kind: Kind) {
    && found.live == item.before && PathsOf(found.plan) == found.references
    && (found.references != {} ==> kind == EmptyGroup)
  }

  predicate MayInspect(s: State, w: WorkerId, found: Inspection) {
    && On(s, w, true) && FlightOf(s, w).Inspecting?
    && var item, batch := s.items[FlightOf(s, w).item], s.batches[s.workers[w].batch];
       var finding := FindingAt(s, s.workers[w].phase.since, item);
       && finding.Some? && Guard(batch, finding.value, item, s.settings, Context(s, item))
       && Authorized(batch, item, finding.value, s.settings, Context(s, item), s.now)
       && Acceptable(found, item, finding.value.key.kind)
       && if item.plan == [] then found.plan == []
          else SamePlan(item.plan, found.plan) && CleanupApproved(item, finding.value, s.settings) && item.results == []
  }

  /** The rule and its policy are as approved, but for fields NSX maintains; a rule to be deleted is unused. */
  predicate Unaltered(change: Change, reading: RuleReading) {
    && Stable(change.before) == Stable(reading.rule) && Get(reading.rule, "_revision").Num?
    && StablePolicy(change.policy) == StablePolicy(reading.policy) && !Protected(reading.policy)
    && (change.after == None ==> reading.users == {})
  }

  /** What is read right before a planned rule change: the stored rows, the object and the rule. */
  datatype Circumstances = Circumstances(
    batch: Batch, finding: Option<FindingRow>, settings: Settings, around: Surroundings, now: Time, live: Row,
    reading: RuleReading)

  /** Everything is checked again before each planned change. */
  predicate MayChange(item: Item, c: Circumstances)
    requires |item.results| < |item.plan|
  {
    var context := ContextOf(c.around, c.now, item);
    && c.finding.Some? && Guard(c.batch, c.finding.value, item, c.settings, context) && c.settings.enabled
    && Authorized(c.batch, item, c.finding.value, c.settings, context, c.now)
    && CleanupApproved(item, c.finding.value, c.settings)
    && c.live == item.before && Unaltered(item.plan[|item.results|], c.reading)
  }

  predicate MayIntendChange(s: State, w: WorkerId, child: ItemId, live: Row, reading: RuleReading) {
    && On(s, w, true) && FlightOf(s, w).Cleaning? && s.findings != []
    && var item, batch := s.items[FlightOf(s, w).item], s.batches[s.workers[w].batch];
       && |item.results| < |item.plan|
       && MayChange(item, Circumstances(batch, FindingAt(s, |s.findings| - 1, item), s.settings, s.around, s.now, live, reading))
       && child !in s.items
       && (item.plan[|item.results|].after == None ==>
             forall other | other in s.items && s.items[other].batch == item.batch ::
               s.items[other].path != item.plan[|item.results|].path)
  }

  /** The last recorded intent is the one in hand. */
  predicate InChange(s: State, w: WorkerId, requested: bool) {
    && On(s, w, true) && FlightOf(s, w).Changing? && FlightOf(s, w).requested == requested
    && s.items[FlightOf(s, w).item].results != []
  }

  /** After the last change the live check is repeated, now without tolerating any reference. */
  predicate MayFinishCleanup(s: State, w: WorkerId, live: Row, references: set<Path>) {
    && On(s, w, true) && FlightOf(s, w).Cleaning?
    && var item := s.items[FlightOf(s, w).item];
       var finding := FindingAt(s, FlightOf(s, w).seen, item);
       && |item.results| == |item.plan| && finding.Some? && ApprovalsValid(finding.value, Context(s, item))
       && live == item.before && references == {}
  }

  /** The last transaction before the DELETE: everything is checked again on the locked finding. The executor's
      eligibility is computed from the finding as last seen. */
  predicate MaySend(s: State, w: WorkerId, live: Row) {
    && On(s, w, true) && FlightOf(s, w).Intended? && s.findings != []
    && var item, batch := s.items[FlightOf(s, w).item], s.batches[s.workers[w].batch];
       var locked, seen := FindingAt(s, |s.findings| - 1, item), FindingAt(s, FlightOf(s, w).seen, item);
       && locked.Some? && Guard(batch, locked.value, item, s.settings, Context(s, item))
       && s.settings.enabled
       && seen.Some? && Authorized(batch, item, seen.value, s.settings, Context(s, item), s.now)
       && live == item.before
       && (item.plan != [] ==> CleanupApproved(item, locked.value, s.settings))
  }

  predicate MayGiveUp(s: State, w: WorkerId) {
    && On(s, w, true) && !FlightOf(s, w).Requested?
    && !(FlightOf(s, w).Changing? && FlightOf(s, w).requested)
  }

  predicate MayConfirm(s: State, b: BatchId, user: UserId, ticket: string, selected: set<ItemId>) {
    && b in s.batches && s.batches[b].status == PreviewReady && s.findings != []
    && !Blank(ticket) && |ticket| <= 255 && selected != {}
    && forall i | i in selected ::
         && i in s.items && s.items[i].batch == b && s.items[i].status == Verified
         && s.items[i].verifiedAt.Some? && s.now - s.items[i].verifiedAt.value <= PREVIEW_WINDOW
         && var finding := FindingAt(s, |s.findings| - 1, s.items[i]);
            && finding.Some?
            && CanExecute(Some(user), s.batches[b], s.items[i], finding.value, s.settings, Context(s, s.items[i]))
  }

  /** Nothing else of the request is verified or still under cleanup review. */
  predicate TakesAll(s: State, b: BatchId, selected: set<ItemId>) {
    forall i | i in s.items && s.items[i].batch == b ::
      && (s.items[i].status == Verified ==> i in selected)
      && s.items[i].status !in {CleanupReview, CleanupRecheck}
  }

  /** New rows, one for each selected item. */
  predicate FreshCopies(s: State, selected: set<ItemId>, target: BatchId, copies: map<ItemId, ItemId>) {
    && target !in s.batches && copies.Keys !! s.items.Keys && copies.Values == selected
    && forall i, j | i in copies && j in copies :: copies[i] == copies[j] ==> i == j
  }

  predicate UnderReview(s: State, i: ItemId, status: ItemStatus) {
    && i in s.items && s.items[i].batch in s.batches && s.findings != []
    && s.batches[s.items[i].batch].status == PreviewReady
    && s.items[i].status == status && s.items[i].plan != []
  }

  predicate MayApproveCleanup(s: State, i: ItemId, user: UserId) {
    && UnderReview(s, i, CleanupReview)
    && var item := s.items[i];
       var finding := FindingAt(s, |s.findings| - 1, item);
       && finding.Some? && Guard(s.batches[item.batch], finding.value, item, s.settings, Context(s, item))
       && user in s.settings.permitted && user !in Actors(item.approvals)
       && CleanupSound(item, finding.value, s.settings)
  }

  predicate MayRevalidate(s: State, i: ItemId, user: UserId) {
    && UnderReview(s, i, Verified)
    && var item := s.items[i];
       var finding := FindingAt(s, |s.findings| - 1, item);
       && finding.Some? && CanExecute(Some(user), s.batches[item.batch], item, finding.value, s.settings, Context(s, item))
       && Guard(s.batches[item.batch], finding.value, item, s.settings, Context(s, item))
       && CleanupApproved(item, finding.value, s.settings)
  }

  predicate PreviewStep(step: Step) {
    step.Select? || step.Claim? || step.Load? || step.BeginPreview? || step.EndPreview?
  }

  predicate CleanupStep(step: Step) {
    step.Inspect? || step.IntendChange? || step.RequestChange? || step.ConcludeChange? || step.FinishCleanup?
  }

  predicate ExecutionStep(step: Step) {
    step.Take? || step.FindAbsent? || step.Intend? || step.SendDelete? || step.Answer? || step.GiveUp?
  }

  predicate EndingStep(step: Step) {
    step.Finish? || step.Crash? || step.StartRecovery? || step.Recover? || step.AbandonRecovery?
  }

  predicate RequestStep(step: Step) {
    || step.Confirm? || step.ApproveCleanup? || step.RejectCleanup? || step.Revalidate? || step.CancelBatch?
    || step.CancelCleanup? || step.Reconcile?
  }

  predicate PreviewEnabled(s: State, step: Step)
    requires PreviewStep(step)
  {
    match step
    case Select(b, _, chosen) => CanSelect(s, b, chosen)
    case Claim(b, w) => b in s.batches && s.batches[b].status in {PreviewQueued, Queued} && w !in s.workers
    case Load(w) => w in s.workers && s.workers[w].phase.Starting? && s.workers[w].batch in s.batches && s.findings != []
    case BeginPreview(w, i) =>
      && Working(s, w, false) && FlightOf(s, w).Idle? && i in s.workers[w].phase.statuses && i in s.items
      && Previewed(s.workers[w].phase, i)
    case EndPreview(w, preview) => MayPreview(s, w, preview)
  }

  predicate CleanupEnabled(s: State, step: Step)
    requires CleanupStep(step)
  {
    match step
    case Inspect(w, found) => MayInspect(s, w, found)
    case IntendChange(w, child, live, reading) => MayIntendChange(s, w, child, live, reading)
    case RequestChange(w) => InChange(s, w, false)
    case ConcludeChange(w, status) => InChange(s, w, true) && status != RuleSending
    case FinishCleanup(w, live, references) => MayFinishCleanup(s, w, live, references)
  }

  predicate ExecutionEnabled(s: State, step: Step)
    requires ExecutionStep(step)
  {
    match step
    case Take(w, i) =>
      && Working(s, w, true) && FlightOf(s, w).Idle? && i in s.workers[w].phase.statuses
      && i in s.items && s.items[i].status == Verified
    case FindAbsent(w) => On(s, w, true) && FlightOf(s, w).Inspecting?
    case Intend(w) => On(s, w, true) && FlightOf(s, w).Checked?
    case SendDelete(w, live) => MaySend(s, w, live)
    case Answer(w, status, _, _) =>
      On(s, w, true) && FlightOf(s, w).Requested? && status in {Deleted, Failed, Uncertain} && s.findings != []
    case GiveUp(w) => MayGiveUp(s, w)
  }

  predicate EndingEnabled(s: State, step: Step)
    requires EndingStep(step)
  {
    match step
    case Finish(w) =>
      && w in s.workers && s.workers[w].batch in s.batches && s.workers[w].phase.Looping? && FlightOf(s, w).Idle?
    case Crash(w) => w in s.workers
    case StartRecovery(b) =>
      b in s.batches && s.batches[b].status in {Checking, Running} && !Attended(s, b) && b !in s.recovering
    case Recover(b) => b in s.recovering && b in s.batches
    case AbandonRecovery(b) => b in s.recovering
  }

  predicate RequestEnabled(s: State, step: Step)
    requires RequestStep(step)
  {
    match step
    case Confirm(b, user, ticket, selected, target, copies) =>
      && MayConfirm(s, b, user, ticket, selected)
      && if TakesAll(s, b, selected) then target == b else FreshCopies(s, selected, target, copies)
    case ApproveCleanup(i, user) => MayApproveCleanup(s, i, user)
    case RejectCleanup(i) => UnderReview(s, i, CleanupReview)
    case Revalidate(i, user) => MayRevalidate(s, i, user)
    case CancelBatch(b) =>
      && b in s.batches && OpenBatch(s.batches[b].status)
      && forall i | i in s.items && s.items[i].batch == b :: s.items[i].results == []
    case CancelCleanup(i) =>
      && i in s.items && s.items[i].batch in s.batches && OpenBatch(s.batches[s.items[i].batch].status)
      && OpenItem(s.items[i].status) && s.items[i].plan != [] && s.items[i].results == []
    case Reconcile(b) => b in s.batches && s.batches[b].status == Cancelling
  }

  ghost predicate Enabled(s: State, step: Step) {
    if PreviewStep(step) then PreviewEnabled(s, step)
    else if CleanupStep(step) then CleanupEnabled(s, step)
    else if ExecutionStep(step) then ExecutionEnabled(s, step)
    else if EndingStep(step) then EndingEnabled(s, step)
    else if RequestStep(step) then RequestEnabled(s, step)
    else
      match step
      case Tick(now) => s.now <= now
      case _ => true
  }

  // ----- What each step does -----

  /** Rows are never lost, and a copy never changes what it is a copy of. */
  predicate SameOrigins(before: map<ItemId, Item>, after: map<ItemId, Item>) {
    forall i | i in before :: i in after && after[i].origin == before[i].origin
  }

  /** Nothing is sent and no finding changes. */
  predicate Silent(s: State, t: State) {
    t.log == s.log && t.findings == s.findings && t.reviews == s.reviews && SameOrigins(s.items, t.items)
  }

  function Keep(s: State, i: ItemId, item: Item): map<ItemId, Item> {
    s.items[i := item]
  }

  function ItemsOf(s: State, b: BatchId): set<ItemId> {
    set i | i in s.items && s.items[i].batch == b
  }

  function Selected(s: State, b: BatchId, requester: UserId, chosen: map<ItemId, Key>): (t: State)
    requires CanSelect(s, b, chosen)
    ensures Silent(s, t)
  {
    s.(batches := s.batches[b := Batch(PreviewQueued, Some(requester), s.settings.manager, "", None, None)],
       items := s.items + map i | i in chosen ::
                  Item(b, None, chosen[i].path, Some(chosen[i]), Latest(s)[chosen[i]].revision, Pending, None,
                       map[], [], [], []))
  }

  function Claimed(s: State, b: BatchId, w: WorkerId): (t: State)
    requires b in s.batches
    ensures Silent(s, t)
  {
    var status := if s.batches[b].status == PreviewQueued then Checking else Running;
    s.(batches := s.batches[b := s.batches[b].(status := status)], workers := s.workers[w := Worker(b, Starting)])
  }

  function Loaded(s: State, w: WorkerId): (t: State)
    requires w in s.workers && s.workers[w].batch in s.batches && s.findings != []
    ensures Silent(s, t)
  {
    var b := s.workers[w].batch;
    var statuses := map i | i in ItemsOf(s, b) :: s.items[i].status;
    if s.batches[b].status !in {Checking, Running} then s.(workers := s.workers - {w})
    else s.(workers := s.workers[w := Worker(b, Looping(s.batches[b].status == Running, statuses, |s.findings| - 1, Idle))])
  }

  function PreviewedItem(item: Item, recheck: bool, preview: Preview, now: Time): Item {
    match preview
    case NoObject => item.(status := AlreadyAbsent)
    case Refused => item.(status := ItemStatus.Blocked)
    case Found(live, plan) =>
      if recheck || plan == [] then item.(status := Verified, before := live, verifiedAt := Some(now))
      else item.(status := CleanupReview, before := live, verifiedAt := Some(now), plan := plan, approvals := [])
  }

  /** A late result never revives a cancelled item. */
  function PreviewEnded(s: State, w: WorkerId, preview: Preview): (t: State)
    requires On(s, w, false) && FlightOf(s, w).Previewing?
    ensures Silent(s, t)
  {
    var i, b := FlightOf(s, w).item, s.workers[w].batch;
    var rest := s.(workers := Fly(s, w, Idle));
    if s.batches[b].status in {Cancelling, Cancelled} || s.items[i].status == ItemCancelled then rest
    else rest.(items := Keep(s, i, PreviewedItem(s.items[i], Rechecking(s.workers[w].phase, i, s.items[i]), preview, s.now)))
  }

  /** Moves the item in hand to a new status, and the worker on. */
  function Moved(s: State, w: WorkerId, status: ItemStatus, flight: Flight): (t: State)
    requires On(s, w, true)
    ensures Silent(s, t)
  {
    var i := FlightOf(s, w).item;
    s.(items := Keep(s, i, s.items[i].(status := status)), workers := Fly(s, w, flight))
  }

  function AuthorityOf(s: State, w: WorkerId, live: Row, reading: Option<RuleReading>): Authority
    requires On(s, w, true) && s.findings != []
  {
    Authority(s.batches[s.workers[w].batch], s.items[FlightOf(s, w).item], s.settings, s.around, s.now,
              |s.findings| - 1, live, reading)
  }

  /** The intent to change a rule is stored, with a row of its own for a rule to be deleted. */
  function ChangeIntended(s: State, w: WorkerId, child: ItemId, live: Row, reading: RuleReading): (t: State)
    requires On(s, w, true) && FlightOf(s, w).Cleaning? && s.findings != [] && child !in s.items
    requires |s.items[FlightOf(s, w).item].results| < |s.items[FlightOf(s, w).item].plan|
    ensures Silent(s, t)
  {
    var i := FlightOf(s, w).item;
    var item := s.items[i];
    var change := item.plan[|item.results|];
    var removes := change.after == None;
    var intended := Keep(s, i, item.(results := item.results + [Outcome(change.path, removes, RuleSending)]));
    var row := Item(item.batch, None, change.path, None, 0, Sending, None, change.before, [], [], []);
    s.(items := if removes then intended[child := row] else intended,
       workers := Fly(s, w, Changing(i, |s.findings| - 1, false, if removes then Some(child) else None,
                                     AuthorityOf(s, w, live, Some(reading)))))
  }

  function ChangeRequested(s: State, w: WorkerId): State
    requires InChange(s, w, false)
  {
    var flight := FlightOf(s, w);
    s.(workers := Fly(s, w, flight.(requested := true)),
       log := s.log + [RuleRequest(flight.item, |s.items[flight.item].results| - 1, flight.authority)])
  }

  function ChildStatus(status: RuleStatus): ItemStatus {
    match status
    case RuleUpdated | RuleDeleted => Deleted
    case RuleFailed => Failed
    case RuleSending | RuleUncertain => Uncertain
  }

  function ChangeConcluded(s: State, w: WorkerId, status: RuleStatus): (t: State)
    requires InChange(s, w, true)
    ensures Silent(s, t)
  {
    var flight := FlightOf(s, w);
    var item := s.items[flight.item];
    var n := |item.results| - 1;
    var concluded := Keep(s, flight.item, item.(results := item.results[n := item.results[n].(status := status)]));
    s.(items := if flight.child.Some? && flight.child.value in concluded && flight.child.value != flight.item
                then concluded[flight.child.value := concluded[flight.child.value].(status := ChildStatus(status))]
                else concluded,
       workers := Fly(s, w, if status in {RuleUpdated, RuleDeleted} then Cleaning(flight.item, flight.seen)
                            else Broken(flight.item)))
  }

  /** A live check was passed; the worker goes on with the plan, or to the deletion itself. */
  function CheckPassed(s: State, w: WorkerId, live: Row, references: set<Path>, flight: Flight): State
    requires On(s, w, true)
  {
    s.(workers := Fly(s, w, flight), log := s.log + [FreshCheck(FlightOf(s, w).item, live, references)])
  }

  function ObjectRequested(s: State, w: WorkerId, live: Row): State
    requires On(s, w, true) && s.findings != []
  {
    var i := FlightOf(s, w).item;
    s.(workers := Fly(s, w, Requested(i)), log := s.log + [ObjectRequest(i, AuthorityOf(s, w, live, None))])
  }

  /** The object of this item is verified to be gone, and its finding is to be closed. */
  predicate Closes(s: State, w: WorkerId, status: ItemStatus) {
    On(s, w, true) && status == Deleted && s.items[FlightOf(s, w).item].key.Some?
  }

  function Closings(s: State, w: WorkerId): (Reviews.Step, Reviews.Step)
    requires On(s, w, true) && s.items[FlightOf(s, w).item].key.Some?
  {
    var key, ticket := s.items[FlightOf(s, w).item].key.value, s.batches[s.workers[w].batch].ticket;
    (Reviews.CloseDeleted(key, ticket), Reviews.CloseRelated(key, ticket))
  }

  /** A verified deletion closes the finding and its siblings in the same transaction. */
  function Answered(s: State, w: WorkerId, status: ItemStatus, closed: Reviews.Database, related: Reviews.Database): State
    requires On(s, w, true)
  {
    var rest := Moved(s, w, status, Idle);
    if !Closes(s, w, status) then rest
    else rest.(findings := s.findings + [closed] + [related],
               reviews := s.reviews + [Closings(s, w).0] + [Closings(s, w).1])
  }

  function Finished(s: State, w: WorkerId): (t: State)
    requires w in s.workers && s.workers[w].batch in s.batches && s.workers[w].phase.Looping?
    ensures Silent(s, t)
  {
    var b := s.workers[w].batch;
    var status := if s.batches[b].status in {Cancelling, Cancelled} then Cancelled
                  else if s.workers[w].phase.execute then Completed else PreviewReady;
    s.(batches := s.batches[b := s.batches[b].(status := status)], workers := s.workers - {w})
  }

  function RecoveredItem(item: Item, stage: nat): (recovered: Item)
    ensures recovered == item.(status := recovered.status)
  {
    if stage == 0 && item.status == Sending then item.(status := Uncertain)
    else if stage == 1 && (OpenItem(item.status) || item.status == Validating) then item.(status := ItemStatus.Blocked)
    else if stage == 2 && item.results != [] && item.status != Deleted then item.(status := Uncertain)
    else item
  }

  /** Recovery after a worker stopped: three updates of the items, then the request itself. */
  function RecoveryStep(s: State, b: BatchId): (t: State)
    requires b in s.recovering && b in s.batches
    ensures Silent(s, t)
  {
    var stage := s.recovering[b];
    if stage >= 3 then
      s.(batches := s.batches[b := s.batches[b].(status := Interrupted)], recovering := s.recovering - {b})
    else
      s.(items := map i | i in s.items :: if s.items[i].batch == b then RecoveredItem(s.items[i], stage) else s.items[i],
         recovering := s.recovering[b := stage + 1])
  }

  function Confirmed(batch: Batch, user: UserId, ticket: string, now: Time): Batch {
    batch.(status := Queued, ticket := ticket, confirmedAt := Some(now), confirmedBy := Some(user))
  }

  function Split(items: map<ItemId, Item>, selected: set<ItemId>, target: BatchId, copies: map<ItemId, ItemId>):
      (parted: map<ItemId, Item>)
    requires copies.Keys !! items.Keys && forall c | c in copies :: copies[c] in items
    ensures SameOrigins(items, parted)
  {
    map i | i in items.Keys + copies.Keys ::
      if i in copies then items[copies[i]].(batch := target, origin := Some(copies[i]), results := [])
      else if i in selected then items[i].(status := Delegated) else items[i]
  }

  /** Confirming part of a request moves that part into a request of its own. */
  function ConfirmedState(s: State, b: BatchId, user: UserId, ticket: string, selected: set<ItemId>, target: BatchId,
                          copies: map<ItemId, ItemId>): (t: State)
    requires b in s.batches && selected <= s.items.Keys
    requires !TakesAll(s, b, selected) ==> FreshCopies(s, selected, target, copies)
    ensures Silent(s, t)
  {
    var confirmed := Confirmed(s.batches[b], user, ticket, s.now);
    if TakesAll(s, b, selected) then s.(batches := s.batches[b := confirmed])
    else
      assert forall c | c in copies :: copies[c] in copies.Values;
      s.(batches := s.batches[target := confirmed], items := Split(s.items, selected, target, copies))
  }

  function CleanupDecided(s: State, i: ItemId, user: UserId): (t: State)
    requires i in s.items && s.items[i].batch in s.batches && s.findings != []
    requires FindingAt(s, |s.findings| - 1, s.items[i]).Some?
    ensures Silent(s, t)
  {
    var item := s.items[i];
    var finding := FindingAt(s, |s.findings| - 1, item).value;
    var approved := item.(approvals := item.approvals + [CleanupApproval(user, DigestOf(item))]);
    if |Actors(approved.approvals)| >= CleanupRequirement(finding, s.settings) then Requeued(s, i, approved)
    else s.(items := Keep(s, i, approved))
  }

  /** Approved plans are verified again before they can be confirmed. */
  function Requeued(s: State, i: ItemId, item: Item): (t: State)
    requires item.batch in s.batches && i in s.items && item.origin == s.items[i].origin
    ensures Silent(s, t)
  {
    s.(items := Keep(s, i, item.(status := CleanupRecheck)),
       batches := s.batches[item.batch := s.batches[item.batch].(status := PreviewQueued)])
  }

  function CancelledState(s: State, b: BatchId): (t: State)
    requires b in s.batches
    ensures Silent(s, t)
  {
    var status := if s.batches[b].status == Checking then Cancelling else Cancelled;
    s.(batches := s.batches[b := s.batches[b].(status := status)],
       items := map i | i in s.items ::
                  if s.items[i].batch == b && OpenItem(s.items[i].status) then s.items[i].(status := ItemCancelled)
                  else s.items[i])
  }

  ghost function AfterPreview(s: State, step: Step): State
    requires PreviewStep(step) && PreviewEnabled(s, step)
  {
    hide Guard, CleanupApproved, SamePlan, CanSelect, FindingAt, Previewed;
    match step
    case Select(b, requester, chosen) => Selected(s, b, requester, chosen)
    case Claim(b, w) => Claimed(s, b, w)
    case Load(w) => Loaded(s, w)
    case BeginPreview(w, i) => s.(workers := Fly(s, w, Previewing(i)))
    case EndPreview(w, preview) => PreviewEnded(s, w, preview)
  }

  ghost function AfterCleanup(s: State, step: Step): State
    requires CleanupStep(step) && CleanupEnabled(s, step)
  {
    hide Guard, Authorized, CleanupApproved, SamePlan, ApprovalsValid, FindingAt, Acceptable, Unaltered;
    match step
    case Inspect(w, found) =>
      var i, since := FlightOf(s, w).item, s.workers[w].phase.since;
      CheckPassed(s, w, found.live, found.references,
                  if s.items[i].plan == [] then Checked(i, since) else Cleaning(i, since))
    case IntendChange(w, child, live, reading) => ChangeIntended(s, w, child, live, reading)
    case RequestChange(w) => ChangeRequested(s, w)
    case ConcludeChange(w, status) => ChangeConcluded(s, w, status)
    case FinishCleanup(w, live, references) =>
      CheckPassed(s, w, live, references, Checked(FlightOf(s, w).item, FlightOf(s, w).seen))
  }

  ghost function AfterExecution(s: State, step: Step): State
    requires ExecutionStep(step) && ExecutionEnabled(s, step)
  {
    hide Guard, Authorized, CleanupApproved, FindingAt, SomeDoubt;
    match step
    case Take(w, i) => s.(items := Keep(s, i, s.items[i].(status := Validating)), workers := Fly(s, w, Inspecting(i)))
    case FindAbsent(w) => Moved(s, w, AlreadyAbsent, Idle)
    case Intend(w) => Moved(s, w, Sending, Intended(FlightOf(s, w).item, FlightOf(s, w).seen))
    case SendDelete(w, live) => ObjectRequested(s, w, live)
    case Answer(w, status, closed, related) => Answered(s, w, status, closed, related)
    case GiveUp(w) =>
      var doubt := SomeDoubt(s.items[FlightOf(s, w).item].results);
      Moved(s, w, if doubt then Uncertain else ItemStatus.Blocked, Idle)
  }

  ghost function AfterEnding(s: State, step: Step): State
    requires EndingStep(step) && EndingEnabled(s, step)
  {
    hide Attended;
    match step
    case Finish(w) => Finished(s, w)
    case Crash(w) => s.(workers := s.workers - {w})
    case StartRecovery(b) => s.(recovering := s.recovering[b := 0])
    case Recover(b) => RecoveryStep(s, b)
    case AbandonRecovery(b) => s.(recovering := s.recovering - {b})
  }

  ghost function AfterRequest(s: State, step: Step): State
    requires RequestStep(step) && RequestEnabled(s, step)
  {
    hide Guard, CanExecute, CleanupApproved, CleanupSound, TakesAll, FreshCopies, FindingAt, OpenBatch, OpenItem, Blank;
    match step
    case Confirm(b, user, ticket, selected, target, copies) => ConfirmedState(s, b, user, ticket, selected, target, copies)
    case ApproveCleanup(i, user) => CleanupDecided(s, i, user)
    case RejectCleanup(i) => s.(items := Keep(s, i, s.items[i].(status := CleanupRejected)))
    case Revalidate(i, _) => Requeued(s, i, s.items[i])
    case CancelBatch(b) => CancelledState(s, b)
    case CancelCleanup(i) => s.(items := Keep(s, i, s.items[i].(status := ItemCancelled)))
    case Reconcile(b) => s.(batches := s.batches[b := s.batches[b].(status := BatchStatus.Cancelled)])
  }

  ghost function After(s: State, step: Step): State
    requires Enabled(s, step)
  {
    hide PreviewEnabled, CleanupEnabled, ExecutionEnabled, EndingEnabled, RequestEnabled;
    if PreviewStep(step) then AfterPreview(s, step)
    else if CleanupStep(step) then AfterCleanup(s, step)
    else if ExecutionStep(step) then AfterExecution(s, step)
    else if EndingStep(step) then AfterEnding(s, step)
    else if RequestStep(step) then AfterRequest(s, step)
    else
      match step
      case Review(review, after) => s.(findings := s.findings + [after], reviews := s.reviews + [review])
      case ChangeSettings(settings) => s.(settings := settings)
      case ChangeAround(around) => s.(around := around)
      case Tick(now) => s.(now := now)
  }

  predicate Initial(s: State) {
    s.batches == map[] && s.items == map[] && s.workers == map[] && s.recovering == map[]
    && s.findings == [map[]] && s.reviews == [] && s.log == []
  }

  /** The findings change as the writer at work changes them. */
  ghost predicate Writes(before: Reviews.Database, after: Reviews.Database, step: Reviews.Step) {
    forall key :: Lookup(after, key) == Reviews.StepOn(before, key, step)
  }

  ghost predicate ReviewsFollow(s: State, step: Step) {
    && (step.Review? ==> s.findings != [] && Writes(Latest(s), step.after, step.step))
    && (step.Answer? && s.findings != [] && Closes(s, step.worker, step.outcome) ==>
          && Writes(Latest(s), step.closed, Closings(s, step.worker).0)
          && Writes(step.closed, step.related, Closings(s, step.worker).1))
  }

  ghost predicate Run(states: seq<State>, steps: seq<Step>) {
    hide Enabled;
    && |states| == |steps| + 1
    && Initial(states[0])
    && forall i :: 0 <= i < |steps| ==>
         Enabled(states[i], steps[i]) && ReviewsFollow(states[i], steps[i]) && states[i + 1] == After(states[i], steps[i])
  }
}
