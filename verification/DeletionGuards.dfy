/** Who may execute a deletion, and the checks repeated before every change to NSX. */
module DeletionGuards {
  import opened Common
  import opened FindingModel
  import opened FindingWorkflow
  import opened ReviewRules
  import opened CleanupPlan

  type BatchId = nat
  type ItemId = nat

  datatype BatchStatus =
    | PreviewQueued | Checking | PreviewReady | Queued | Running | Completed | Interrupted | Cancelling | Cancelled

  /** A deletion request. Confirmation fixes the ticket, the time and the executor. */
  datatype Batch = Batch(
    status: BatchStatus,
    requester: Option<UserId>,
    manager: string,
    ticket: string,
    confirmedAt: Option<Time>,
    confirmedBy: Option<UserId>)

  datatype ItemStatus =
    | Pending | Verified | CleanupReview | CleanupRecheck | CleanupRejected | Delegated
    | Validating | Sending | Deleted | Failed | Uncertain | Blocked | AlreadyAbsent | ItemCancelled

  datatype RuleStatus = RuleSending | RuleUpdated | RuleDeleted | RuleFailed | RuleUncertain

  /** What is recorded about one planned rule change, from before it is requested. */
  datatype Outcome = Outcome(path: Path, removes: bool, status: RuleStatus)

  /** A cleanup approval binds the whole plan, the group and the finding's revision. */
  datatype CleanupDigest = CleanupDigest(plan: seq<Change>, group: Row, key: Option<Key>, revision: nat)

  datatype CleanupApproval = CleanupApproval(actor: UserId, digest: CleanupDigest)

  /** One object of a request. Items that record the deletion of a rule during a cleanup have no finding. */
  datatype Item = Item(
    batch: BatchId,
    origin: Option<ItemId>,
    path: Path,
    key: Option<Key>,
    revision: nat,
    status: ItemStatus,
    verifiedAt: Option<Time>,
    before: Row,
    plan: seq<Change>,
    approvals: seq<CleanupApproval>,
    results: seq<Outcome>)

  datatype Mode = RequesterOnly | EitherApprover | AnyParticipant

  datatype Settings = Settings(
    approvals: ApprovalPolicy,
    permitted: set<UserId>,
    standard: Mode,
    groups: Option<Mode>,
    services: Option<Mode>,
    rules: Option<Mode>,
    policies: Option<Mode>,
    manager: string,
    enabled: bool)

  // ----- Approvals -----

  predicate Deletable(kind: Kind) {
    kind in {Unused, UnusedService, EmptyGroup, ZeroHits, Disabled, EmptyPolicy}
  }

  function Decisions(finding: FindingRow): seq<Option<Decision>> {
    if finding.review.required == 2 then [finding.review.approvals.owner, finding.review.approvals.second]
    else [finding.review.approvals.owner]
  }

  /** The finding carries every approval it needs, for the evidence it shows, from its current owner first. */
  predicate ApprovalsValid(finding: FindingRow, context: ReviewContext) {
    var review, decisions := finding.review, Decisions(finding);
    && Deletable(finding.key.kind) && review.state == Ready && review.owner.Some?
    && review.required in {1, 2}
    && (forall d | d in decisions ::
          d.Some? && d.value.fingerprint == ReviewFingerprintOf(finding.key.kind, finding.evidence))
    && review.approvals.owner.value.actor == review.owner.value
    && (review.required == 2 ==> review.approvals.owner.value.actor != review.approvals.second.value.actor)
    && var readiness := ApprovalReadiness(finding, context, true);
       && readiness.Supported?
       && !CoverageDiffers(finding.key.kind, review.approvals, readiness.coverage)
       && (readiness.manual ==> forall d | d in decisions :: d.value.manualVerified)
  }

  /** What valid approvals mean, in the fields themselves. */
  lemma ApprovalsValidIff(finding: FindingRow, context: ReviewContext)
    ensures ApprovalsValid(finding, context) <==>
              && ApprovedByOwner(finding) && Decidable(finding, context, true)
              && CoverageKept(finding, Source(context, true).value.search)
              && VerifiedByHand(finding, Source(context, true).value.search)
  {
    hide Evident, TypeLimited, ApprovalReadiness, ReviewFingerprintOf, TypesIn, CoverageDiffers;
    ReadinessIff(finding, context, true);
    DecisionsAre(finding);
    if ApprovalReadiness(finding, context, true).Supported? {
      ManualIff(finding, context, true);
      var search := Source(context, true).value.search;
      if finding.key.kind in {Unused, UnusedService} && finding.review.approvals.owner.Some? {
        CoverageDiffersIff(finding.key.kind, finding.review.approvals, search);
      } else {
        CoverageMattersOnlyToUnused(finding.key.kind, finding.review.approvals,
                                    ApprovalReadiness(finding, context, true).coverage);
      }
    }
  }

  lemma DecisionsAre(finding: FindingRow)
    ensures forall d :: d in Decisions(finding) <==>
              d == finding.review.approvals.owner || (finding.review.required == 2 && d == finding.review.approvals.second)
  {
    assert finding.review.approvals.owner in Decisions(finding);
  }

  function Larger(a: int, b: int): int {
    if a < b then b else a
  }

  /** A cleanup needs as many approvals as the finding, a group and a rule would. */
  function CleanupRequirement(finding: FindingRow, settings: Settings): int {
    Larger(finding.review.required,
           Larger(RequiredApprovals(EmptyGroup, settings.approvals), RequiredApprovals(Disabled, settings.approvals)))
  }

  function DigestOf(item: Item): CleanupDigest {
    CleanupDigest(item.plan, item.before, item.key, item.revision)
  }

  function Actors(approvals: seq<CleanupApproval>): set<UserId> {
    set a | a in approvals :: a.actor
  }

  /** Every cleanup approval is for exactly this plan and from somebody still permitted. */
  predicate CleanupSound(item: Item, finding: FindingRow, settings: Settings) {
    && (forall a | a in item.approvals :: a.digest == DigestOf(item) && a.actor in settings.permitted)
    && CleanupRequirement(finding, settings) in {1, 2}
  }

  predicate CleanupApproved(item: Item, finding: FindingRow, settings: Settings) {
    && CleanupSound(item, finding, settings)
    && |Actors(item.approvals)| >= CleanupRequirement(finding, settings)
  }

  // ----- Who may execute -----

  function ModeFor(kind: Kind, settings: Settings): Mode {
    var configured :=
      match kind
      case Unused | EmptyGroup | Membership => settings.groups
      case UnusedService => settings.services
      case ZeroHits | Disabled | Statistics => settings.rules
      case EmptyPolicy | PolicyInventory => settings.policies
      case TagUsage => None;
    if configured.Some? then configured.value else settings.standard
  }

  function Approvers(item: Item, finding: FindingRow): set<UserId> {
    if item.plan != [] then Actors(item.approvals)
    else set d | d in Decisions(finding) && d.Some? :: d.value.actor
  }

  function Requesters(batch: Batch): set<UserId> {
    if batch.requester.Some? then {batch.requester.value} else {}
  }

  function Allowed(mode: Mode, requesters: set<UserId>, approvers: set<UserId>): set<UserId> {
    match mode
    case RequesterOnly => requesters
    case EitherApprover => approvers
    case AnyParticipant => requesters + approvers
  }

  function ModesFor(item: Item, kind: Kind, settings: Settings): seq<Mode> {
    [ModeFor(kind, settings)] + if item.plan != [] then [ModeFor(Disabled, settings)] else []
  }

  /** The user took part, is permitted, and every mode that applies admits them. */
  predicate MayExecute(user: UserId, batch: Batch, item: Item, finding: FindingRow, settings: Settings) {
    && user in settings.permitted
    && user in Requesters(batch) + Approvers(item, finding)
    && forall mode | mode in ModesFor(item, finding.key.kind, settings) ::
         user in Allowed(mode, Requesters(batch), Approvers(item, finding))
  }

  /** Nobody is eligible without valid approvals; otherwise starts from all participants and narrows by each mode
      in turn. */
  method EligibleUsers(batch: Batch, item: Item, finding: FindingRow, settings: Settings, context: ReviewContext)
      returns (eligible: Option<set<UserId>>)
    ensures eligible.Some? <==> ApprovalsValid(finding, context) && (item.plan != [] ==> CleanupApproved(item, finding, settings))
    ensures eligible.Some? ==> ApprovedByOwner(finding)
    ensures forall user :: CanExecute(Some(user), batch, item, finding, settings, context) <==>
              eligible.Some? && user in eligible.value
  {
    if !ApprovalsValid(finding, context) || (item.plan != [] && !CleanupApproved(item, finding, settings)) {
      return None;
    }
    ApprovalsValidIff(finding, context);
    hide ApprovalsValid, CleanupApproved, ApprovedByOwner;
    var requesters, approvers := Requesters(batch), Approvers(item, finding);
    var modes := ModesFor(item, finding.key.kind, settings);
    var users := requesters + approvers;
    for i := 0 to |modes|
      invariant forall user :: user in users <==>
                  && user in requesters + approvers
                  && forall mode | mode in modes[..i] :: user in Allowed(mode, requesters, approvers)
    {
      assert modes[..i + 1] == modes[..i] + [modes[i]];
      users := users * Allowed(modes[i], requesters, approvers);
    }
    assert modes[..|modes|] == modes;
    eligible := Some(users * settings.permitted);
  }

  predicate CanExecute(user: Option<UserId>, batch: Batch, item: Item, finding: FindingRow, settings: Settings,
                       context: ReviewContext)
  {
    && user.Some?
    && ApprovalsValid(finding, context)
    && (item.plan != [] ==> CleanupApproved(item, finding, settings))
    && MayExecute(user.value, batch, item, finding, settings)
  }

  /** The object category's own mode counts, and the standard where there is none. */
  lemma ModeByCategory(kind: Kind, settings: Settings)
    ensures ModeFor(kind, settings) ==
              if kind in {Unused, EmptyGroup, Membership} && settings.groups.Some? then settings.groups.value
              else if kind == UnusedService && settings.services.Some? then settings.services.value
              else if kind in {ZeroHits, Disabled, Statistics} && settings.rules.Some? then settings.rules.value
              else if kind in {EmptyPolicy, PolicyInventory} && settings.policies.Some? then settings.policies.value
              else settings.standard
  {
  }

  predicate Requested(user: UserId, batch: Batch) {
    batch.requester == Some(user)
  }

  /** Approved the cleanup or, where there is none, the finding. */
  predicate TookPart(user: UserId, item: Item, finding: FindingRow) {
    var first, second := finding.review.approvals.owner, finding.review.approvals.second;
    if item.plan != [] then exists i | 0 <= i < |item.approvals| :: item.approvals[i].actor == user
    else
      || (first.Some? && first.value.actor == user)
      || (finding.review.required == 2 && second.Some? && second.value.actor == user)
  }

  predicate Admits(mode: Mode, requested: bool, tookPart: bool) {
    (mode == RequesterOnly ==> requested) && (mode == EitherApprover ==> tookPart)
  }

  /** Execution is for permitted participants whom the mode of the category admits and, for a cleanup, that of
      rules as well. */
  lemma MayExecuteIff(user: UserId, batch: Batch, item: Item, finding: FindingRow, settings: Settings)
    ensures MayExecute(user, batch, item, finding, settings) <==>
              var requested, tookPart := Requested(user, batch), TookPart(user, item, finding);
              && user in settings.permitted && (requested || tookPart)
              && Admits(ModeFor(finding.key.kind, settings), requested, tookPart)
              && (item.plan != [] ==> Admits(ModeFor(Disabled, settings), requested, tookPart))
  {
    hide ModeFor;
    DecisionsAre(finding);
    assert user in Requesters(batch) <==> Requested(user, batch);
    assert user in Approvers(item, finding) <==> TookPart(user, item, finding);
    var modes, own := ModesFor(item, finding.key.kind, settings), ModeFor(finding.key.kind, settings);
    hide Requesters, Approvers, Requested, TookPart;
    assert own in modes && (item.plan != [] ==> ModeFor(Disabled, settings) in modes);
    assert forall mode | mode in modes :: mode == own || (item.plan != [] && mode == ModeFor(Disabled, settings));
  }

  /** A cleanup is approved by permitted people for exactly this plan, group and revision; as many of them, all
      different, as the finding, a group and a rule each need. */
  lemma CleanupApprovedIff(item: Item, finding: FindingRow, settings: Settings)
    ensures CleanupApproved(item, finding, settings) <==>
              && (forall i | 0 <= i < |item.approvals| ::
                    var a := item.approvals[i];
                    && a.digest.plan == item.plan && a.digest.group == item.before && a.digest.key == item.key
                    && a.digest.revision == item.revision && a.actor in settings.permitted)
              && var needs := {finding.review.required as int, RequiredApprovals(EmptyGroup, settings.approvals) as int,
                               RequiredApprovals(Disabled, settings.approvals) as int};
                 && (exists n | n in needs :: n in {1, 2}) && (forall n | n in needs :: n <= 2)
                 && item.approvals != []
                 && (2 in needs ==> exists i, j | 0 <= i < j < |item.approvals| :: item.approvals[i].actor != item.approvals[j].actor)
  {
    hide RequiredApprovals;
    ActorsCount(item.approvals);
  }

  lemma {:induction false} ActorsCount(approvals: seq<CleanupApproval>)
    ensures |Actors(approvals)| >= 1 <==> approvals != []
    ensures |Actors(approvals)| >= 2 <==>
              exists i, j | 0 <= i < j < |approvals| :: approvals[i].actor != approvals[j].actor
  {
    if approvals == [] {
      assert Actors(approvals) == {};
    } else {
      var first := approvals[0].actor;
      assert first in Actors(approvals);
      var others := Actors(approvals) - {first};
      assert |Actors(approvals)| == |others| + 1;
      if others != {} {
        var other :| other in others;
        var j :| 0 <= j < |approvals| && approvals[j].actor == other;
        assert approvals[0].actor != approvals[j].actor;
      }
      if i, j :| 0 <= i < j < |approvals| && approvals[i].actor != approvals[j].actor {
        assert approvals[i].actor in Actors(approvals) && approvals[j].actor in Actors(approvals);
        assert others != {};
      }
    }
  }

  // ----- The repeated checks -----

  /** A removed executor never falls back to the requester. */
  function Responsible(batch: Batch): Option<UserId> {
    if batch.confirmedAt.Some? then batch.confirmedBy else batch.requester
  }

  predicate Guard(batch: Batch, finding: FindingRow, item: Item, settings: Settings, context: ReviewContext) {
    && Responsible(batch).Some? && Responsible(batch).value in settings.permitted
    && batch.manager == settings.manager
    && item.key == Some(finding.key) && finding.revision == item.revision
    && ApprovalsValid(finding, context)
  }

  const PREVIEW_WINDOW: Time := 10 * MINUTE
  const EXECUTION_WINDOW: Time := HOUR

  predicate Timely(batch: Batch, item: Item, now: Time) {
    && batch.confirmedAt.Some? && batch.ticket != "" && item.verifiedAt.Some?
    && 0 <= batch.confirmedAt.value - item.verifiedAt.value <= PREVIEW_WINDOW
    && now - batch.confirmedAt.value <= EXECUTION_WINDOW
  }

  predicate Authorized(batch: Batch, item: Item, finding: FindingRow, settings: Settings, context: ReviewContext, now: Time) {
    Timely(batch, item, now) && CanExecute(Responsible(batch), batch, item, finding, settings, context)
  }

  /** Cleanup approvals of enough distinct people survive as long as the plan, the group and the revision do. */
  lemma EligibilityFollowsRevision(seen: FindingRow, locked: FindingRow, user: UserId, batch: Batch, item: Item,
                                   settings: Settings)
    requires seen.key == locked.key && seen.review.approvals == locked.review.approvals
    requires seen.review.required == locked.review.required
    ensures MayExecute(user, batch, item, seen, settings) <==> MayExecute(user, batch, item, locked, settings)
    ensures CleanupApproved(item, seen, settings) <==> CleanupApproved(item, locked, settings)
  {
    assert Decisions(seen) == Decisions(locked);
    assert Approvers(item, seen) == Approvers(item, locked);
  }
}
