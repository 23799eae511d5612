/** Review decisions on a finding. Callers hold the environment lock, so each operation is one atomic step. */
module FindingWorkflow {
  import opened Common
  import opened FindingModel
  import opened Observation

  datatype User = User(id: UserId, active: bool, staff: bool, superuser: bool)

  /** Approval requirements per category; zero inherits the workspace default. */
  datatype ApprovalPolicy = ApprovalPolicy(groups: nat, services: nat, rules: nat, policies: nat, standard: nat)

  function RequiredApprovals(kind: Kind, policy: ApprovalPolicy): nat {
    var configured :=
      match kind
      case Unused | EmptyGroup | Membership => policy.groups
      case UnusedService => policy.services
      case ZeroHits | Disabled | Statistics => policy.rules
      case EmptyPolicy | PolicyInventory => policy.policies
      case TagUsage => 0;
    if configured != 0 then configured else policy.standard
  }

  /** Approval binds the whole evidence except how a counter was fetched. */
  function ReviewFingerprintOf(kind: Kind, evidence: Row): ReviewFingerprint {
    ReviewFingerprint(if kind == UnusedService then Unused else kind, evidence - {"statistics_source"})
  }

  predicate Blank(s: string) {
    forall c | c in s :: c in " \t\r\n"
  }

  predicate Unreferenced(kind: Kind) {
    kind == Unused || kind == UnusedService
  }

  predicate SearchFailed(search: Json) {
    search.Dict? && (Truthy(Get(search.fields, "errors")) || Truthy(Get(search.fields, "failed")))
  }

  /** The search covered a listed set of types, so references outside it need a manual check. */
  predicate CompatibilitySearch(search: Json) {
    && search.Dict?
    && Get(search.fields, "mode") == Str("explicit_types")
    && (match Get(search.fields, "resource_types")
        case List(items) => items != [] && forall item | item in items :: item.Str? && !Blank(item.s)
        case _ => false)
    && !SearchFailed(search)
  }

  function CoverageKeyOf(search: Json): CoverageKey {
    if !search.Dict? then CoverageKey(Null, {})
    else
      CoverageKey(Get(search.fields, "mode"),
                  match Get(search.fields, "resource_types")
                  case List(items) => set item | item in items && item.Str? :: item.s
                  case _ => {})
  }

  predicate CoverageDiffers(kind: Kind, approvals: Approvals, search: Json) {
    && Unreferenced(kind)
    && approvals.owner.Some?
    && match approvals.owner.value.coverageKey
       case Some(saved) => saved != CoverageKeyOf(search)
       case None => CompatibilitySearch(search)
  }

  predicate RecentCheck(row: Row, stamp: Time, interval: nat) {
    match Get(row, "statistics_checked_at")
    case Stamp(checked) =>
      checked <= stamp && stamp - checked <= (if 1440 < 2 * interval then 2 * interval else 1440) * MINUTE
    case _ => false
  }

  /** The saved row of one collection supports a decision about this kind of finding. */
  predicate EvidenceSupports(kind: Kind, row: Option<Row>, search: Json, stamp: Time, interval: nat) {
    && row.Some? && row.value != map[]
    && !Truthy(Get(row.value, "audit_exclusions"))
    && match kind
       case EmptyGroup => Get(row.value, "membership") == Str("empty")
       case Unused | UnusedService =>
         && Get(row.value, "usage") == Str("unused_candidate")
         && search.Dict?
         && !SearchFailed(search)
         && (Get(search.fields, "mode") == Str("all_types") || CompatibilitySearch(search))
       case ZeroHits =>
         && Get(row.value, "hit_status") == Str("zero_hits")
         && Get(row.value, "hit_count") == Num(0)
         && RecentCheck(row.value, stamp, interval)
         && Get(row.value, "disabled") != Bool(true)
       case Disabled => Get(row.value, "disabled") == Bool(true)
       case EmptyPolicy => Get(row.value, "status") == Str("empty") && Get(row.value, "rule_count") == Num(0)
       case _ => false
  }

  datatype SavedCollection = SavedCollection(id: SnapshotId, stamp: Time, row: Option<Row>, search: Json)

  /** What a decision reads besides the finding: clock, settings, pending work and the newest collection.
      `direct` is the earlier verified collection that live membership checks may stand in for. */
  datatype ReviewContext = ReviewContext(
    now: Time,
    staleHours: nat,
    interval: nat,
    recalculating: bool,
    affected: bool,
    latest: Option<SavedCollection>,
    direct: Option<SavedCollection>)

  datatype Readiness = Blocked | Supported(manual: bool, coverage: Json, coverageKey: Option<CoverageKey>)

  function ApprovalReadiness(finding: FindingRow, context: ReviewContext, live: bool): Readiness {
    var kind := finding.key.kind;
    var direct := if live && context.affected && context.latest.Some? then context.direct else None;
    var latest := if direct.Some? then direct else context.latest;
    if context.recalculating || !finding.present || finding.watch.qualification != Eligible then Blocked
    else if context.affected && context.latest.Some? && direct == None then Blocked
    else if latest == None || finding.snapshot != Some(latest.value.id) then Blocked
    else if latest.value.stamp < context.now - context.staleHours * HOUR then Blocked
    else
      var search := if Unreferenced(kind) then latest.value.search else Null;
      if !EvidenceSupports(kind, latest.value.row, search, latest.value.stamp, context.interval) then Blocked
      else if Unreferenced(kind) then Supported(CompatibilitySearch(search), search, Some(CoverageKeyOf(search)))
      else Supported(false, Dict(map[]), None)
  }

  // ----- Writers of the review fields -----

  function RestartState(owner: Option<UserId>): WorkflowState {
    if owner.Some? then OwnerReview else Unassigned
  }

  function Invalidate(review: Review, reason: InvalidationReason): Review {
    if review.state != SecondReview && review.state != Ready then review
    else review.(state := RestartState(review.owner), approvals := NO_APPROVALS,
                 events := review.events + [Invalidated(reason, review.approvals)])
  }

  method InvalidateFinding(finding: Finding, reason: InvalidationReason)
    modifies finding`workflowState, finding`approvals, finding`events
    ensures finding.ReviewFields() == Invalidate(old(finding.ReviewFields()), reason)
  {
    if finding.workflowState != SecondReview && finding.workflowState != Ready {
      return;
    }
    var prior := finding.approvals;
    finding.workflowState := RestartState(finding.owner);
    finding.approvals := NO_APPROVALS;
    finding.events := finding.events + [Invalidated(reason, prior)];
  }

  /** The administrator changed the number of approvals this kind of finding needs. */
  function PolicyApplied(finding: FindingRow, policy: ApprovalPolicy): FindingRow {
    var review := finding.review;
    var effective := RequiredApprovals(finding.key.kind, policy);
    if review.state == Rejected || review.state == Decommissioned || review.required == effective then finding
    else finding.(revision := finding.revision + 1,
                  review := review.(required := effective, approvals := NO_APPROVALS,
                                    state := RestartState(review.owner),
                                    events := review.events + [Acted("approval_policy_changed")]))
  }

  method ApplyApprovalPolicy(finding: Finding, policy: ApprovalPolicy)
    modifies finding`requiredApprovals, finding`approvals, finding`workflowState, finding`revision, finding`events
    ensures finding.Row() == PolicyApplied(old(finding.Row()), policy)
    ensures var before := old(finding.ReviewFields());
            if before.state in {Rejected, Decommissioned} || before.required == RequiredApprovals(finding.key.kind, policy)
            then finding.Row() == old(finding.Row())
            else && finding.revision == old(finding.revision) + 1
                 && finding.requiredApprovals == RequiredApprovals(finding.key.kind, policy)
                 && finding.approvals == NO_APPROVALS
                 && finding.workflowState == if before.owner.Some? then OwnerReview else Unassigned
  {
    if finding.workflowState == Rejected || finding.workflowState == Decommissioned {
      return;
    }
    var effective := RequiredApprovals(finding.key.kind, policy);
    if finding.requiredApprovals == effective {
      return;
    }
    finding.requiredApprovals := effective;
    finding.approvals := NO_APPROVALS;
    finding.workflowState := RestartState(finding.owner);
    finding.revision := finding.revision + 1;
    finding.events := finding.events + [Acted("approval_policy_changed")];
  }

  datatype Action =
    | Unassign
    | Assign(owner: User)
    | Reopen
    | Approve(manualVerified: bool, manualChecks: string, evidenceReference: string)
    | Reject
    | Complete

  function ActionName(action: Action): string {
    match action
    case Unassign => "unassign"
    case Assign(_) => "assign"
    case Reopen => "reopen"
    case Approve(_, _, _) => "approve"
    case Reject => "reject"
    case Complete => "complete"
  }

  /** The reason and the ticket arrive with surrounding blanks removed. */
  datatype Request = Request(actor: User, action: Action, reason: string, ticket: string)

  /** Whose turn it is, when the finding awaits a decision. */
  predicate MayJudge(review: Review, actor: UserId) {
    && review.owner.Some?
    && match review.state
       case OwnerReview => review.owner == Some(actor)
       case SecondReview =>
         && review.required == 2
         && review.owner != Some(actor)
         && review.approvals.owner.Some?
         && review.approvals.owner.value.actor != actor
       case _ => false
  }

  function DecisionOf(finding: FindingRow, actor: UserId, readiness: Readiness): Decision
    requires readiness.Supported?
  {
    Decision(actor, finding.review.required, ReviewFingerprintOf(finding.key.kind, finding.evidence),
             finding.evidence, readiness.coverageKey, readiness.manual, finding.snapshot)
  }

  predicate MayApprove(finding: FindingRow, request: Request, readiness: Readiness)
    requires request.action.Approve?
  {
    var review, action := finding.review, request.action;
    && MayJudge(review, request.actor.id)
    && readiness.Supported?
    && (readiness.manual ==>
          action.manualVerified && !Blank(action.manualChecks) && !Blank(action.evidenceReference))
    && (review.state == SecondReview && review.approvals.owner.Some? ==>
          && !CoverageDiffers(finding.key.kind, review.approvals, readiness.coverage)
          && (readiness.manual ==> review.approvals.owner.value.manualVerified)
          && review.approvals.owner.value.fingerprint == ReviewFingerprintOf(finding.key.kind, finding.evidence))
  }

  predicate MayComplete(finding: FindingRow, request: Request, readiness: Readiness) {
    var review := finding.review;
    var owner, second := review.approvals.owner, review.approvals.second;
    && review.owner.Some?
    && review.state == Ready
    && owner.Some?
    && (review.required == 2 ==> second.Some? && owner.value.actor != second.value.actor)
    && request.ticket != ""
    && readiness.Supported?
    && !CoverageDiffers(finding.key.kind, review.approvals, readiness.coverage)
    && (readiness.manual ==> owner.value.manualVerified && (review.required == 2 ==> second.value.manualVerified))
    && (if review.required == 2 then second.value.fingerprint else owner.value.fingerprint)
       == ReviewFingerprintOf(finding.key.kind, finding.evidence)
  }

  predicate Permitted(finding: FindingRow, request: Request, context: ReviewContext) {
    var actor, review := request.actor, finding.review;
    match request.action
    case Unassign =>
      review.owner.Some? && (review.owner == Some(actor.id) || actor.superuser) && review.state != Decommissioned
    case Assign(owner) =>
      owner.active && owner.staff && review.state != Decommissioned && review.owner != Some(owner.id)
    case Reopen =>
      if review.state == Decommissioned then actor.superuser else review.state == Rejected
    case Approve(_, _, _) => MayApprove(finding, request, ApprovalReadiness(finding, context, false))
    case Reject => MayJudge(review, actor.id)
    case Complete => MayComplete(finding, request, ApprovalReadiness(finding, context, false))
  }

  predicate MayAct(finding: FindingRow, request: Request, context: ReviewContext) {
    && request.actor.active && request.actor.staff
    && (request.reason == "" ==> request.action.Assign? && finding.review.owner == None)
    && (finding.review.required == 1 || finding.review.required == 2)
    && Permitted(finding, request, context)
  }

  /** An interrupted review resumes under a new owner; any other assignment starts over. */
  predicate Resumes(review: Review) {
    review.owner == None && review.state in {SecondReview, Ready, Rejected}
  }

  function Acts(finding: FindingRow, request: Request, policy: ApprovalPolicy, context: ReviewContext): Review
    requires Permitted(finding, request, context)
  {
    var review := finding.review;
    match request.action
    case Unassign => review.(owner := None, state := if review.state == OwnerReview then Unassigned else review.state)
    case Assign(owner) =>
      if Resumes(review) then review.(owner := Some(owner.id))
      else review.(owner := Some(owner.id), state := OwnerReview, approvals := NO_APPROVALS,
                   required := RequiredApprovals(finding.key.kind, policy))
    case Reopen =>
      review.(ticket := if review.state == Decommissioned then "" else review.ticket,
              required := RequiredApprovals(finding.key.kind, policy),
              state := RestartState(review.owner), approvals := NO_APPROVALS)
    case Approve(_, _, _) =>
      var decision := DecisionOf(finding, request.actor.id, ApprovalReadiness(finding, context, false));
      if review.state == OwnerReview then
        review.(approvals := review.approvals.(owner := Some(decision)),
                state := if review.required == 2 then SecondReview else Ready)
      else
        review.(approvals := review.approvals.(second := Some(decision)), state := Ready)
    case Reject => review.(state := Rejected)
    case Complete => review.(state := Decommissioned, ticket := request.ticket)
  }

  function Decided(finding: FindingRow, request: Request, policy: ApprovalPolicy, context: ReviewContext):
      (row: FindingRow)
    ensures row.key == finding.key
  {
    if !MayAct(finding, request, context) then finding
    else
      var review := Acts(finding, request, policy, context);
      finding.(revision := finding.revision + 1,
               review := review.(events := review.events + [Acted(ActionName(request.action))]))
  }

  /** A refused request leaves the finding as it was. */
  method Decide(finding: Finding, request: Request, policy: ApprovalPolicy, context: ReviewContext)
      returns (accepted: bool)
    modifies finding`workflowState, finding`approvals, finding`owner, finding`requiredApprovals,
             finding`changeTicket, finding`revision, finding`events
    ensures accepted == MayAct(old(finding.Row()), request, context)
    ensures finding.Row() == Decided(old(finding.Row()), request, policy, context)
    ensures finding.revision == old(finding.revision) + if accepted then 1 else 0
  {
    hide Permitted, Acts;
    if !request.actor.active || !request.actor.staff {
      return false;
    }
    if request.reason == "" && !(request.action.Assign? && finding.owner == None) {
      return false;
    }
    if finding.requiredApprovals != 1 && finding.requiredApprovals != 2 {
      return false;
    }
    accepted := PerformAction(finding, request, policy, context);
    if accepted {
      finding.revision := finding.revision + 1;
      finding.events := finding.events + [Acted(ActionName(request.action))];
    }
  }

  method PerformAction(finding: Finding, request: Request, policy: ApprovalPolicy, context: ReviewContext)
      returns (accepted: bool)
    modifies finding`workflowState, finding`approvals, finding`owner, finding`requiredApprovals, finding`changeTicket
    ensures accepted == Permitted(old(finding.Row()), request, context)
    ensures finding.ReviewFields() ==
            if accepted then Acts(old(finding.Row()), request, policy, context) else old(finding.ReviewFields())
  {
    match request.action {
      case Unassign => accepted := UnassignOwner(finding, request.actor);
      case Assign(owner) => accepted := AssignOwner(finding, owner, policy);
      case Reopen => accepted := ReopenReview(finding, request.actor, policy);
      case Approve(_, _, _) => accepted := RecordApproval(finding, request, context);
      case Reject =>
        accepted := MayJudge(finding.ReviewFields(), request.actor.id);
        if accepted {
          finding.workflowState := Rejected;
        }
      case Complete =>
        accepted := MayComplete(finding.Row(), request, ApprovalReadiness(finding.Row(), context, false));
        if accepted {
          finding.changeTicket, finding.workflowState := request.ticket, Decommissioned;
        }
    }
  }

  method UnassignOwner(finding: Finding, actor: User) returns (accepted: bool)
    modifies finding`owner, finding`workflowState
    ensures var before := old(finding.ReviewFields());
            && accepted == (before.owner.Some? && (before.owner == Some(actor.id) || actor.superuser)
                            && before.state != Decommissioned)
            && finding.owner == (if accepted then None else before.owner)
            && finding.workflowState ==
                 (if accepted && before.state == OwnerReview then Unassigned else before.state)
  {
    if finding.owner == None || (finding.owner != Some(actor.id) && !actor.superuser)
       || finding.workflowState == Decommissioned {
      return false;
    }
    finding.owner := None;
    // Assignment and review progress are separate: recorded decisions stay.
    if finding.workflowState == OwnerReview {
      finding.workflowState := Unassigned;
    }
    return true;
  }

  method AssignOwner(finding: Finding, owner: User, policy: ApprovalPolicy) returns (accepted: bool)
    modifies finding`owner, finding`workflowState, finding`approvals, finding`requiredApprovals
    ensures var before := old(finding.ReviewFields());
            && accepted == (owner.active && owner.staff && before.state != Decommissioned
                            && before.owner != Some(owner.id))
            && finding.owner == (if accepted then Some(owner.id) else before.owner)
            && var restarted := accepted && (before.owner.Some? || before.state !in {SecondReview, Ready, Rejected});
               && finding.workflowState == (if restarted then OwnerReview else before.state)
               && finding.approvals == (if restarted then NO_APPROVALS else before.approvals)
               && finding.requiredApprovals ==
                    (if restarted then RequiredApprovals(finding.key.kind, policy) else before.required)
  {
    if !owner.active || !owner.staff || finding.workflowState == Decommissioned || finding.owner == Some(owner.id) {
      return false;
    }
    var resume := finding.owner == None && finding.workflowState in {SecondReview, Ready, Rejected};
    if !resume {
      finding.requiredApprovals := RequiredApprovals(finding.key.kind, policy);
    }
    finding.owner := Some(owner.id);
    if !resume {
      finding.workflowState, finding.approvals := OwnerReview, NO_APPROVALS;
    }
    return true;
  }

  method ReopenReview(finding: Finding, actor: User, policy: ApprovalPolicy) returns (accepted: bool)
    modifies finding`workflowState, finding`approvals, finding`requiredApprovals, finding`changeTicket
    ensures var before := old(finding.ReviewFields());
            && accepted == (if before.state == Decommissioned then actor.superuser else before.state == Rejected)
            && finding.ReviewFields() ==
                 if !accepted then before
                 else before.(ticket := if before.state == Decommissioned then "" else before.ticket,
                              required := RequiredApprovals(finding.key.kind, policy),
                              state := RestartState(before.owner), approvals := NO_APPROVALS)
  {
    if finding.workflowState == Decommissioned {
      if !actor.superuser {
        return false;
      }
      finding.changeTicket := "";
    } else if finding.workflowState != Rejected {
      return false;
    }
    finding.requiredApprovals := RequiredApprovals(finding.key.kind, policy);
    finding.workflowState := RestartState(finding.owner);
    finding.approvals := NO_APPROVALS;
    return true;
  }

  method RecordApproval(finding: Finding, request: Request, context: ReviewContext) returns (accepted: bool)
    requires request.action.Approve?
    modifies finding`workflowState, finding`approvals
    ensures var before := old(finding.Row());
            var readiness := ApprovalReadiness(before, context, false);
            && accepted == MayApprove(before, request, readiness)
            && finding.approvals ==
                 (if !accepted then before.review.approvals
                  else
                    var decision := Some(DecisionOf(before, request.actor.id, readiness));
                    if before.review.state == OwnerReview then before.review.approvals.(owner := decision)
                    else before.review.approvals.(second := decision))
            && finding.workflowState ==
                 (if !accepted then before.review.state
                  else if before.review.state == OwnerReview && before.review.required == 2 then SecondReview
                  else Ready)
  {
    if !MayJudge(finding.ReviewFields(), request.actor.id) {
      return false;
    }
    var before := finding.workflowState;
    var readiness := ApprovalReadiness(finding.Row(), context, false);
    if readiness.Blocked? {
      return false;
    }
    if before == SecondReview && CoverageDiffers(finding.key.kind, finding.approvals, readiness.coverage) {
      return false;
    }
    if readiness.manual && (!request.action.manualVerified || Blank(request.action.manualChecks)
                            || Blank(request.action.evidenceReference)) {
      return false;
    }
    if readiness.manual && before == SecondReview && !finding.approvals.owner.value.manualVerified {
      return false;
    }
    var decision := DecisionOf(finding.Row(), request.actor.id, readiness);
    if before == SecondReview && finding.approvals.owner.value.fingerprint != decision.fingerprint {
      return false;
    }
    if before == OwnerReview {
      finding.approvals := finding.approvals.(owner := Some(decision));
    } else {
      finding.approvals := finding.approvals.(second := Some(decision));
    }
    finding.workflowState := if before == OwnerReview && finding.requiredApprovals == 2 then SecondReview else Ready;
    return true;
  }

  // ----- Recovery of a first approval lost to a collection gap -----

  /** A collection retained since the approved one, with the condition it recorded for this finding. */
  datatype RetainedCollection = RetainedCollection(incomplete: bool, search: Json, condition: Option<Row>)

  /** What is retained: the kinds of a recalculation completed after the invalidation, when the approved
      collection was made, whether the interruption is on record as a gap, and the collections since. */
  datatype Retained = Retained(
    replayed: set<Kind>,
    approvedAt: Option<Time>,
    gapOnly: bool,
    collections: seq<RetainedCollection>)

  /** The archived approval names the object it was given for. */
  predicate Identifies(decision: Decision) {
    exists key | key in {"unique_id", "created_at", "rule_id", "policy_rule_id"} :: Truthy(Get(decision.evidence, key))
  }

  /** The collection saw the condition that was approved, completely and with the same search. */
  predicate Confirms(collection: RetainedCollection, kind: Kind, decision: Decision) {
    && !collection.incomplete
    && (Unreferenced(kind) ==> Some(CoverageKeyOf(collection.search)) == decision.coverageKey)
    && collection.condition == Some(ConditionFingerprint(kind, decision.evidence))
  }

  /** Retained evidence reaches back to the approved collection without a break in the condition itself. */
  predicate Proves(retained: Retained, finding: FindingRow, decision: Decision) {
    && finding.key.kind in retained.replayed && Identifies(decision)
    && retained.approvedAt.Some? && finding.watch.started.Some?
    && finding.watch.started.value <= retained.approvedAt.value
    && retained.gapOnly
    && forall collection | collection in retained.collections :: Confirms(collection, finding.key.kind, decision)
  }

  /** The newest workflow event invalidated a first approval only because the finding stopped qualifying. */
  function ArchivedApproval(review: Review): Option<Decision> {
    var n := |review.events|;
    if n == 0 || !review.events[n - 1].Invalidated? || review.events[n - 1].reason != NoLongerQualifies then None
    else review.events[n - 1].prior.owner
  }

  predicate MayRecover(finding: FindingRow, owner: User, context: ReviewContext, retained: Retained) {
    var review := finding.review;
    && review.state == OwnerReview && review.approvals == NO_APPROVALS && review.required == 2
    && ArchivedApproval(review).Some?
    && var decision := ArchivedApproval(review).value;
       && decision.required == 2
       && review.owner == Some(decision.actor) && review.owner == Some(owner.id) && owner.active && owner.staff
       && Proves(retained, finding, decision)
       && var readiness := ApprovalReadiness(finding, context, false);
          && readiness.Supported? && !readiness.manual
          && decision.fingerprint == ReviewFingerprintOf(finding.key.kind, finding.evidence)
          && decision.coverageKey == readiness.coverageKey
  }

  function Recovered(finding: FindingRow, actor: User, revision: nat, owner: User, context: ReviewContext,
                     retained: Retained): FindingRow
  {
    var review := finding.review;
    if !actor.active || !actor.superuser || revision != finding.revision
       || !MayRecover(finding, owner, context, retained) then finding
    else finding.(revision := finding.revision + 1,
                  review := review.(approvals := Approvals(ArchivedApproval(review), None), state := SecondReview,
                                    events := review.events + [Acted("approval_recovered")]))
  }

  method Recover(finding: Finding, actor: User, revision: nat, owner: User, context: ReviewContext, retained: Retained)
      returns (recovered: bool)
    modifies finding`approvals, finding`workflowState, finding`revision, finding`events
    ensures recovered == (actor.active && actor.superuser && revision == old(finding.revision)
                          && MayRecover(old(finding.Row()), owner, context, retained))
    ensures finding.Row() == Recovered(old(finding.Row()), actor, revision, owner, context, retained)
  {
    hide MayRecover, ArchivedApproval;
    if !actor.active || !actor.superuser || revision != finding.revision {
      return false;
    }
    if !MayRecover(finding.Row(), owner, context, retained) {
      return false;
    }
    finding.approvals := Approvals(ArchivedApproval(finding.ReviewFields()), None);
    finding.workflowState := SecondReview;
    finding.revision := finding.revision + 1;
    finding.events := finding.events + [Acted("approval_recovered")];
    return true;
  }

  // ----- Closure after the object is verified absent -----

  /** Closes a finding whose object is gone, keeping its approvals as history. */
  function Closed(finding: FindingRow, ticket: string): FindingRow {
    finding.(present := false, revision := finding.revision + 1,
             review := finding.review.(state := Decommissioned, ticket := ticket,
                                       events := finding.review.events + [Acted("decommissioned")]))
  }

  /** Findings of the same object as the primary one, still open. */
  predicate Related(primary: FindingRow, sibling: FindingRow) {
    && Truthy(Get(primary.evidence, "unique_id")) && Get(primary.evidence, "created_at") != Null
    && sibling.key != primary.key && sibling.key.path == primary.key.path
    && Get(sibling.evidence, "unique_id") == Get(primary.evidence, "unique_id")
    && Get(sibling.evidence, "created_at") == Get(primary.evidence, "created_at")
    && sibling.review.state != Decommissioned
  }
}
