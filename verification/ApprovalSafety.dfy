/** What every writer of a finding keeps, over whole runs of an environment. */
module ApprovalSafety {
  import opened Common
  import opened FindingModel
  import opened Observation
  import opened FindingWorkflow
  import opened Findings
  import opened FindingReplay
  import opened FindingPublication

  type Database = map<Key, FindingRow>

  /** One atomic step on the findings of an environment. */
  datatype Step =
    | Decide(key: Key, request: Request, policy: ApprovalPolicy, context: ReviewContext)
    | ChangePolicy(policy: ApprovalPolicy)
    | Fold(collection: Collection)
    | Publish(publication: Publication)
    | Recover(key: Key, actor: User, revision: nat, owner: User, context: ReviewContext, retained: Retained)
    | CloseRelated(primary: Key, ticket: string)
    | CloseDeleted(key: Key, ticket: string)
    | RemoveUser(user: UserId)

  function WithoutOwner(finding: FindingRow, user: UserId): FindingRow {
    if finding.review.owner == Some(user) then finding.(review := finding.review.(owner := None)) else finding
  }

  function StepOn(db: Database, key: Key, step: Step): Option<FindingRow> {
    var finding := Lookup(db, key);
    match step
    case Fold(c) => if UpToDate(db, c) then finding else Folded(finding, key, c)
    case Publish(p) => if WellFormed(p) && Restorable(db, p) then Published(finding, key, p) else finding
    case _ => if finding == None then None else Some(StepOnFinding(db, finding.value, step))
  }

  function StepOnFinding(db: Database, finding: FindingRow, step: Step): FindingRow {
    match step
    case Decide(key, request, policy, context) =>
      if finding.key == key then Decided(finding, request, policy, context) else finding
    case ChangePolicy(policy) => PolicyApplied(finding, policy)
    case Recover(key, actor, revision, owner, context, retained) =>
      if finding.key == key then Recovered(finding, actor, revision, owner, context, retained) else finding
    case CloseRelated(primary, ticket) =>
      if primary in db && Related(db[primary], finding) then Closed(finding, ticket) else finding
    case CloseDeleted(key, ticket) =>
      if finding.key == key then Closed(finding, ticket) else finding
    case RemoveUser(user) => WithoutOwner(finding, user)
    case _ => finding
  }

  /** A run from the empty environment: dbs[i + 1] is dbs[i] after steps[i]. */
  ghost predicate Run(dbs: seq<Database>, steps: seq<Step>) {
    && |dbs| == |steps| + 1
    && dbs[0] == map[]
    && forall i, key :: 0 <= i < |steps| ==> Lookup(dbs[i + 1], key) == StepOn(dbs[i], key, steps[i])
  }

  // ----- Approval safety -----

  predicate Current(finding: FindingRow) {
    finding.present && finding.watch.qualification == Eligible
  }

  predicate Binds(decision: Option<Decision>, finding: FindingRow) {
    && decision.Some?
    && decision.value.required == finding.review.required
    && decision.value.fingerprint == ReviewFingerprintOf(finding.key.kind, finding.evidence)
  }

  predicate Safe(finding: FindingRow) {
    var review := finding.review;
    match review.state
    case Unassigned => review.approvals == NO_APPROVALS && review.owner == None
    case OwnerReview => review.approvals == NO_APPROVALS
    case SecondReview =>
      Current(finding) && review.required == 2 && Binds(review.approvals.owner, finding) && review.approvals.second == None
    case Ready =>
      && Current(finding)
      && Binds(review.approvals.owner, finding)
      && (|| (review.required == 1 && review.approvals.second == None)
          || (&& review.required == 2
              && Binds(review.approvals.second, finding)
              && review.approvals.owner.value.actor != review.approvals.second.value.actor))
    case _ => true
  }

  predicate SafeAs(finding: Option<FindingRow>, key: Key) {
    finding.Some? ==> finding.value.key == key && Safe(finding.value)
  }

  lemma DecidedIsSafe(finding: FindingRow, request: Request, policy: ApprovalPolicy, context: ReviewContext)
    requires Safe(finding)
    ensures Safe(Decided(finding, request, policy, context))
  {
    hide EvidenceSupports, ReviewFingerprintOf, RequiredApprovals, CoverageDiffers, Blank;
  }

  lemma ObservedIsSafe(finding: FindingRow, evidence: Row, c: Collection)
    requires Safe(finding)
    ensures Safe(Observed(finding, evidence, c))
  {
    hide Advanced, Accepted, CheckOf, ReviewFingerprintOf, CoverageDiffers;
  }

  lemma FoldedIsSafe(finding: Option<FindingRow>, key: Key, c: Collection)
    requires SafeAs(finding, key)
    ensures SafeAs(Folded(finding, key, c), key)
  {
    hide CandidateFor, Affects, Superseded, Observed, Lapsed, ChangedWhilePausedBy, SourceRow, Advanced;
    if finding.Some? {
      var candidate := CandidateFor(c.report, key);
      if candidate.Some? {
        ObservedIsSafe(finding.value, candidate.value.evidence, c);
      }
    }
  }

  lemma PublishedIsSafe(finding: Option<FindingRow>, key: Key, p: Publication)
    requires SafeAs(finding, key)
    ensures SafeAs(Published(finding, key, p), key)
  {
    hide Affects, Superseded, DaysFor, RequiredApprovals, ReviewFingerprintOf;
  }

  lemma StepIsSafe(db: Database, key: Key, step: Step)
    requires SafeAs(Lookup(db, key), key)
    ensures SafeAs(StepOn(db, key, step), key)
  {
    hide Folded, Published, Decided, Affects, UpToDate, Restorable, ApprovalReadiness, Related,
         RequiredApprovals;
    match step
    case Decide(_, request, policy, context) =>
      if key in db {
        DecidedIsSafe(db[key], request, policy, context);
      }
    case Fold(c) => FoldedIsSafe(Lookup(db, key), key, c);
    case Publish(p) => PublishedIsSafe(Lookup(db, key), key, p);
    case Recover(_, _, _, _, _, _) =>
      if key in db {
        RecoveredIsSafe(db[key], step);
      }
    case _ =>
  }

  lemma RecoveredIsSafe(finding: FindingRow, step: Step)
    requires step.Recover? && Safe(finding)
    ensures Safe(Recovered(finding, step.actor, step.revision, step.owner, step.context, step.retained))
  {
    hide EvidenceSupports, ReviewFingerprintOf;
  }

  /** Whatever happened: a finding that is ready is present, eligible and approved by exactly the required
      reviewers, distinct when there are two, for the evidence it shows now; a finding awaiting its second
      review has exactly the owner's approval; an unassigned finding or one in owner review has none. */
  lemma {:induction false} EveryRunIsSafe(dbs: seq<Database>, steps: seq<Step>, n: nat, key: Key)
    requires Run(dbs, steps) && n <= |steps|
    ensures SafeAs(Lookup(dbs[n], key), key)
  {
    hide StepOn, Safe;
    if n > 0 {
      EveryRunIsSafe(dbs, steps, n - 1, key);
      StepIsSafe(dbs[n - 1], key, steps[n - 1]);
      assert Lookup(dbs[n], key) == StepOn(dbs[n - 1], key, steps[n - 1]);
    }
  }

  // ----- Every approval was given by a reviewer -----

  /** Step i is an accepted approval of this finding, taken when the review was in state `turn`. */
  ghost predicate ApprovedAt(dbs: seq<Database>, steps: seq<Step>, i: nat, key: Key, decision: Decision, turn: WorkflowState)
    requires Run(dbs, steps)
  {
    && i < |steps|
    && steps[i].Decide? && steps[i].key == key && steps[i].request.action.Approve?
    && key in dbs[i]
    && dbs[i][key].review.state == turn
    && MayAct(dbs[i][key], steps[i].request, steps[i].context)
    && decision == DecisionOf(dbs[i][key], steps[i].request.actor.id,
                              ApprovalReadiness(dbs[i][key], steps[i].context, false))
  }

  ghost predicate Given(dbs: seq<Database>, steps: seq<Step>, n: nat, key: Key, decision: Decision, turn: WorkflowState)
    requires Run(dbs, steps)
  {
    exists i: nat :: i < n && ApprovedAt(dbs, steps, i, key, decision, turn)
  }

  /** A first approval the finding carries, or keeps in its history for recovery. */
  predicate HoldsFirst(review: Review, decision: Decision) {
    || review.approvals.owner == Some(decision)
    || exists e | e in review.events :: e.Invalidated? && e.prior.owner == Some(decision)
  }

  predicate NewApproval(finding: FindingRow, step: Step, decision: Decision, turn: WorkflowState) {
    && step.Decide? && step.key == finding.key && step.request.action.Approve?
    && finding.review.state == turn
    && MayAct(finding, step.request, step.context)
    && decision == DecisionOf(finding, step.request.actor.id, ApprovalReadiness(finding, step.context, false))
  }

  lemma InvalidateAddsNothing(review: Review, reason: InvalidationReason, decision: Decision)
    ensures HoldsFirst(Invalidate(review, reason), decision) ==> HoldsFirst(review, decision)
    ensures Invalidate(review, reason).approvals.second == Some(decision) ==> review.approvals.second == Some(decision)
  {
  }

  lemma DecidedAdds(finding: FindingRow, step: Step, decision: Decision)
    requires step.Decide? && step.key == finding.key
    ensures var review := Decided(finding, step.request, step.policy, step.context).review;
            && (HoldsFirst(review, decision) ==>
                  HoldsFirst(finding.review, decision) || NewApproval(finding, step, decision, OwnerReview))
            && (review.approvals.second == Some(decision) ==>
                  finding.review.approvals.second == Some(decision) || NewApproval(finding, step, decision, SecondReview))
  {
    hide ApprovalReadiness, ReviewFingerprintOf, RequiredApprovals, CoverageDiffers, Blank;
  }

  lemma ObservedAdds(finding: FindingRow, evidence: Row, c: Collection, decision: Decision)
    ensures var review := Observed(finding, evidence, c).review;
            && (HoldsFirst(review, decision) ==> HoldsFirst(finding.review, decision))
            && (review.approvals.second == Some(decision) ==> finding.review.approvals.second == Some(decision))
  {
    hide Invalidate, HoldsFirst, Advanced, Accepted, CoverageDiffers, ReviewChanged, NewIdentity, CheckOf;
    var renewed := Reidentified(finding, evidence);
    assert HoldsFirst(renewed, decision) ==> HoldsFirst(finding.review, decision) by {
      ReidentifiedAdds(finding, evidence, decision);
    }
    InvalidateAddsNothing(renewed, EvidenceChanged, decision);
    var kept := if ReviewChanged(finding, evidence) then Invalidate(renewed, EvidenceChanged) else renewed;
    InvalidateAddsNothing(kept, CoverageChanged, decision);
    var covered := CheckedReview(finding, evidence, c);
    InvalidateAddsNothing(covered, EvidenceRejected, decision);
    InvalidateAddsNothing(covered, NoLongerQualifies, decision);
  }

  lemma ReidentifiedAdds(finding: FindingRow, evidence: Row, decision: Decision)
    ensures HoldsFirst(Reidentified(finding, evidence), decision) ==> HoldsFirst(finding.review, decision)
  {
  }

  lemma FoldedAdds(finding: Option<FindingRow>, key: Key, c: Collection, decision: Decision)
    requires finding.Some? ==> finding.value.key == key
    ensures var result := Folded(finding, key, c);
            result.Some? ==>
              && (HoldsFirst(result.value.review, decision) ==> finding.Some? && HoldsFirst(finding.value.review, decision))
              && (result.value.review.approvals.second == Some(decision) ==>
                    finding.Some? && finding.value.review.approvals.second == Some(decision))
  {
    hide CandidateFor, Affects, Superseded, Observed, Lapsed, ChangedWhilePausedBy, SourceRow, Advanced,
         Invalidate;
    if finding.Some? {
      var candidate := CandidateFor(c.report, key);
      if candidate.Some? {
        ObservedAdds(finding.value, candidate.value.evidence, c, decision);
      }
      InvalidateAddsNothing(finding.value.review, NotObserved, decision);
      InvalidateAddsNothing(finding.value.review, ChangedWhilePaused, decision);
    }
  }

  lemma PublishedAdds(finding: Option<FindingRow>, key: Key, p: Publication, decision: Decision)
    ensures var result := Published(finding, key, p);
            result.Some? ==>
              && (HoldsFirst(result.value.review, decision) ==> finding.Some? && HoldsFirst(finding.value.review, decision))
              && (result.value.review.approvals.second == Some(decision) ==>
                    finding.Some? && finding.value.review.approvals.second == Some(decision))
  {
    hide Affects, Superseded, DaysFor, RequiredApprovals, Invalidate;
    if finding.Some? {
      InvalidateAddsNothing(finding.value.review, CriteriaRecalculated, decision);
    }
  }

  lemma OthersAdd(db: Database, finding: FindingRow, step: Step, decision: Decision)
    requires !step.Decide?
    ensures var review := StepOnFinding(db, finding, step).review;
            && (HoldsFirst(review, decision) ==> HoldsFirst(finding.review, decision))
            && (review.approvals.second == Some(decision) ==> finding.review.approvals.second == Some(decision))
  {
    hide ApprovalReadiness, RequiredApprovals, Related, ReviewFingerprintOf;
  }

  /** Approvals in force, and archived first approvals, were all given by an accepted request in this run. */
  lemma {:induction false} EveryApprovalWasGiven(dbs: seq<Database>, steps: seq<Step>, n: nat, key: Key, decision: Decision)
    requires Run(dbs, steps) && n <= |steps|
    ensures key in dbs[n] && HoldsFirst(dbs[n][key].review, decision) ==>
              Given(dbs, steps, n, key, decision, OwnerReview)
    ensures key in dbs[n] && dbs[n][key].review.approvals.second == Some(decision) ==>
              Given(dbs, steps, n, key, decision, SecondReview)
  {
    hide HoldsFirst, Decided, Folded, Published, MayAct, DecisionOf, ApprovalReadiness, UpToDate, Restorable,
         WellFormed, Safe;
    if n == 0 {
      return;
    }
    var db, step := dbs[n - 1], steps[n - 1];
    EveryApprovalWasGiven(dbs, steps, n - 1, key, decision);
    assert Lookup(dbs[n], key) == StepOn(db, key, step);
    EveryRunIsSafe(dbs, steps, n - 1, key);
    var finding := Lookup(db, key);
    match step
    case Fold(c) => FoldedAdds(finding, key, c, decision);
    case Publish(p) => PublishedAdds(finding, key, p, decision);
    case Decide(_, _, _, _) =>
      if key in db && step.key == key {
        DecidedAdds(finding.value, step, decision);
        assert NewApproval(finding.value, step, decision, OwnerReview) ==>
                 ApprovedAt(dbs, steps, n - 1, key, decision, OwnerReview);
        assert NewApproval(finding.value, step, decision, SecondReview) ==>
                 ApprovedAt(dbs, steps, n - 1, key, decision, SecondReview);
      }
    case _ =>
      if key in db {
        OthersAdd(db, finding.value, step, decision);
      }
  }

  /** Four eyes: a finding that needs two approvals becomes ready only after its owner of the moment and
      somebody else both approved, each looking at the evidence it still shows. */
  lemma FourEyes(dbs: seq<Database>, steps: seq<Step>, n: nat, key: Key) returns (first: nat, second: nat)
    requires Run(dbs, steps) && n <= |steps|
    requires key in dbs[n] && dbs[n][key].review.state == Ready && dbs[n][key].review.required == 2
    ensures first < n && second < n && first != second
    ensures steps[first].Decide? && steps[first].request.action.Approve? && steps[first].key == key && key in dbs[first]
    ensures steps[second].Decide? && steps[second].request.action.Approve? && steps[second].key == key && key in dbs[second]
    ensures dbs[first][key].review.owner == Some(steps[first].request.actor.id)
    ensures steps[first].request.actor.id != steps[second].request.actor.id
    ensures forall i | i in {first, second} ::
              && Current(dbs[i][key])
              && ReviewFingerprintOf(key.kind, dbs[i][key].evidence) == ReviewFingerprintOf(key.kind, dbs[n][key].evidence)
  {
    EveryRunIsSafe(dbs, steps, n, key);
    var approvals := dbs[n][key].review.approvals;
    first := ApprovalStep(dbs, steps, n, key, approvals.owner.value, OwnerReview);
    second := ApprovalStep(dbs, steps, n, key, approvals.second.value, SecondReview);
  }

  lemma ApprovalStep(dbs: seq<Database>, steps: seq<Step>, n: nat, key: Key, decision: Decision, turn: WorkflowState)
      returns (i: nat)
    requires Run(dbs, steps) && n <= |steps| && key in dbs[n]
    requires if turn == OwnerReview then dbs[n][key].review.approvals.owner == Some(decision)
             else turn == SecondReview && dbs[n][key].review.approvals.second == Some(decision)
    ensures i < n && ApprovedAt(dbs, steps, i, key, decision, turn)
    ensures dbs[i][key].key == key && Current(dbs[i][key])
    ensures decision.fingerprint == ReviewFingerprintOf(key.kind, dbs[i][key].evidence)
    ensures decision.actor == steps[i].request.actor.id
    ensures turn == OwnerReview ==> dbs[i][key].review.owner == Some(decision.actor)
  {
    hide EvidenceSupports, ReviewFingerprintOf, CoverageDiffers, Blank;
    EveryApprovalWasGiven(dbs, steps, n, key, decision);
    i :| i < n && ApprovedAt(dbs, steps, i, key, decision, turn);
    EveryRunIsSafe(dbs, steps, i, key);
  }

  // ----- Revisions identify what was reviewed -----

  /** The two rows are the same, except that the owner's account may have been removed. */
  predicate SameExceptRemovedOwner(before: FindingRow, after: FindingRow) {
    && after == before.(review := before.review.(owner := after.review.owner))
    && (after.review.owner == before.review.owner || after.review.owner == None)
  }

  lemma StepMovesRevision(db: Database, key: Key, step: Step)
    requires key in db && db[key].key == key
    ensures var result := StepOn(db, key, step);
            && result.Some?
            && (SameExceptRemovedOwner(db[key], result.value) || result.value.revision > db[key].revision)
  {
    hide ApprovalReadiness, Permitted, Acts, MayRecover, Related, RequiredApprovals, Affects, UpToDate,
         Restorable, WellFormed, Skipped, Recheck, Folded;
    if step.Fold? {
      RevisionMoves(db[key], step.collection);
    }
  }

  /** A finding never disappears, and while its revision stays the same nothing a reviewer or an executor
      relies on has changed: evidence, presence, qualification, review state and approvals. */
  lemma {:induction false} RevisionPinsFinding(dbs: seq<Database>, steps: seq<Step>, n: nat, m: nat, key: Key)
    requires Run(dbs, steps) && n <= m <= |steps| && key in dbs[n]
    ensures key in dbs[m] && dbs[m][key].revision >= dbs[n][key].revision
    ensures dbs[m][key].revision == dbs[n][key].revision ==> SameExceptRemovedOwner(dbs[n][key], dbs[m][key])
  {
    hide StepOn, Safe;
    if n < m {
      RevisionPinsFinding(dbs, steps, n, m - 1, key);
      EveryRunIsSafe(dbs, steps, m - 1, key);
      StepMovesRevision(dbs[m - 1], key, steps[m - 1]);
      assert Lookup(dbs[m], key) == StepOn(dbs[m - 1], key, steps[m - 1]);
    }
  }
}
