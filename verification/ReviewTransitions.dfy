/** Which steps move a review into and out of its states, over whole runs. */
module ReviewTransitions {
  import opened Common
  import opened FindingModel
  import opened FindingWorkflow
  import opened Findings
  import opened FindingPublication
  import opened Observation
  import opened ApprovalSafety

  /** The step is a request about this finding by an operator who may act at all. */
  predicate Asks(step: Step, key: Key) {
    step.Decide? && step.key == key && step.request.actor.active && step.request.actor.staff
  }

  /** The finding carries the approvals it needs, by distinct people, for the evidence it shows. */
  predicate FullyApproved(finding: FindingRow) {
    var review, fingerprint := finding.review, ReviewFingerprintOf(finding.key.kind, finding.evidence);
    && review.approvals.owner.Some? && review.approvals.owner.value.fingerprint == fingerprint
    && (review.required == 1
        || (&& review.required == 2
            && review.approvals.second.Some? && review.approvals.second.value.fingerprint == fingerprint
            && review.approvals.second.value.actor != review.approvals.owner.value.actor))
  }

  /** The same object as the primary finding's, by path and verified identity. */
  predicate SameObject(primary: FindingRow, finding: FindingRow) {
    && primary.key != finding.key && primary.key.path == finding.key.path
    && Truthy(Get(finding.evidence, "unique_id"))
    && Get(primary.evidence, "unique_id") == Get(finding.evidence, "unique_id")
    && Get(finding.evidence, "created_at") != Null
    && Get(primary.evidence, "created_at") == Get(finding.evidence, "created_at")
  }

  /** A review is completed only by an operator with a ticket, for a ready finding whose approvals are all for the
      evidence it shows, or because the object is verified to be gone. */
  predicate CompletedBy(db: Database, before: FindingRow, after: FindingRow, step: Step) {
    match step
    case Decide(_, request, _, _) =>
      && Asks(step, before.key) && request.action.Complete? && request.reason != "" && request.ticket != ""
      && before.review.state == Ready && before.present && before.watch.qualification == Eligible
      && before.review.owner.Some? && FullyApproved(before)
      && after.review.ticket == request.ticket && after.review.approvals == before.review.approvals
      && after.review.owner == before.review.owner && after.present
    case CloseDeleted(key, ticket) =>
      key == before.key && !after.present && after.review == before.review.(state := Decommissioned, ticket := ticket,
                                                                            events := after.review.events)
    case CloseRelated(primary, ticket) =>
      && primary in db && SameObject(db[primary], before) && !after.present
      && after.review == before.review.(state := Decommissioned, ticket := ticket, events := after.review.events)
    case _ => false
  }

  /** A review is rejected by its owner in the first stage, by somebody else in the second. */
  predicate RejectedBy(before: FindingRow, after: FindingRow, step: Step) {
    && Asks(step, before.key) && step.request.action.Reject? && step.request.reason != ""
    && before.review.owner.Some?
    && (|| (before.review.state == OwnerReview && before.review.owner == Some(step.request.actor.id))
        || (&& before.review.state == SecondReview && before.review.required == 2
            && before.review.owner != Some(step.request.actor.id)
            && before.review.approvals.owner.Some?
            && before.review.approvals.owner.value.actor != step.request.actor.id))
    && after.review == before.review.(state := Rejected, events := after.review.events)
    && after.present == before.present && after.evidence == before.evidence && after.watch == before.watch
  }

  /** A completed review is opened again by an administrator, or by a new object at the path. */
  predicate UncompletedBy(before: FindingRow, after: FindingRow, step: Step) {
    match step
    case Decide(_, request, _, _) =>
      && Asks(step, before.key) && request.action.Reopen? && request.actor.superuser && request.reason != ""
      && after.review.approvals == NO_APPROVALS && after.review.ticket == ""
    case Fold(_) =>
      && after.review.approvals == NO_APPROVALS && after.review.ticket == "" && after.present
      && Truthy(Get(after.evidence, "unique_id")) && Get(after.evidence, "created_at") != Null
      && (|| Get(after.evidence, "unique_id") != Get(before.evidence, "unique_id")
          || Get(after.evidence, "created_at") != Get(before.evidence, "created_at"))
    case _ => false
  }

  /** A rejected review is taken up again on request, or closed because the object is gone. */
  predicate UnrejectedBy(db: Database, before: FindingRow, after: FindingRow, step: Step) {
    match step
    case Decide(_, request, _, _) =>
      && Asks(step, before.key)
      && after.review.approvals == NO_APPROVALS
      && (|| (request.action.Reopen? && request.reason != "")
          || (&& request.action.Assign? && request.reason != "" && before.review.owner.Some?
              && request.action.owner.active && request.action.owner.staff
              && before.review.owner != Some(request.action.owner.id)
              && after.review.owner == Some(request.action.owner.id)))
    case _ => CompletedBy(db, before, after, step)
  }

  lemma DecidedMoves(finding: FindingRow, request: Request, policy: ApprovalPolicy, context: ReviewContext)
    requires Safe(finding)
    ensures var after, step := Decided(finding, request, policy, context), Decide(finding.key, request, policy, context);
            && (after.review.state == Decommissioned && finding.review.state != Decommissioned ==>
                  CompletedBy(map[], finding, after, step))
            && (after.review.state == Rejected && finding.review.state != Rejected ==> RejectedBy(finding, after, step))
            && (finding.review.state == Decommissioned && after.review.state != Decommissioned ==>
                  UncompletedBy(finding, after, step))
            && (finding.review.state == Rejected && after.review.state != Rejected ==>
                  UnrejectedBy(map[], finding, after, step))
  {
    hide EvidenceSupports, ReviewFingerprintOf, RequiredApprovals, CoverageDiffers, Blank;
  }

  /** Folding in a collection completes and rejects nothing; only a new identity opens a completed review. */
  lemma FoldedMoves(finding: Option<FindingRow>, key: Key, c: Collection)
    requires finding.Some? ==> finding.value.key == key
    ensures var after := Folded(finding, key, c);
            && (finding == None && after.Some? ==> after.value.review.state == Unassigned)
            && (finding.Some? ==>
                  && after.Some?
                  && (after.value.review.state in {Rejected, Decommissioned} ==>
                        after.value.review.state == finding.value.review.state)
                  && (finding.value.review.state == Rejected ==> after.value.review.state == Rejected)
                  && (finding.value.review.state == Decommissioned && after.value.review.state != Decommissioned ==>
                        UncompletedBy(finding.value, after.value, Fold(c))))
  {
    hide CandidateFor, Affects, Superseded, Lapsed, ChangedWhilePausedBy, SourceRow, Advanced, EvidenceSupports,
         CoverageDiffers, ReviewFingerprintOf, ConditionFingerprint;
  }

  lemma PublishedMoves(finding: Option<FindingRow>, key: Key, p: Publication)
    ensures var after := Published(finding, key, p);
            && (finding == None && after.Some? ==> after.value.review.state == Unassigned)
            && (finding.Some? ==>
                  && after.Some?
                  && (after.value.review.state in {Rejected, Decommissioned}
                      || finding.value.review.state in {Rejected, Decommissioned} ==>
                        after.value.review.state == finding.value.review.state))
  {
    hide Affects, Superseded, DaysFor, RequiredApprovals;
  }

  lemma OthersMove(db: Database, finding: FindingRow, step: Step)
    requires !step.Decide? && (step.CloseRelated? && step.primary in db ==> db[step.primary].key == step.primary)
    ensures var after := StepOnFinding(db, finding, step);
            && (after.review.state == Decommissioned && finding.review.state != Decommissioned ==>
                  CompletedBy(db, finding, after, step))
            && (after.review.state == Rejected ==> finding.review.state == Rejected)
            && (finding.review.state == Decommissioned ==> after.review.state == Decommissioned)
            && (finding.review.state == Rejected && after.review.state != Rejected ==>
                  UnrejectedBy(db, finding, after, step))
  {
    hide ApprovalReadiness, RequiredApprovals, ReviewFingerprintOf, Proves;
  }

  /** What moves a review into, and out of, the two states it rests in. */
  lemma RestingStates(dbs: seq<Database>, steps: seq<Step>, n: nat, key: Key)
    requires Run(dbs, steps) && n < |steps| && key in dbs[n + 1]
    ensures key !in dbs[n] ==> dbs[n + 1][key].review.state == Unassigned
    ensures key in dbs[n] ==>
              var before, after, step := dbs[n][key], dbs[n + 1][key], steps[n];
              && (after.review.state == Decommissioned && before.review.state != Decommissioned ==>
                    CompletedBy(dbs[n], before, after, step))
              && (after.review.state == Rejected && before.review.state != Rejected ==> RejectedBy(before, after, step))
              && (before.review.state == Decommissioned && after.review.state != Decommissioned ==>
                    UncompletedBy(before, after, step))
              && (before.review.state == Rejected && after.review.state != Rejected ==>
                    UnrejectedBy(dbs[n], before, after, step))
  {
    hide Decided, Folded, Published, UpToDate, Restorable, WellFormed, CompletedBy, RejectedBy, UncompletedBy,
         UnrejectedBy, Safe, StepOnFinding;
    var db, step, finding := dbs[n], steps[n], Lookup(dbs[n], key);
    EveryRunIsSafe(dbs, steps, n, key);
    assert Lookup(dbs[n + 1], key) == StepOn(db, key, step);
    match step
    case Fold(c) => FoldedMoves(finding, key, c);
    case Publish(p) => PublishedMoves(finding, key, p);
    case Decide(_, _, _, _) =>
      if key in db {
        DecideMoves(db, key, step);
      }
    case CloseRelated(primary, _) =>
      if key in db {
        EveryRunIsSafe(dbs, steps, n, primary);
        OthersMove(db, finding.value, step);
      }
    case _ =>
      if key in db {
        OthersMove(db, finding.value, step);
      }
  }

  lemma DecideMoves(db: Database, key: Key, step: Step)
    requires step.Decide? && key in db && db[key].key == key && Safe(db[key])
    ensures var before, after := db[key], StepOnFinding(db, db[key], step);
            && (after.review.state == Decommissioned && before.review.state != Decommissioned ==>
                  CompletedBy(db, before, after, step))
            && (after.review.state == Rejected && before.review.state != Rejected ==> RejectedBy(before, after, step))
            && (before.review.state == Decommissioned && after.review.state != Decommissioned ==>
                  UncompletedBy(before, after, step))
            && (before.review.state == Rejected && after.review.state != Rejected ==>
                  UnrejectedBy(db, before, after, step))
  {
    hide Decided, Safe;
    if step.key == key {
      DecidedMoves(db[key], step.request, step.policy, step.context);
    }
  }

  /** An accepted rejection always ends in the rejected state, and an accepted completion in the completed one. */
  lemma AcceptedDecisionsRest(finding: FindingRow, request: Request, policy: ApprovalPolicy, context: ReviewContext)
    requires MayAct(finding, request, context)
    ensures var after := Decided(finding, request, policy, context).review;
            && (request.action.Reject? ==> after.state == Rejected && after.approvals == finding.review.approvals)
            && (request.action.Complete? ==> after.state == Decommissioned && after.ticket == request.ticket)
  {
    hide EvidenceSupports, ReviewFingerprintOf, RequiredApprovals, CoverageDiffers, Blank, ApprovalReadiness;
  }

  // ----- Steps towards approval -----

  /** An approval by the person whose turn it is, recorded for what the finding shows. */
  predicate AdvancedBy(before: FindingRow, after: FindingRow, step: Step) {
    && Asks(step, before.key) && step.request.action.Approve? && step.request.reason != ""
    && before.present && before.watch.qualification == Eligible && before.review.owner.Some?
    && var actor, first := step.request.actor.id, before.review.state == OwnerReview;
       var decision := if first then after.review.approvals.owner else after.review.approvals.second;
       && decision.Some? && decision.value.actor == actor && decision.value.required == before.review.required
       && decision.value.evidence == before.evidence && decision.value.snapshot == before.snapshot
       && decision.value.fingerprint == ReviewFingerprintOf(before.key.kind, before.evidence)
       && after.review.owner == before.review.owner && after.review.required == before.review.required
       && (first ==> before.review.owner == Some(actor) && after.review.approvals.second == before.review.approvals.second
                     && (after.review.state == Ready <==> before.review.required == 1))
       && (!first ==> before.review.state == SecondReview && before.review.required == 2
                      && before.review.owner != Some(actor) && after.review.state == Ready
                      && before.review.approvals.owner.Some? && before.review.approvals.owner.value.actor != actor
                      && before.review.approvals.owner.value.fingerprint == decision.value.fingerprint
                      && after.review.approvals.owner == before.review.approvals.owner)
  }

  /** An administrator restores the approval that the last event withdrew, to a finding that needs two. */
  predicate RestoredBy(before: FindingRow, after: FindingRow, step: Step) {
    && step.Recover? && step.key == before.key && step.actor.active && step.actor.superuser
    && step.revision == before.revision
    && before.review.state == OwnerReview && before.review.required == 2 && after.review.state == SecondReview
    && before.review.events != [] && before.review.events[|before.review.events| - 1].Invalidated?
    && after.review.approvals.owner == before.review.events[|before.review.events| - 1].prior.owner
    && after.review.approvals.owner.Some? && after.review.owner == Some(after.review.approvals.owner.value.actor)
    && after.review.owner == before.review.owner && after.review.approvals.second == None
    && before.present && before.watch.qualification == Eligible
    && after.review.approvals.owner.value.fingerprint == ReviewFingerprintOf(before.key.kind, before.evidence)
  }

  lemma DecidedAdvances(finding: FindingRow, request: Request, policy: ApprovalPolicy, context: ReviewContext)
    requires Safe(finding)
    ensures var after, step := Decided(finding, request, policy, context), Decide(finding.key, request, policy, context);
            after.review.state in {SecondReview, Ready} && after.review.state != finding.review.state ==>
              AdvancedBy(finding, after, step)
  {
    hide EvidenceSupports, ReviewFingerprintOf, RequiredApprovals, CoverageDiffers, Blank;
  }

  lemma OthersAdvance(db: Database, finding: FindingRow, step: Step)
    requires !step.Decide?
    ensures var after := StepOnFinding(db, finding, step);
            after.review.state in {SecondReview, Ready} && after.review.state != finding.review.state ==>
              RestoredBy(finding, after, step)
  {
    hide EvidenceSupports, RequiredApprovals, ReviewFingerprintOf, Proves, Related;
  }

  lemma FoldedAdvances(finding: Option<FindingRow>, key: Key, c: Collection)
    ensures var after := Folded(finding, key, c);
            after.Some? && after.value.review.state in {SecondReview, Ready} ==>
              finding.Some? && after.value.review.state == finding.value.review.state
  {
    hide CandidateFor, Affects, Superseded, Lapsed, ChangedWhilePausedBy, SourceRow, Advanced, EvidenceSupports,
         CoverageDiffers, ReviewFingerprintOf, ConditionFingerprint;
  }

  lemma PublishedAdvances(finding: Option<FindingRow>, key: Key, p: Publication)
    ensures var after := Published(finding, key, p);
            after.Some? && after.value.review.state in {SecondReview, Ready} ==>
              finding.Some? && after.value.review.state == finding.value.review.state
  {
    hide Affects, Superseded, DaysFor, RequiredApprovals;
  }

  /** A review moves towards approval only by an approval, or by the recovery of one. */
  lemma AdvancingStates(dbs: seq<Database>, steps: seq<Step>, n: nat, key: Key)
    requires Run(dbs, steps) && n < |steps| && key in dbs[n + 1]
    requires dbs[n + 1][key].review.state in {SecondReview, Ready}
    ensures key in dbs[n]
    ensures var before, after, step := dbs[n][key], dbs[n + 1][key], steps[n];
            before.review.state != after.review.state ==>
              AdvancedBy(before, after, step) || RestoredBy(before, after, step)
  {
    hide Decided, Folded, Published, UpToDate, Restorable, WellFormed, AdvancedBy, RestoredBy, Safe, StepOnFinding;
    var db, step, finding := dbs[n], steps[n], Lookup(dbs[n], key);
    EveryRunIsSafe(dbs, steps, n, key);
    assert Lookup(dbs[n + 1], key) == StepOn(db, key, step);
    match step
    case Fold(c) => FoldedAdvances(finding, key, c);
    case Publish(p) => PublishedAdvances(finding, key, p);
    case Decide(_, _, _, _) =>
      if key in db {
        DecideAdvances(db, key, step);
      }
    case _ =>
      if key in db {
        OthersAdvance(db, finding.value, step);
      }
  }

  lemma DecideAdvances(db: Database, key: Key, step: Step)
    requires step.Decide? && key in db && db[key].key == key && Safe(db[key])
    ensures var after := StepOnFinding(db, db[key], step);
            after.review.state in {SecondReview, Ready} && after.review.state != db[key].review.state ==>
              AdvancedBy(db[key], after, step)
  {
    hide Decided, Safe, AdvancedBy;
    if step.key == key {
      DecidedAdvances(db[key], step.request, step.policy, step.context);
    }
  }

  // ----- Closing -----

  /** With a verified absence, exactly the open findings about the same object are closed; the others stay. */
  lemma RelatedAreClosed(db: Database, finding: FindingRow, primary: Key, ticket: string)
    requires primary in db
    ensures var after := StepOnFinding(db, finding, CloseRelated(primary, ticket));
            if SameObject(db[primary], finding) && finding.review.state != Decommissioned
            then && !after.present && after.revision == finding.revision + 1
                 && after.review == finding.review.(state := Decommissioned, ticket := ticket, events := after.review.events)
                 && after == finding.(present := false, revision := after.revision, review := after.review)
            else after == finding
  {
  }

  // ----- The steps are the operations -----

  /** Folding and publishing, as steps of a run, do to all findings what `Synchronize` and `PublishReplay` do. */
  lemma StepsAreOperations(before: Database, after: Database, c: Collection, p: Publication)
    requires Keyed(before)
    ensures (forall key :: Lookup(after, key) == StepOn(before, key, Fold(c))) <==> Synchronized(before, after, c)
    ensures WellFormed(p) ==>
              ((forall key :: Lookup(after, key) == StepOn(before, key, Publish(p))) <==>
                 forall key :: Lookup(after, key) ==
                   if Restorable(before, p) then Published(Lookup(before, key), key, p) else Lookup(before, key))
  {
    hide Folded, Published, Restorable, WellFormed;
    assert Synchronized(before, before, c) <== UpToDate(before, c);
    if UpToDate(before, c) {
      if forall key :: Lookup(after, key) == StepOn(before, key, Fold(c)) {
        assert forall key :: Lookup(after, key) == Lookup(before, key);
        SameFindings(before, after);
      }
    }
  }

  lemma SameFindings(first: Database, second: Database)
    requires forall key :: Lookup(second, key) == Lookup(first, key)
    ensures first == second
  {
    forall key
      ensures key in first <==> key in second
      ensures key in first && key in second ==> first[key] == second[key]
    {
      assert Lookup(second, key) == Lookup(first, key);
    }
  }

  /** A removed account owns nothing any more; nothing else changes. */
  lemma RemovedUsersOwnNothing(db: Database, finding: FindingRow, user: UserId)
    ensures var after := StepOnFinding(db, finding, RemoveUser(user));
            && after.review.owner != Some(user)
            && (finding.review.owner != Some(user) ==> after == finding)
            && after == finding.(review := finding.review.(owner := after.review.owner))
            && (finding.review.owner == Some(user) ==> after.review.owner == None)
  {
  }
}
