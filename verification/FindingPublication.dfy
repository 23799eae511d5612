/** Publishing a finished replay into the findings, under the environment lock. */
module FindingPublication {
  import opened Common
  import opened FindingModel
  import opened Observation
  import opened FindingWorkflow
  import opened Findings
  import opened FindingReplay

  /** The result of a replay: states without paused keys, and evidence collected for rows to restore. */
  datatype Publication = Publication(
    kinds: set<Kind>,
    latest: SnapshotId,
    issues: seq<Issue>,
    states: map<Key, Replayed>,
    restored: map<Key, Row>,
    policy: FindingPolicy,
    approvals: ApprovalPolicy,
    deleted: DeletedIdentities)

  /** Publication happens only for states of the requested kinds outside paused evidence. */
  predicate WellFormed(p: Publication) {
    forall key | key in p.states :: Covered(p.kinds, key) && !Affects(p.issues, key)
  }

  predicate Skipped(finding: Option<FindingRow>, key: Key, p: Publication) {
    var evidence :=
      if key in p.restored then p.restored[key]
      else if finding.Some? && key.path in p.deleted then finding.value.evidence
      else map[];
    key in p.states && Superseded(p.deleted, key.path, evidence)
  }

  predicate NeedsRestore(finding: Option<FindingRow>, key: Key, p: Publication) {
    key in p.states && !Skipped(finding, key, p) && (finding.Some? ==> !finding.value.present)
  }

  /** Every row to restore has its evidence at hand; otherwise the job is queued again. */
  predicate Restorable(findings: map<Key, FindingRow>, p: Publication) {
    forall key | key in p.states :: NeedsRestore(Lookup(findings, key), key, p) ==> key in p.restored
  }

  function Recheck(review: Review, present: bool, qualification: Qualification): Review {
    if !present || qualification != Eligible then Invalidate(review, CriteriaRecalculated) else review
  }

  function Requalified(finding: FindingRow, state: Replayed, p: Publication): FindingRow {
    var restoring := !finding.present;
    finding.(watch := state.watch,
             present := true,
             lastSeen := if restoring then state.lastSeen else finding.lastSeen,
             snapshot := if restoring then Some(p.latest) else finding.snapshot,
             evidence := if restoring && finding.key in p.restored then p.restored[finding.key] else finding.evidence,
             revision := finding.revision + 1,
             review := Recheck(finding.review, true, state.watch.qualification))
  }

  function Introduced(key: Key, state: Replayed, p: Publication): FindingRow {
    FindingRow(key, if key in p.restored then p.restored[key] else map[], true, state.lastSeen, Some(p.latest), 0,
               state.watch, Review(Unassigned, NO_APPROVALS, RequiredApprovals(key.kind, p.approvals), None, "", []))
  }

  /** No confirmed condition in the newest retained collection. */
  function Unconfirmed(finding: FindingRow, p: Publication): FindingRow {
    var days := DaysFor(p.policy, finding.key.kind);
    finding.(watch := UNWATCHED.(requiredDays := if days.Some? then days.value else 0),
             revision := finding.revision + 1,
             review := Recheck(finding.review, finding.present, Insufficient))
  }

  function Published(finding: Option<FindingRow>, key: Key, p: Publication): Option<FindingRow> {
    if key.kind !in p.kinds || Skipped(finding, key, p) then finding
    else if key in p.states then
      if finding.Some? then Some(Requalified(finding.value, p.states[key], p))
      else Some(Introduced(key, p.states[key], p))
    else if finding == None || Affects(p.issues, key) then finding
    else Some(Unconfirmed(finding.value, p))
  }

  method PublishReplay(environment: Environment, p: Publication) returns (published: bool)
    requires Keyed(environment.findings) && WellFormed(p)
    modifies environment
    ensures Keyed(environment.findings)
    ensures published == Restorable(old(environment.findings), p)
    ensures forall key :: Lookup(environment.findings, key) ==
              var before := Lookup(old(environment.findings), key);
              if published then Published(before, key, p) else before
  {
    hide Affects, Skipped, Unconfirmed, Requalified, Introduced;
    published := Restorable(environment.findings, p);
    if !published {
      return;
    }
    var existing := environment.findings;
    var remaining := existing.Keys + p.states.Keys;
    while remaining != {}
      invariant Keyed(environment.findings)
      invariant forall key :: Lookup(environment.findings, key) ==
                  if key in remaining then Lookup(existing, key) else Published(Lookup(existing, key), key, p)
    {
      var key :| key in remaining;
      var finding := Lookup(existing, key);
      if key.kind in p.kinds && !Skipped(finding, key, p) {
        if key in p.states {
          var row := PublishState(finding, key, p);
          environment.findings := environment.findings[key := row];
        } else if !Affects(p.issues, key) {
          var row := PublishUnconfirmed(existing[key], p);
          environment.findings := environment.findings[key := row];
        }
      }
      remaining := remaining - {key};
    }
  }

  method PublishState(finding: Option<FindingRow>, key: Key, p: Publication) returns (row: FindingRow)
    requires key in p.states && (finding.Some? ==> finding.value.key == key)
    ensures row == if finding.Some? then Requalified(finding.value, p.states[key], p)
                   else Introduced(key, p.states[key], p)
    ensures row.key == key
  {
    var state := p.states[key];
    if finding == None {
      return Introduced(key, state, p);
    }
    hide Invalidate;
    var target := new Finding.Load(finding.value);
    CopyWatch(target, state.watch);
    RestorePresence(target, state, p);
    RecheckReview(target);
    row := target.Row();
  }

  /** The review after its observation was replaced. */
  method RecheckReview(target: Finding)
    modifies target`revision, target`workflowState, target`approvals, target`events
    ensures target.revision == old(target.revision) + 1
    ensures target.ReviewFields() == Recheck(old(target.ReviewFields()), target.present, target.qualification)
  {
    hide Invalidate;
    target.revision := target.revision + 1;
    if !target.present || target.qualification != Eligible {
      InvalidateFinding(target, CriteriaRecalculated);
    }
  }

  method RestorePresence(target: Finding, state: Replayed, p: Publication)
    modifies target`present, target`lastSeen, target`snapshot, target`evidence
    ensures target.present
    ensures old(target.present) ==> target.lastSeen == old(target.lastSeen) && target.snapshot == old(target.snapshot)
                                    && target.evidence == old(target.evidence)
    ensures !old(target.present) ==>
              && target.lastSeen == state.lastSeen && target.snapshot == Some(p.latest)
              && target.evidence == if target.key in p.restored then p.restored[target.key] else old(target.evidence)
  {
    if target.present {
      return;
    }
    target.present := true;
    target.lastSeen := state.lastSeen;
    target.snapshot := Some(p.latest);
    if target.key in p.restored {
      target.evidence := p.restored[target.key];
    }
  }

  method PublishUnconfirmed(finding: FindingRow, p: Publication) returns (row: FindingRow)
    ensures row == Unconfirmed(finding, p) && row.key == finding.key
  {
    hide Recheck, DaysFor;
    var target := new Finding.Load(finding);
    var days := DaysFor(p.policy, finding.key.kind);
    CopyWatch(target, UNWATCHED.(requiredDays := if days.Some? then days.value else 0));
    RecheckReview(target);
    row := target.Row();
  }

  method CopyWatch(finding: Finding, watch: Watch)
    modifies finding`qualification, finding`observationStarted, finding`observationCount, finding`observationDays,
             finding`requiredDays, finding`qualifiedAt, finding`policyFingerprint
    ensures finding.WatchFields() == watch
  {
    finding.qualification, finding.observationStarted := watch.qualification, watch.started;
    finding.observationCount, finding.observationDays := watch.count, watch.days;
    finding.requiredDays, finding.qualifiedAt := watch.requiredDays, watch.qualifiedAt;
    finding.policyFingerprint := watch.signature;
  }

  // ----- What publication does, field by field -----

  /** Kinds that were not recalculated, and findings whose evidence is in doubt, stay as they are. */
  lemma OthersAreSpared(finding: Option<FindingRow>, key: Key, p: Publication)
    requires WellFormed(p) && (key.kind !in p.kinds || Affects(p.issues, key))
    ensures Published(finding, key, p) == finding
  {
    hide Affects;
  }

  /** So do findings at a deleted path unless the evidence at hand shows a new object there. */
  lemma DeletedAreSpared(finding: Option<FindingRow>, key: Key, p: Publication)
    requires key in p.states && key.path in p.deleted
    requires var evidence := if key in p.restored then p.restored[key]
                             else if finding.Some? then finding.value.evidence else map[];
             || !Truthy(Get(evidence, "unique_id")) || Get(evidence, "created_at") == Null
             || (Get(evidence, "unique_id"), Get(evidence, "created_at")) in p.deleted[key.path]
    ensures Published(finding, key, p) == finding
  {
    hide Affects;
  }

  /** Approvals in force are withdrawn, and archived; other reviews stay as they are. */
  predicate Withdrawn(before: Review, after: Review) {
    if before.state in {SecondReview, Ready} then
      after == before.(state := if before.owner.Some? then OwnerReview else Unassigned, approvals := NO_APPROVALS,
                       events := before.events + [Invalidated(CriteriaRecalculated, before.approvals)])
    else after == before
  }

  /** Nothing is published while a finding would have to be restored whose evidence is not at hand. */
  lemma RestorableIff(findings: map<Key, FindingRow>, p: Publication)
    ensures Restorable(findings, p) <==>
              forall key | key in p.states && !(key in findings && findings[key].present) && key !in p.restored ::
                // Without evidence at hand only a deleted path with the finding's own old evidence can be spared.
                && key.path in p.deleted
                && var evidence := if key in findings then findings[key].evidence else map[];
                   || !Truthy(Get(evidence, "unique_id")) || Get(evidence, "created_at") == Null
                   || (Get(evidence, "unique_id"), Get(evidence, "created_at")) in p.deleted[key.path]
  {
  }

  /** A replayed finding takes over the replayed observation and keeps its review only while it is eligible. One that
      was missing is present again, with the evidence collected for it. */
  lemma ReplayedIsPublished(finding: Option<FindingRow>, key: Key, p: Publication)
    requires WellFormed(p) && key in p.states && key.path !in p.deleted && (finding.Some? ==> finding.value.key == key)
    ensures Published(finding, key, p).Some?
    ensures var state, after := p.states[key], Published(finding, key, p).value;
            && after.key == key && after.present && after.watch == state.watch
            && (finding == None ==>
                  && after.review.state == Unassigned && after.review.approvals == NO_APPROVALS && after.review.owner == None
                  && after.snapshot == Some(p.latest) && after.lastSeen == state.lastSeen && after.revision == 0
                  && after.review.required == RequiredApprovals(key.kind, p.approvals)
                  && after.evidence == if key in p.restored then p.restored[key] else map[])
            && (finding.Some? ==>
                  && after.revision == finding.value.revision + 1
                  && (if state.watch.qualification == Eligible then after.review == finding.value.review
                      else Withdrawn(finding.value.review, after.review)))
            && (finding.Some? && finding.value.present ==>
                  && after.evidence == finding.value.evidence && after.lastSeen == finding.value.lastSeen
                  && after.snapshot == finding.value.snapshot)
            && (finding.Some? && !finding.value.present ==>
                  && after.lastSeen == state.lastSeen && after.snapshot == Some(p.latest)
                  && after.evidence == if key in p.restored then p.restored[key] else finding.value.evidence)
  {
    hide Affects;
  }

  /** A finding of these kinds without a replayed state is not being observed and loses its approvals. */
  lemma UnreplayedIsUnconfirmed(finding: FindingRow, p: Publication)
    requires finding.key.kind in p.kinds && finding.key !in p.states && !Affects(p.issues, finding.key)
    ensures var after := Published(Some(finding), finding.key, p);
            && after.Some?
            && after.value == finding.(watch := after.value.watch, review := after.value.review, revision := finding.revision + 1)
            && after.value.watch.qualification == Insufficient && after.value.watch.started == None
            && after.value.watch.count == 0 && after.value.watch.days == 0 && after.value.watch.qualifiedAt == None
            && after.value.watch.requiredDays == (var days := DaysFor(p.policy, finding.key.kind); if days.Some? then days.value else 0)
            && Withdrawn(finding.review, after.value.review)
  {
    hide Affects, DaysFor;
  }
}
