/** What a reviewer's decision rests on, in terms of the saved fields themselves. */
module ReviewRules {
  import opened Common
  import opened FindingModel
  import opened Observation
  import opened FindingWorkflow

  // ----- Evidence -----

  /** The values a row must show for each kind of finding. */
  function Claims(kind: Kind): map<string, Json> {
    match kind
    case EmptyGroup => map["membership" := Str("empty")]
    case Unused | UnusedService => map["usage" := Str("unused_candidate")]
    case ZeroHits => map["hit_status" := Str("zero_hits"), "hit_count" := Num(0)]
    case Disabled => map["disabled" := Bool(true)]
    case EmptyPolicy => map["status" := Str("empty"), "rule_count" := Num(0)]
    case _ => map[]
  }

  predicate Shows(row: Row, claims: map<string, Json>) {
    forall field | field in claims :: Get(row, field) == claims[field]
  }

  /** References were searched for among a stated list of object types only. */
  predicate TypeLimited(search: Json) {
    && search.Dict? && !Truthy(Get(search.fields, "errors")) && !Truthy(Get(search.fields, "failed"))
    && Get(search.fields, "mode") == Str("explicit_types")
    && var types := Get(search.fields, "resource_types");
       && types.List? && |types.items| > 0
       && forall i | 0 <= i < |types.items| ::
            types.items[i].Str? && exists j | 0 <= j < |types.items[i].s| :: types.items[i].s[j] !in {' ', '\t', '\r', '\n'}
  }

  predicate Unlimited(search: Json) {
    && search.Dict? && !Truthy(Get(search.fields, "errors")) && !Truthy(Get(search.fields, "failed"))
    && Get(search.fields, "mode") == Str("all_types")
  }

  predicate ReadWithin(row: Row, stamp: Time, interval: nat) {
    var checked := Get(row, "statistics_checked_at");
    && checked.Stamp? && checked.t <= stamp
    && (stamp - checked.t <= 24 * HOUR || stamp - checked.t <= 2 * interval * MINUTE)
  }

  /** A row of the finding's own object supports a decision. */
  predicate Evident(kind: Kind, row: Row, search: Json, stamp: Time, interval: nat) {
    && kind in {EmptyGroup, Unused, UnusedService, ZeroHits, Disabled, EmptyPolicy}
    && row != map[] && !Truthy(Get(row, "audit_exclusions")) && Shows(row, Claims(kind))
    && (kind == ZeroHits ==> Get(row, "disabled") != Bool(true) && ReadWithin(row, stamp, interval))
    && (kind in {Unused, UnusedService} ==> Unlimited(search) || TypeLimited(search))
  }

  lemma TypeLimitedIff(search: Json)
    ensures CompatibilitySearch(search) <==> TypeLimited(search)
  {
    if search.Dict? && Get(search.fields, "resource_types").List? {
      var items := Get(search.fields, "resource_types").items;
      assert (forall item | item in items :: item.Str? && !Blank(item.s)) <==>
               forall i | 0 <= i < |items| :: items[i].Str? && !Blank(items[i].s);
      forall i | 0 <= i < |items| && items[i].Str?
        ensures !Blank(items[i].s) <==>
                  exists j | 0 <= j < |items[i].s| :: items[i].s[j] !in {' ', '\t', '\r', '\n'}
      {
        BlankIff(items[i].s);
      }
    }
  }

  lemma BlankIff(s: string)
    ensures Blank(s) <==> forall j | 0 <= j < |s| :: s[j] in {' ', '\t', '\r', '\n'}
  {
    assert forall c: char :: c in " \t\r\n" <==> c in {' ', '\t', '\r', '\n'};
    if Blank(s) {
      forall j | 0 <= j < |s|
        ensures s[j] in {' ', '\t', '\r', '\n'}
      {
        assert s[j] in s;
      }
    }
  }

  /** The evidence check before approvals, and of every new collection, accepts exactly such rows. */
  lemma SupportsIff(kind: Kind, row: Option<Row>, search: Json, stamp: Time, interval: nat)
    ensures EvidenceSupports(kind, row, search, stamp, interval) <==>
              row.Some? && Evident(kind, row.value, search, stamp, interval)
  {
    hide TypeLimited, Shows, Claims;
    TypeLimitedIff(search);
    if row.Some? {
      ShowsIff(kind, row.value);
    }
  }

  lemma ShowsIff(kind: Kind, row: Row)
    ensures Shows(row, Claims(kind)) <==>
              match kind
              case EmptyGroup => Get(row, "membership") == Str("empty")
              case Unused | UnusedService => Get(row, "usage") == Str("unused_candidate")
              case ZeroHits => Get(row, "hit_status") == Str("zero_hits") && Get(row, "hit_count") == Num(0)
              case Disabled => Get(row, "disabled") == Bool(true)
              case EmptyPolicy => Get(row, "status") == Str("empty") && Get(row, "rule_count") == Num(0)
              case _ => true
  {
    if Shows(row, Claims(kind)) {
      assert forall field | field in Claims(kind) :: Get(row, field) == Claims(kind)[field];
      if kind == ZeroHits {
        assert "hit_status" in Claims(kind) && "hit_count" in Claims(kind);
      } else if kind == EmptyPolicy {
        assert "status" in Claims(kind) && "rule_count" in Claims(kind);
      } else if kind == Disabled {
        assert "disabled" in Claims(kind);
      } else if kind == EmptyGroup {
        assert "membership" in Claims(kind);
      } else if kind in {Unused, UnusedService} {
        assert "usage" in Claims(kind);
      }
    }
  }

  /** The object types a search named. */
  function TypesIn(search: Json): set<string> {
    if search.Dict? && Get(search.fields, "resource_types").List? then
      var items := Get(search.fields, "resource_types").items;
      set i | 0 <= i < |items| && items[i].Str? :: items[i].s
    else {}
  }

  // ----- Readiness -----

  /** The collection a decision looks at: the newest one or, for live deletion while that one is uncertain, an
      earlier verified one. */
  function Source(context: ReviewContext, live: bool): Option<SavedCollection> {
    if context.latest == None then None
    else if !context.affected then context.latest
    else if live then context.direct else None
  }

  /** Decisions are possible exactly for a finding observed, eligible and not being recalculated, whose evidence
      is that of the collection looked at, which is not stale and supports it. */
  lemma ReadinessIff(finding: FindingRow, context: ReviewContext, live: bool)
    ensures var source, readiness := Source(context, live), ApprovalReadiness(finding, context, live);
            readiness.Supported? <==>
              && !context.recalculating && finding.present && finding.watch.qualification == Eligible
              && source.Some? && finding.snapshot == Some(source.value.id)
              && context.now - source.value.stamp <= context.staleHours * HOUR
              && source.value.row.Some?
              && Evident(finding.key.kind, source.value.row.value, source.value.search, source.value.stamp, context.interval)
  {
    hide EvidenceSupports, Evident, CompatibilitySearch, CoverageKeyOf;
    var source := Source(context, live);
    if source.Some? {
      var saved := source.value;
      SupportsIff(finding.key.kind, saved.row, saved.search, saved.stamp, context.interval);
      SupportsIff(finding.key.kind, saved.row, Null, saved.stamp, context.interval);
      if !Unreferenced(finding.key.kind) {
        SearchMatters(finding.key.kind, saved);
      }
    }
  }

  lemma SearchMatters(kind: Kind, saved: SavedCollection)
    requires !Unreferenced(kind)
    ensures forall row, interval :: Evident(kind, row, saved.search, saved.stamp, interval)
                                 == Evident(kind, row, Null, saved.stamp, interval)
  {
  }

  /** Manual verification is asked for exactly when references were searched among listed types only. */
  lemma ManualIff(finding: FindingRow, context: ReviewContext, live: bool)
    requires ApprovalReadiness(finding, context, live).Supported?
    ensures var source, readiness := Source(context, live), ApprovalReadiness(finding, context, live);
            && source.Some?
            && (readiness.manual <==> finding.key.kind in {Unused, UnusedService} && TypeLimited(source.value.search))
            && (finding.key.kind in {Unused, UnusedService} ==> readiness.coverage == source.value.search)
            && readiness.coverageKey ==
                 if finding.key.kind in {Unused, UnusedService} then Some(CoverageKeyOf(source.value.search)) else None
  {
    hide EvidenceSupports, CompatibilitySearch, TypeLimited, CoverageKeyOf;
    TypeLimitedIff(Source(context, live).value.search);
  }

  // ----- What an approval binds -----

  /** Two reviews show the same fingerprint exactly when the evidence agrees in everything but how counters were
      fetched; the two kinds of unused objects share theirs. */
  lemma FingerprintIff(first: Kind, second: Kind, before: Row, after: Row)
    ensures ReviewFingerprintOf(first, before) == ReviewFingerprintOf(second, after) <==>
              && (first == second || {first, second} == {Unused, UnusedService})
              && forall key | key != "statistics_source" ::
                   (key in before <==> key in after) && (key in before ==> before[key] == after[key])
  {
    var a, b := before - {"statistics_source"}, after - {"statistics_source"};
    if forall key | key != "statistics_source" ::
         (key in before <==> key in after) && (key in before ==> before[key] == after[key]) {
      assert a == b;
    }
    if a == b {
      forall key | key != "statistics_source"
        ensures (key in before <==> key in after) && (key in before ==> before[key] == after[key])
      {
        assert key in a <==> key in before;
        assert key in b <==> key in after;
      }
    }
  }

  /** The coverage of an unused object's approval differs when mode or object types do; an approval that recorded
      none differs from every search limited to types. */
  lemma CoverageDiffersIff(kind: Kind, approvals: Approvals, search: Json)
    requires kind in {Unused, UnusedService} && approvals.owner.Some?
    ensures var saved := approvals.owner.value.coverageKey;
            CoverageDiffers(kind, approvals, search) <==>
              if saved == None then TypeLimited(search)
              else
                || saved.value.mode != (if search.Dict? then Get(search.fields, "mode") else Null)
                || saved.value.types != TypesIn(search)
  {
    hide CompatibilitySearch, TypeLimited;
    TypeLimitedIff(search);
    if search.Dict? && Get(search.fields, "resource_types").List? {
      var items := Get(search.fields, "resource_types").items;
      assert (set item | item in items && item.Str? :: item.s) == set i | 0 <= i < |items| && items[i].Str? :: items[i].s;
    }
  }

  /** Nothing but an unused object's approval depends on coverage. */
  lemma CoverageMattersOnlyToUnused(kind: Kind, approvals: Approvals, search: Json)
    requires kind !in {Unused, UnusedService} || approvals.owner == None
    ensures !CoverageDiffers(kind, approvals, search)
  {
  }

  /** The category's own number of approvals counts, and the standard where there is none. */
  lemma RequiredByCategory(kind: Kind, policy: ApprovalPolicy)
    ensures RequiredApprovals(kind, policy) ==
              if kind in {Unused, EmptyGroup, Membership} && policy.groups > 0 then policy.groups
              else if kind == UnusedService && policy.services > 0 then policy.services
              else if kind in {ZeroHits, Disabled, Statistics} && policy.rules > 0 then policy.rules
              else if kind in {EmptyPolicy, PolicyInventory} && policy.policies > 0 then policy.policies
              else policy.standard
  {
  }

  // ----- Approved findings -----

  /** Ready, and approved for its current evidence by its current owner and, where two are needed, by somebody
      else too. */
  predicate ApprovedByOwner(finding: FindingRow) {
    var review, fingerprint := finding.review, ReviewFingerprintOf(finding.key.kind, finding.evidence);
    && finding.key.kind in {Unused, UnusedService, EmptyGroup, ZeroHits, Disabled, EmptyPolicy}
    && review.state == Ready && review.owner.Some? && review.approvals.owner.Some?
    && review.approvals.owner.value.actor == review.owner.value
    && review.approvals.owner.value.fingerprint == fingerprint
    && (review.required == 1
        || (&& review.required == 2 && review.approvals.second.Some?
            && review.approvals.second.value.actor != review.approvals.owner.value.actor
            && review.approvals.second.value.fingerprint == fingerprint))
  }

  /** The first approval was given for the same search: the same mode among the same object types. */
  predicate CoverageKept(finding: FindingRow, search: Json) {
    finding.key.kind in {Unused, UnusedService} && finding.review.approvals.owner.Some? ==>
      var saved := finding.review.approvals.owner.value.coverageKey;
      if saved == None then !TypeLimited(search)
      else saved.value.mode == (if search.Dict? then Get(search.fields, "mode") else Null) && saved.value.types == TypesIn(search)
  }

  /** Where the search was limited to listed types, every approver verified the rest independently. */
  predicate VerifiedByHand(finding: FindingRow, search: Json) {
    finding.key.kind in {Unused, UnusedService} && TypeLimited(search) ==>
      var approvals := finding.review.approvals;
      && (approvals.owner.Some? ==> approvals.owner.value.manualVerified)
      && (finding.review.required == 2 && approvals.second.Some? ==> approvals.second.value.manualVerified)
  }

  /** The finding is decidable in these circumstances. */
  predicate Decidable(finding: FindingRow, context: ReviewContext, live: bool) {
    && !context.recalculating && finding.present && finding.watch.qualification == Eligible
    && var source := Source(context, live);
       && source.Some? && finding.snapshot == Some(source.value.id)
       && context.now - source.value.stamp <= context.staleHours * HOUR && source.value.row.Some?
       && Evident(finding.key.kind, source.value.row.value, source.value.search, source.value.stamp, context.interval)
  }

  // ----- Which requests are accepted -----

  predicate Operator(request: Request, finding: FindingRow) {
    request.actor.active && request.actor.staff && finding.review.required in {1, 2}
  }

  /** The owner's turn, or that of somebody who is neither the owner nor the first approver. */
  predicate TurnOf(finding: FindingRow, actor: UserId) {
    var review := finding.review;
    review.owner.Some? &&
    (|| (review.state == OwnerReview && actor == review.owner.value)
     || (review.state == SecondReview && review.required == 2 && actor != review.owner.value
         && review.approvals.owner.Some? && actor != review.approvals.owner.value.actor))
  }

  lemma RejectAcceptedIff(finding: FindingRow, request: Request, context: ReviewContext)
    requires request.action.Reject?
    ensures MayAct(finding, request, context) <==>
              Operator(request, finding) && request.reason != "" && TurnOf(finding, request.actor.id)
  {
  }

  /** An approval needs a decidable finding; where the search was limited, checks and their evidence stated; and in
      the second stage a first approval of the same evidence, for the same search and in the same manner. */
  lemma ApproveAcceptedIff(finding: FindingRow, request: Request, context: ReviewContext)
    requires request.action.Approve?
    ensures MayAct(finding, request, context) <==>
              && Operator(request, finding) && request.reason != "" && TurnOf(finding, request.actor.id)
              && Decidable(finding, context, false)
              && var source, action := Source(context, false), request.action;
                 var limited := finding.key.kind in {Unused, UnusedService} && TypeLimited(source.value.search);
                 && (limited ==> action.manualVerified && !Blank(action.manualChecks) && !Blank(action.evidenceReference))
                 && (finding.review.state == SecondReview ==>
                       && finding.review.approvals.owner.value.fingerprint == ReviewFingerprintOf(finding.key.kind, finding.evidence)
                       && CoverageKept(finding, source.value.search)
                       && (limited ==> finding.review.approvals.owner.value.manualVerified))
  {
    hide Evident, TypeLimited, ApprovalReadiness, ReviewFingerprintOf, TypesIn, CoverageDiffers, Blank;
    ReadinessIff(finding, context, false);
    ReadyMeans(finding, context, false);
  }

  /** A completion needs a ticket, all approvals by different people, and everything they rest on unchanged. */
  lemma CompleteAcceptedIff(finding: FindingRow, request: Request, context: ReviewContext)
    requires request.action.Complete?
    ensures MayAct(finding, request, context) <==>
              && Operator(request, finding) && request.reason != "" && request.ticket != ""
              && Decidable(finding, context, false)
              && var review, search := finding.review, Source(context, false).value.search;
                 && review.state == Ready && review.owner.Some? && review.approvals.owner.Some?
                 && (review.required == 2 ==> review.approvals.second.Some?
                                              && review.approvals.second.value.actor != review.approvals.owner.value.actor)
                 && (if review.required == 2 then review.approvals.second else review.approvals.owner).value.fingerprint
                    == ReviewFingerprintOf(finding.key.kind, finding.evidence)
                 && CoverageKept(finding, search) && VerifiedByHand(finding, search)
  {
    hide Evident, TypeLimited, ApprovalReadiness, ReviewFingerprintOf, TypesIn, CoverageDiffers;
    ReadinessIff(finding, context, false);
    ReadyMeans(finding, context, false);
  }

  /** For a decidable finding: whether coverage changed, and whether manual verification is asked for. */
  lemma ReadyMeans(finding: FindingRow, context: ReviewContext, live: bool)
    ensures var readiness := ApprovalReadiness(finding, context, live);
            readiness.Supported? ==>
              && Source(context, live).Some?
              && var search := Source(context, live).value.search;
                 && (readiness.manual <==> finding.key.kind in {Unused, UnusedService} && TypeLimited(search))
                 && (CoverageDiffers(finding.key.kind, finding.review.approvals, readiness.coverage) <==> !CoverageKept(finding, search))
  {
    hide Evident, TypeLimited, ApprovalReadiness, ReviewFingerprintOf, TypesIn, CoverageDiffers;
    if ApprovalReadiness(finding, context, live).Supported? {
      ReadinessIff(finding, context, live);
      ManualIff(finding, context, live);
      var search := Source(context, live).value.search;
      if finding.key.kind in {Unused, UnusedService} && finding.review.approvals.owner.Some? {
        CoverageDiffersIff(finding.key.kind, finding.review.approvals, search);
      } else {
        CoverageMattersOnlyToUnused(finding.key.kind, finding.review.approvals,
                                    ApprovalReadiness(finding, context, live).coverage);
      }
    }
  }

  /** Owners come and go by requests of operators; nobody is made owner of a completed review, or twice. */
  lemma OwnershipAcceptedIff(finding: FindingRow, request: Request, context: ReviewContext)
    requires request.action.Assign? || request.action.Unassign?
    ensures MayAct(finding, request, context) <==>
              && Operator(request, finding) && finding.review.state != Decommissioned
              && match request.action
                 case Assign(owner) =>
                   && (request.reason != "" || finding.review.owner == None)
                   && owner.active && owner.staff && finding.review.owner != Some(owner.id)
                 case _ =>
                   && request.reason != "" && finding.review.owner.Some?
                   && (request.actor.superuser || finding.review.owner.value == request.actor.id)
  {
  }

  lemma ReopenAcceptedIff(finding: FindingRow, request: Request, context: ReviewContext)
    requires request.action.Reopen?
    ensures MayAct(finding, request, context) <==>
              && Operator(request, finding) && request.reason != ""
              && (finding.review.state == Rejected || (finding.review.state == Decommissioned && request.actor.superuser))
  {
  }

  // ----- Recovery -----

  /** The collection saw the approved condition, completely and by the same search. */
  predicate Repeats(collection: RetainedCollection, kind: Kind, decision: Decision) {
    && !collection.incomplete
    && (kind in {Unused, UnusedService} ==>
          && decision.coverageKey.Some?
          && decision.coverageKey.value.mode == (if collection.search.Dict? then Get(collection.search.fields, "mode") else Null)
          && decision.coverageKey.value.types == TypesIn(collection.search))
    && collection.condition == Some(ConditionFingerprint(kind, decision.evidence))
  }

  /** A first approval may be recovered exactly for a finding in owner review that needs two, when the last event
      withdrew it only because the finding stopped qualifying; its giver still owns the finding and works here; the
      finding is decidable without manual checks, on the approved evidence and search; the approval names its object;
      and the retained collections since confirm its condition, with no other interruption than a gap. */
  lemma RecoverIff(finding: FindingRow, owner: User, context: ReviewContext, retained: Retained)
    ensures MayRecover(finding, owner, context, retained) <==>
              var review, n := finding.review, |finding.review.events|;
              && review.state == OwnerReview && review.approvals == NO_APPROVALS && review.required == 2
              && n > 0 && review.events[n - 1].Invalidated? && review.events[n - 1].reason == NoLongerQualifies
              && review.events[n - 1].prior.owner.Some?
              && var decision := review.events[n - 1].prior.owner.value;
                 && decision.required == 2 && review.owner == Some(decision.actor) && owner.id == decision.actor
                 && owner.active && owner.staff
                 && Decidable(finding, context, false)
                 && var search := Source(context, false).value.search;
                    && !(finding.key.kind in {Unused, UnusedService} && TypeLimited(search))
                    && decision.fingerprint == ReviewFingerprintOf(finding.key.kind, finding.evidence)
                    && decision.coverageKey == (if finding.key.kind in {Unused, UnusedService} then Some(CoverageKeyOf(search)) else None)
                    && (|| Truthy(Get(decision.evidence, "unique_id")) || Truthy(Get(decision.evidence, "created_at"))
                        || Truthy(Get(decision.evidence, "rule_id")) || Truthy(Get(decision.evidence, "policy_rule_id")))
                    && finding.key.kind in retained.replayed && retained.gapOnly
                    && retained.approvedAt.Some? && finding.watch.started.Some?
                    && finding.watch.started.value <= retained.approvedAt.value
                    && forall i | 0 <= i < |retained.collections| :: Repeats(retained.collections[i], finding.key.kind, decision)
  {
    hide Evident, TypeLimited, ApprovalReadiness, ReviewFingerprintOf, TypesIn, Confirms, Repeats, CoverageKeyOf,
         ConditionFingerprint;
    ReadinessIff(finding, context, false);
    if ApprovalReadiness(finding, context, false).Supported? {
      ManualIff(finding, context, false);
    }
    forall collection: RetainedCollection, decision: Decision
      ensures Confirms(collection, finding.key.kind, decision) <==> Repeats(collection, finding.key.kind, decision)
    {
      RepeatsIff(collection, finding.key.kind, decision);
    }
  }

  lemma RepeatsIff(collection: RetainedCollection, kind: Kind, decision: Decision)
    ensures Confirms(collection, kind, decision) <==> Repeats(collection, kind, decision)
  {
    hide ConditionFingerprint;
    var search := collection.search;
    if search.Dict? && Get(search.fields, "resource_types").List? {
      var items := Get(search.fields, "resource_types").items;
      assert (set item | item in items && item.Str? :: item.s) == set i | 0 <= i < |items| && items[i].Str? :: items[i].s;
    }
  }
}
