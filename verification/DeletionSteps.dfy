/** What the steps of the deletion protocol need and do, row by row. */
module DeletionSteps {
  import opened Common
  import opened FindingModel
  import opened FindingWorkflow
  import opened CleanupPlan
  import opened PlanComparison
  import opened DeletionGuards
  import opened DeletionProtocol
  import opened Findings
  import Reviews = ApprovalSafety

  // ----- The checks repeated before every change -----

  /** The person answerable for a request: once confirmed only whoever confirmed it, before that the requester. */
  predicate Answerable(batch: Batch, user: UserId) {
    if batch.confirmedAt.Some? then batch.confirmedBy == Some(user) else batch.requester == Some(user)
  }

  lemma GuardIff(batch: Batch, finding: FindingRow, item: Item, settings: Settings, context: ReviewContext)
    ensures Guard(batch, finding, item, settings, context) <==>
              && (exists user | user in settings.permitted :: Answerable(batch, user))
              && batch.manager == settings.manager && item.key == Some(finding.key) && item.revision == finding.revision
              && ApprovalsValid(finding, context)
  {
    hide ApprovalsValid;
    if Responsible(batch).Some? && Responsible(batch).value in settings.permitted {
      assert Answerable(batch, Responsible(batch).value);
    }
  }

  /** Execution needs a ticket, a confirmation at most ten minutes after verification and at most an hour old, and
      the answerable person to be eligible. */
  lemma AuthorizedIff(batch: Batch, item: Item, finding: FindingRow, settings: Settings, context: ReviewContext, now: Time)
    ensures Authorized(batch, item, finding, settings, context, now) <==>
              && batch.ticket != "" && batch.confirmedAt.Some? && item.verifiedAt.Some?
              && item.verifiedAt.value <= batch.confirmedAt.value <= item.verifiedAt.value + 10 * MINUTE
              && now <= batch.confirmedAt.value + 60 * MINUTE
              && ApprovalsValid(finding, context) && (item.plan != [] ==> CleanupApproved(item, finding, settings))
              && batch.confirmedBy.Some? && MayExecute(batch.confirmedBy.value, batch, item, finding, settings)
  {
    hide ApprovalsValid, CleanupApproved, MayExecute;
  }

  /** Whether the worker holds this item for execution, and the rows it needs are there. */
  predicate Holds(s: State, w: WorkerId, i: ItemId) {
    && w in s.workers && s.workers[w].phase.Looping? && s.workers[w].phase.execute && s.workers[w].batch in s.batches
    && !s.workers[w].phase.flight.Idle? && s.workers[w].phase.flight.item == i && i in s.items
  }

  /** The finding of an item in the n-th state of the findings. */
  predicate Shows(s: State, n: nat, item: Item, finding: FindingRow) {
    && n < |s.findings| && item.key.Some? && item.key.value in s.findings[n] && s.findings[n][item.key.value] == finding
  }

  /** A DELETE leaves exactly after its intent was stored, when the checks pass once more on the locked finding. */
  lemma SendIff(s: State, w: WorkerId, i: ItemId, live: Row)
    requires Holds(s, w, i)
    ensures Enabled(s, SendDelete(w, live)) <==>
              && s.workers[w].phase.flight.Intended? && s.findings != []
              && var item, batch := s.items[i], s.batches[s.workers[w].batch];
                 && s.settings.enabled && live == item.before
                 && (exists locked :: Shows(s, |s.findings| - 1, item, locked)
                       && Guard(batch, locked, item, s.settings, Context(s, item))
                       && (item.plan != [] ==> CleanupApproved(item, locked, s.settings)))
                 && exists seen :: Shows(s, s.workers[w].phase.flight.seen, item, seen)
                      && Authorized(batch, item, seen, s.settings, Context(s, item), s.now)
  {
    hide Guard, Authorized, CleanupApproved, ContextOf;
    ShownFinding(s, s.items[i]);
  }

  lemma ShownFinding(s: State, item: Item)
    ensures forall n: nat, finding: FindingRow :: Shows(s, n, item, finding) <==> FindingAt(s, n, item) == Some(finding)
  {
  }

  /** A planned change is checked on the newest finding, the object and the rule, each time. */
  lemma MayChangeIff(item: Item, c: Circumstances)
    requires |item.results| < |item.plan|
    ensures MayChange(item, c) <==>
              && c.finding.Some? && c.settings.enabled && c.live == item.before
              && Guard(c.batch, c.finding.value, item, c.settings, ContextOf(c.around, c.now, item))
              && Authorized(c.batch, item, c.finding.value, c.settings, ContextOf(c.around, c.now, item), c.now)
              && CleanupApproved(item, c.finding.value, c.settings)
              && var change := item.plan[|item.results|];
                 && (forall field | field !in {"_revision", "_last_modified_time", "_last_modified_user"} ::
                       Same(change.before, c.reading.rule, field))
                 && (forall field | field !in {"_revision", "_last_modified_time", "_last_modified_user", "rules", "children"} ::
                       Same(change.policy, c.reading.policy, field))
                 && Get(c.reading.rule, "_revision").Num? && !Protected(c.reading.policy)
                 && (change.after == None ==> c.reading.users == {})
  {
    hide Guard, Authorized, CleanupApproved, ContextOf, Protected;
    var change := item.plan[|item.results|];
    StableIff(change.before, c.reading.rule);
    StablePolicyIff(change.policy, c.reading.policy);
  }

  predicate Same(a: Row, b: Row, field: string) {
    (field in a <==> field in b) && (field in a ==> a[field] == b[field])
  }

  lemma StableIff(a: Row, b: Row)
    ensures Stable(a) == Stable(b) <==>
              forall field | field !in {"_revision", "_last_modified_time", "_last_modified_user"} :: Same(a, b, field)
  {
    if Stable(a) == Stable(b) {
      forall field | field !in {"_revision", "_last_modified_time", "_last_modified_user"}
        ensures Same(a, b, field)
      {
        assert field in Stable(a) <==> field in Stable(b);
      }
    }
    if forall field | field !in {"_revision", "_last_modified_time", "_last_modified_user"} :: Same(a, b, field) {
      assert forall field | field in Stable(a) :: Same(a, b, field);
      assert forall field | field in Stable(b) :: Same(a, b, field);
      assert Stable(a) == Stable(b);
    }
  }

  lemma StablePolicyIff(a: Row, b: Row)
    ensures StablePolicy(a) == StablePolicy(b) <==>
              forall field | field !in {"_revision", "_last_modified_time", "_last_modified_user", "rules", "children"} :: Same(a, b, field)
  {
    if StablePolicy(a) == StablePolicy(b) {
      forall field | field !in {"_revision", "_last_modified_time", "_last_modified_user", "rules", "children"}
        ensures Same(a, b, field)
      {
        assert field in StablePolicy(a) <==> field in StablePolicy(b);
      }
    }
    if forall field | field !in {"_revision", "_last_modified_time", "_last_modified_user", "rules", "children"} :: Same(a, b, field) {
      assert forall field | field in StablePolicy(a) :: Same(a, b, field);
      assert forall field | field in StablePolicy(b) :: Same(a, b, field);
      assert StablePolicy(a) == StablePolicy(b);
    }
  }

  /** A finding is judged by the clock, the settings and what the newest collections say about it at that moment. */
  lemma ContextIs(around: Surroundings, now: Time, item: Item, key: Key)
    requires item.key == Some(key)
    ensures var context := ContextOf(around, now, item);
            && context.now == now && context.staleHours == around.staleHours && context.interval == around.interval
            && (context.recalculating <==> key.kind in around.recalculating)
            && (context.affected <==> key in around.affected)
            && context.latest == (if key in around.latest then Some(around.latest[key]) else None)
            && context.direct == (if key in around.direct then Some(around.direct[key]) else None)
  {
  }

  // ----- Confirmation -----

  /** A request is confirmed exactly with a ticket and some of its verified items, each verified at most ten minutes
      ago and executable by the user. */
  lemma ConfirmIff(s: State, b: BatchId, user: UserId, ticket: string, selected: set<ItemId>)
    ensures MayConfirm(s, b, user, ticket, selected) <==>
              && b in s.batches && s.batches[b].status == PreviewReady && s.findings != []
              && 0 < |ticket| <= 255 && !Blank(ticket) && selected != {}
              && forall i | i in selected ::
                   && i in s.items && s.items[i].batch == b && s.items[i].status == Verified
                   && s.items[i].verifiedAt.Some? && s.now <= s.items[i].verifiedAt.value + 10 * MINUTE
                   && exists finding :: Shows(s, |s.findings| - 1, s.items[i], finding)
                        && CanExecute(Some(user), s.batches[b], s.items[i], finding, s.settings, Context(s, s.items[i]))
  {
    hide CanExecute, ContextOf, Blank;
    NothingIsBlank();
    forall i | i in s.items
      ensures forall n: nat, finding: FindingRow :: Shows(s, n, s.items[i], finding) <==> FindingAt(s, n, s.items[i]) == Some(finding)
    {
      ShownFinding(s, s.items[i]);
    }
  }

  lemma NothingIsBlank()
    ensures Blank("")
  {
  }

  /** Confirming everything queues the request; confirming a part queues a new one with a copy of each item, and the
      originals are done. Nothing else changes. */
  lemma ConfirmDoes(s: State, b: BatchId, user: UserId, ticket: string, selected: set<ItemId>, target: BatchId,
                    copies: map<ItemId, ItemId>)
    requires Enabled(s, Confirm(b, user, ticket, selected, target, copies))
    ensures var t := After(s, Confirm(b, user, ticket, selected, target, copies));
            && target in t.batches && t.batches == s.batches[target := t.batches[target]]
            && t.batches[target] == Batch(Queued, s.batches[b].requester, s.batches[b].manager, ticket, Some(s.now), Some(user))
            && t.workers == s.workers && t.recovering == s.recovering && t.log == s.log && t.findings == s.findings
            && (target == b ==>
                  t.items == s.items
                  && forall i | i in s.items && s.items[i].batch == b ::
                       i in selected || s.items[i].status !in {Verified, CleanupReview, CleanupRecheck})
            && (target != b ==>
                  && t.items.Keys == s.items.Keys + copies.Keys && copies.Keys !! s.items.Keys && copies.Values == selected
                  && (forall i | i in s.items ::
                        t.items[i] == if i in selected then s.items[i].(status := Delegated) else s.items[i])
                  && (forall c | c in copies ::
                        copies[c] in s.items
                        && t.items[c] == s.items[copies[c]].(batch := target, origin := Some(copies[c]), results := [])))
  {
    hide CanExecute, ContextOf, Blank, FindingAt, SameOrigins, AfterPreview, AfterCleanup, AfterExecution, AfterEnding,
         PreviewEnabled, CleanupEnabled, ExecutionEnabled, EndingEnabled;
    if !TakesAll(s, b, selected) {
      assert forall c | c in copies :: copies[c] in copies.Values;
      assert target != b;
    }
  }

  // ----- Previews -----

  /** What a finished check makes of an item, unless item or request were cancelled meanwhile. */
  lemma PreviewDoes(s: State, w: WorkerId, preview: Preview)
    requires Enabled(s, EndPreview(w, preview))
    ensures var t, i, b := After(s, EndPreview(w, preview)), FlightOf(s, w).item, s.workers[w].batch;
            && i in s.items && i in t.items && t.items == s.items[i := t.items[i]]
            && t.batches == s.batches && t.log == s.log && t.findings == s.findings
            && if s.items[i].status == ItemCancelled || s.batches[b].status in {Cancelling, Cancelled} then t.items == s.items
               else
                 match preview
                 case NoObject => t.items[i] == s.items[i].(status := AlreadyAbsent)
                 case Refused => t.items[i] == s.items[i].(status := ItemStatus.Blocked)
                 case Found(live, plan) =>
                   && t.items[i].before == live && t.items[i].verifiedAt == Some(s.now)
                   && (if t.items[i].status == CleanupReview
                       then plan != [] && t.items[i].plan == plan && t.items[i].approvals == []
                       else && t.items[i].status == Verified && t.items[i].plan == s.items[i].plan
                            && t.items[i].approvals == s.items[i].approvals
                            && (plan == [] || Rechecked(s, w, i)))
                   && (plan != [] && !Rechecked(s, w, i) ==> t.items[i].status == CleanupReview)
  {
    hide Guard, CleanupApproved, SamePlan, ContextOf, FindingAt, SameOrigins, AfterRequest, AfterCleanup, AfterExecution,
         AfterEnding, RequestEnabled, CleanupEnabled, ExecutionEnabled, EndingEnabled;
  }

  /** The item is looked at again after its plan was approved. */
  predicate Rechecked(s: State, w: WorkerId, i: ItemId)
    requires w in s.workers && s.workers[w].phase.Looping? && i in s.items
  {
    var statuses := s.workers[w].phase.statuses;
    && i in statuses
    && (|| statuses[i] == CleanupRecheck
        || (statuses[i] == Verified && s.items[i].plan != [] && exists j | j in statuses :: statuses[j] == CleanupRecheck))
  }

  /** An object is offered for confirmation only if its finding passes the checks; an approved plan only if object
      and plan are still the approved ones. */
  lemma FoundIff(s: State, w: WorkerId, live: Row, plan: seq<Change>)
    requires Working(s, w, false) && FlightOf(s, w).Previewing? && FlightOf(s, w).item in s.items
    ensures Enabled(s, EndPreview(w, Found(live, plan))) <==>
              var i := FlightOf(s, w).item;
              var item, batch := s.items[i], s.batches[s.workers[w].batch];
              exists finding :: Shows(s, s.workers[w].phase.since, item, finding)
                && Guard(batch, finding, item, s.settings, Context(s, item))
                && (plan != [] ==> finding.key.kind == EmptyGroup)
                && (Rechecked(s, w, i) ==>
                      live == item.before && SamePlan(item.plan, plan) && CleanupApproved(item, finding, s.settings))
  {
    hide Guard, CleanupApproved, SamePlan, ContextOf, SameOrigins;
    ShownFinding(s, s.items[FlightOf(s, w).item]);
  }

  // ----- Requests, workers and recovery -----

  /** Only ready findings of the six kinds are selected, each as an item of its own that remembers the revision. */
  lemma SelectDoes(s: State, b: BatchId, requester: UserId, chosen: map<ItemId, Key>)
    ensures Enabled(s, Select(b, requester, chosen)) <==>
              && s.findings != [] && b !in s.batches && chosen.Keys !! s.items.Keys
              && forall i | i in chosen ::
                   && chosen[i] in s.findings[|s.findings| - 1]
                   && chosen[i].kind in {Unused, UnusedService, EmptyGroup, ZeroHits, Disabled, EmptyPolicy}
                   && s.findings[|s.findings| - 1][chosen[i]].review.state == Ready
    ensures Enabled(s, Select(b, requester, chosen)) ==>
              var t := After(s, Select(b, requester, chosen));
              && t.batches == s.batches[b := Batch(PreviewQueued, Some(requester), s.settings.manager, "", None, None)]
              && t.items.Keys == s.items.Keys + chosen.Keys
              && (forall i | i in s.items :: t.items[i] == s.items[i])
              && forall i | i in chosen ::
                   t.items[i] == Item(b, None, chosen[i].path, Some(chosen[i]),
                                      s.findings[|s.findings| - 1][chosen[i]].revision, Pending, None, map[], [], [], [])
  {
    hide SameOrigins, AfterRequest, AfterCleanup, AfterExecution, AfterEnding, RequestEnabled, CleanupEnabled,
         ExecutionEnabled, EndingEnabled;
  }

  /** A finished worker leaves its request completed or offered, or cancelled if that was asked for. */
  lemma FinishDoes(s: State, w: WorkerId)
    requires Enabled(s, Finish(w))
    ensures var t, b := After(s, Finish(w)), s.workers[w].batch;
            && t.workers == s.workers - {w} && t.items == s.items && b in s.batches
            && t.batches == s.batches[b := s.batches[b].(status :=
                 if s.batches[b].status in {Cancelling, Cancelled} then BatchStatus.Cancelled
                 else if s.workers[w].phase.execute then Completed else PreviewReady)]
  {
    hide SameOrigins, AfterRequest, AfterCleanup, AfterExecution, AfterPreview, RequestEnabled, CleanupEnabled,
         ExecutionEnabled, PreviewEnabled;
  }

  /** An item that could not be executed is uncertain exactly when a rule change of it may be under way. */
  lemma GiveUpDoes(s: State, w: WorkerId)
    requires Enabled(s, GiveUp(w))
    ensures var t, i := After(s, GiveUp(w)), FlightOf(s, w).item;
            && i in s.items && t.log == s.log && t.findings == s.findings && t.batches == s.batches
            && t.items == s.items[i := s.items[i].(status :=
                 if exists k | 0 <= k < |s.items[i].results| :: s.items[i].results[k].status in {RuleSending, RuleUncertain}
                 then Uncertain else ItemStatus.Blocked)]
  {
    hide SameOrigins, AfterRequest, AfterCleanup, AfterEnding, AfterPreview, RequestEnabled, CleanupEnabled,
         EndingEnabled, PreviewEnabled;
  }

  /** What the three updates of a recovery together make of an item of the interrupted request. */
  lemma RecoveryDoes(item: Item)
    ensures var settled := RecoveredItem(RecoveredItem(RecoveredItem(item, 0), 1), 2);
            && settled == item.(status := settled.status)
            && settled.status ==
                 (if item.status == Deleted then Deleted
                  else if item.results != [] || item.status == Sending then Uncertain
                  else if item.status in {Pending, Verified, Validating, CleanupReview, CleanupRecheck} then ItemStatus.Blocked
                  else item.status)
  {
  }

  /** The outcome of a change is recorded in its place, the row of a deleted rule follows it, and the worker goes on
      only after a success. */
  lemma ConcludeDoes(s: State, w: WorkerId, i: ItemId, status: RuleStatus)
    requires Holds(s, w, i) && Enabled(s, ConcludeChange(w, status))
    ensures var t, item, flight := After(s, ConcludeChange(w, status)), s.items[i], FlightOf(s, w);
            var n := |item.results| - 1;
            && n >= 0 && i in t.items && t.items.Keys == s.items.Keys && t.log == s.log && t.findings == s.findings
            && t.items[i] == item.(results := item.results[..n] + [item.results[n].(status := status)])
            && FlightOf(t, w) == (if status in {RuleUpdated, RuleDeleted} then Cleaning(i, flight.seen) else Broken(i))
            && forall j | j in s.items && j != i ::
                 t.items[j] == if flight.child != Some(j) then s.items[j]
                               else s.items[j].(status := if status in {RuleUpdated, RuleDeleted} then Deleted
                                                          else if status == RuleFailed then Failed else Uncertain)
  {
    hide SameOrigins, AfterRequest, AfterExecution, AfterEnding, AfterPreview, RequestEnabled, ExecutionEnabled,
         EndingEnabled, PreviewEnabled;
  }

  // ----- Cleanup review and cancellation -----

  /** A cleanup is approved by permitted people, each once, for the plan as it is; with enough of them the item is to
      be verified again. */
  lemma ApproveCleanupDoes(s: State, i: ItemId, user: UserId, finding: FindingRow)
    requires Enabled(s, ApproveCleanup(i, user)) && Shows(s, |s.findings| - 1, s.items[i], finding)
    ensures var t, item := After(s, ApproveCleanup(i, user)), s.items[i];
            && item.status == CleanupReview && user in s.settings.permitted
            && (forall k | 0 <= k < |item.approvals| :: item.approvals[k].actor != user)
            && i in t.items && t.items == s.items[i := t.items[i]] && t.log == s.log && t.findings == s.findings
            && t.items[i].approvals
               == item.approvals + [CleanupApproval(user, CleanupDigest(item.plan, item.before, item.key, item.revision))]
            && t.items[i] == item.(approvals := t.items[i].approvals, status := t.items[i].status)
            && (t.items[i].status == CleanupRecheck <==>
                  |Actors(t.items[i].approvals)| >= CleanupRequirement(finding, s.settings))
            && (t.items[i].status == CleanupRecheck ==>
                  t.batches == s.batches[item.batch := s.batches[item.batch].(status := PreviewQueued)])
            && (t.items[i].status != CleanupRecheck ==> t.items[i].status == CleanupReview && t.batches == s.batches)
  {
    hide Guard, CleanupSound, CleanupRequirement, ContextOf, SameOrigins, AfterCleanup, AfterExecution, AfterEnding, AfterPreview,
         CleanupEnabled, ExecutionEnabled, EndingEnabled, PreviewEnabled;
    ShownFinding(s, s.items[i]);
    var item := s.items[i];
    forall k | 0 <= k < |item.approvals|
      ensures item.approvals[k].actor != user
    {
      assert item.approvals[k].actor in Actors(item.approvals);
    }
  }

  /** An open request can be cancelled until a rule change was recorded; its open items are cancelled, a check under
      way is waited for. */
  lemma CancelDoes(s: State, b: BatchId)
    ensures Enabled(s, CancelBatch(b)) <==>
              && b in s.batches && s.batches[b].status in {PreviewQueued, Checking, PreviewReady, Queued}
              && forall i | i in s.items && s.items[i].batch == b :: s.items[i].results == []
    ensures Enabled(s, CancelBatch(b)) ==>
              var t := After(s, CancelBatch(b));
              && t.batches == s.batches[b := s.batches[b].(status :=
                   if s.batches[b].status == Checking then Cancelling else BatchStatus.Cancelled)]
              && t.items.Keys == s.items.Keys && t.workers == s.workers && t.log == s.log
              && forall i | i in s.items ::
                   t.items[i] == if s.items[i].batch == b && s.items[i].status in {Pending, Verified, CleanupReview, CleanupRecheck}
                                 then s.items[i].(status := ItemCancelled) else s.items[i]
  {
    hide SameOrigins, AfterCleanup, AfterExecution, AfterEnding, AfterPreview, CleanupEnabled, ExecutionEnabled,
         EndingEnabled, PreviewEnabled;
  }

  // ----- Claiming, loading and choosing items -----

  /** A queued preview is being checked once claimed, a confirmed request is running; the worker starts from scratch. */
  lemma ClaimDoes(s: State, b: BatchId, w: WorkerId)
    ensures Enabled(s, Claim(b, w)) <==>
              b in s.batches && s.batches[b].status in {PreviewQueued, Queued} && w !in s.workers
    ensures Enabled(s, Claim(b, w)) ==>
              var t := After(s, Claim(b, w));
              && t.batches == s.batches[b := s.batches[b].(status :=
                   if s.batches[b].status == PreviewQueued then Checking else Running)]
              && t.workers == s.workers[w := Worker(b, Starting)] && t.items == s.items && t.log == s.log
  {
    hide SameOrigins, AfterCleanup, AfterExecution, AfterEnding, AfterRequest, CleanupEnabled, ExecutionEnabled,
         EndingEnabled, RequestEnabled;
  }

  /** A worker reads its request once: whether to execute, and the items as they are, with the findings of that
      moment. It stops when the request was cancelled before. */
  lemma LoadDoes(s: State, w: WorkerId)
    requires Enabled(s, Load(w))
    ensures var t, b := After(s, Load(w)), s.workers[w].batch;
            && b in s.batches && t.items == s.items && t.batches == s.batches && t.log == s.log
            && if s.batches[b].status !in {Checking, Running} then t.workers == s.workers - {w}
               else && w in t.workers && t.workers == s.workers[w := t.workers[w]] && t.workers[w].batch == b
                    && t.workers[w].phase.Looping? && t.workers[w].phase.flight == Idle
                    && t.workers[w].phase.execute == (s.batches[b].status == Running)
                    && t.workers[w].phase.since == |s.findings| - 1
                    && (forall i :: i in t.workers[w].phase.statuses <==> i in s.items && s.items[i].batch == b)
                    && forall i | i in t.workers[w].phase.statuses :: t.workers[w].phase.statuses[i] == s.items[i].status
  {
    hide SameOrigins, AfterCleanup, AfterExecution, AfterEnding, AfterRequest, CleanupEnabled, ExecutionEnabled,
         EndingEnabled, RequestEnabled;
  }

  /** A check looks at every item not withdrawn; after a cleanup approval only at those approved or verified. */
  lemma BeginPreviewIff(s: State, w: WorkerId, i: ItemId)
    ensures Enabled(s, BeginPreview(w, i)) <==>
              && w in s.workers && s.workers[w].batch in s.batches && s.workers[w].phase.Looping?
              && !s.workers[w].phase.execute && s.workers[w].phase.flight.Idle? && i in s.items
              && var statuses := s.workers[w].phase.statuses;
                 && i in statuses && statuses[i] != ItemCancelled && statuses[i] != Delegated
                 && ((exists j | j in statuses :: statuses[j] == CleanupRecheck) ==> statuses[i] in {CleanupRecheck, Verified})
  {
    hide AfterCleanup, AfterExecution, AfterEnding, AfterRequest, CleanupEnabled, ExecutionEnabled, EndingEnabled,
         RequestEnabled;
  }

  /** An item is taken for execution by an idle worker of its request that finds it verified. */
  lemma TakeDoes(s: State, w: WorkerId, i: ItemId)
    ensures Enabled(s, Take(w, i)) <==>
              && w in s.workers && s.workers[w].batch in s.batches && s.workers[w].phase.Looping?
              && s.workers[w].phase.execute && s.workers[w].phase.flight.Idle? && i in s.workers[w].phase.statuses
              && i in s.items && s.items[i].status == Verified
    ensures Enabled(s, Take(w, i)) ==>
              var t := After(s, Take(w, i));
              && t.items == s.items[i := s.items[i].(status := Validating)] && t.log == s.log && t.batches == s.batches
              && FlightOf(t, w) == Inspecting(i) && t.workers == s.workers[w := t.workers[w]]
  {
    hide SameOrigins, AfterCleanup, AfterPreview, AfterEnding, AfterRequest, CleanupEnabled, PreviewEnabled,
         EndingEnabled, RequestEnabled;
  }

  // ----- Executing -----

  /** Plans are the same when neither makes a change the other does not make. */
  lemma SamePlanIff(approved: seq<Change>, current: seq<Change>)
    requires OncePerPath(approved) && OncePerPath(current)
    ensures SamePlan(approved, current) <==> ChangedNames(PlanJson(approved), PlanJson(current), "") == {}
  {
    hide ChangedNames, PlanJson, Among, OncePerPath;
    NoDifferenceIff(approved, current);
  }

  /** Before execution the live check finds the object as verified and either nothing to clean up, or exactly the
      approved plan, approved and not begun. */
  lemma InspectIff(s: State, w: WorkerId, i: ItemId, found: Inspection)
    requires Holds(s, w, i)
    ensures Enabled(s, Inspect(w, found)) <==>
              && s.workers[w].phase.flight.Inspecting?
              && var item, batch := s.items[i], s.batches[s.workers[w].batch];
                 exists finding :: Shows(s, s.workers[w].phase.since, item, finding)
                   && Guard(batch, finding, item, s.settings, Context(s, item))
                   && Authorized(batch, item, finding, s.settings, Context(s, item), s.now)
                   && found.live == item.before
                   && (forall path :: path in found.references <==> exists k :: 0 <= k < |found.plan| && found.plan[k].path == path)
                   && (found.references != {} ==> finding.key.kind == EmptyGroup)
                   && (item.plan == [] ==> found.plan == [])
                   && (item.plan != [] ==> SamePlan(item.plan, found.plan) && CleanupApproved(item, finding, s.settings)
                                           && item.results == [])
  {
    hide Guard, Authorized, CleanupApproved, SamePlan, ContextOf;
    ShownFinding(s, s.items[i]);
    assert PathsOf(found.plan) == found.references <==>
             forall path :: path in found.references <==> exists k :: 0 <= k < |found.plan| && found.plan[k].path == path by {
      PathsAre(found.plan);
    }
  }

  lemma PathsAre(plan: seq<Change>)
    ensures forall path :: path in PathsOf(plan) <==> exists k :: 0 <= k < |plan| && plan[k].path == path
  {
  }

  /** What passed the check is deleted next, or cleaned up first. */
  lemma InspectDoes(s: State, w: WorkerId, i: ItemId, found: Inspection)
    requires Holds(s, w, i) && Enabled(s, Inspect(w, found))
    ensures var t := After(s, Inspect(w, found));
            && t.items == s.items && t.batches == s.batches && t.findings == s.findings
            && t.log == s.log + [FreshCheck(i, found.live, found.references)]
            && t.workers == s.workers[w := t.workers[w]]
            && FlightOf(t, w) == if s.items[i].plan == [] then Checked(i, s.workers[w].phase.since)
                                 else Cleaning(i, s.workers[w].phase.since)
  {
    hide Guard, Authorized, CleanupApproved, SamePlan, ContextOf, SameOrigins, AfterExecution, AfterPreview, AfterEnding,
         AfterRequest, ExecutionEnabled, PreviewEnabled, EndingEnabled, RequestEnabled;
  }

  /** The intent to change the next rule is stored when everything passes; a rule to be deleted gets a row of its own,
      unless the request has one for it already. */
  lemma IntendChangeIff(s: State, w: WorkerId, i: ItemId, child: ItemId, live: Row, reading: RuleReading)
    requires Holds(s, w, i)
    ensures Enabled(s, IntendChange(w, child, live, reading)) <==>
              && s.workers[w].phase.flight.Cleaning? && s.findings != [] && child !in s.items
              && var item, batch := s.items[i], s.batches[s.workers[w].batch];
                 && |item.results| < |item.plan|
                 && MayChange(item, Circumstances(batch, FindingAt(s, |s.findings| - 1, item), s.settings, s.around, s.now, live, reading))
                 && (item.plan[|item.results|].after == None ==>
                       forall j | j in s.items && s.items[j].path == item.plan[|item.results|].path :: s.items[j].batch != item.batch)
  {
    hide MayChange;
  }

  lemma IntendChangeDoes(s: State, w: WorkerId, i: ItemId, child: ItemId, live: Row, reading: RuleReading)
    requires Holds(s, w, i) && Enabled(s, IntendChange(w, child, live, reading))
    ensures var t, item := After(s, IntendChange(w, child, live, reading)), s.items[i];
            var change := item.plan[|item.results|];
            var noted := item.(results := item.results + [Outcome(change.path, change.after == None, RuleSending)]);
            && t.batches == s.batches && t.log == s.log && t.findings == s.findings && t.workers == s.workers[w := t.workers[w]]
            && FlightOf(t, w).Changing? && FlightOf(t, w).item == i && !FlightOf(t, w).requested
            && FlightOf(t, w).seen == |s.findings| - 1
            && (change.after == None ==>
                  && FlightOf(t, w).child == Some(child)
                  && t.items == s.items[i := noted][child := t.items[child]]
                  && t.items[child] == Item(item.batch, None, change.path, None, 0, Sending, None, change.before, [], [], []))
            && (change.after != None ==> FlightOf(t, w).child == None && t.items == s.items[i := noted])
  {
    hide MayChange, ContextOf, SameOrigins, AfterExecution, AfterPreview, AfterEnding, AfterRequest, ExecutionEnabled,
         PreviewEnabled, EndingEnabled, RequestEnabled;
  }

  /** After the last change the object must be as verified, its approvals valid, and nothing may refer to it. */
  lemma FinishCleanupIff(s: State, w: WorkerId, i: ItemId, live: Row, references: set<Path>)
    requires Holds(s, w, i)
    ensures Enabled(s, FinishCleanup(w, live, references)) <==>
              && s.workers[w].phase.flight.Cleaning? && |s.items[i].results| == |s.items[i].plan|
              && live == s.items[i].before && references == {}
              && exists finding :: Shows(s, s.workers[w].phase.flight.seen, s.items[i], finding)
                   && ApprovalsValid(finding, Context(s, s.items[i]))
  {
    hide ApprovalsValid, ContextOf;
    ShownFinding(s, s.items[i]);
  }

  /** Work on an item can be given up at any point before a request is under way. */
  lemma GiveUpIff(s: State, w: WorkerId, i: ItemId)
    requires Holds(s, w, i)
    ensures Enabled(s, GiveUp(w)) <==>
              && !s.workers[w].phase.flight.Requested?
              && (s.workers[w].phase.flight.Changing? ==> !s.workers[w].phase.flight.requested)
  {
  }

  // ----- Decisions about a cleanup -----

  /** An item of an offered request with a plan. */
  predicate Offered(s: State, i: ItemId, status: ItemStatus) {
    && i in s.items && s.items[i].status == status && s.items[i].plan != [] && s.findings != []
    && s.items[i].batch in s.batches && s.batches[s.items[i].batch].status == PreviewReady
  }

  lemma CleanupDecisionsIff(s: State, i: ItemId, user: UserId)
    ensures Enabled(s, ApproveCleanup(i, user)) <==>
              && Offered(s, i, CleanupReview) && user in s.settings.permitted
              && (forall k | 0 <= k < |s.items[i].approvals| :: s.items[i].approvals[k].actor != user)
              && exists finding :: Shows(s, |s.findings| - 1, s.items[i], finding)
                   && Guard(s.batches[s.items[i].batch], finding, s.items[i], s.settings, Context(s, s.items[i]))
                   && CleanupSound(s.items[i], finding, s.settings)
    ensures Enabled(s, RejectCleanup(i)) <==> Offered(s, i, CleanupReview)
    ensures Enabled(s, Revalidate(i, user)) <==>
              && Offered(s, i, Verified)
              && exists finding :: Shows(s, |s.findings| - 1, s.items[i], finding)
                   && CanExecute(Some(user), s.batches[s.items[i].batch], s.items[i], finding, s.settings, Context(s, s.items[i]))
                   && Guard(s.batches[s.items[i].batch], finding, s.items[i], s.settings, Context(s, s.items[i]))
                   && CleanupApproved(s.items[i], finding, s.settings)
    ensures Enabled(s, CancelCleanup(i)) <==>
              && i in s.items && s.items[i].plan != [] && s.items[i].results == []
              && s.items[i].status in {Pending, Verified, CleanupReview, CleanupRecheck}
              && s.items[i].batch in s.batches
              && s.batches[s.items[i].batch].status in {PreviewQueued, Checking, PreviewReady, Queued}
  {
    hide Guard, CanExecute, CleanupSound, CleanupApproved, ContextOf;
    if i in s.items {
      ShownFinding(s, s.items[i]);
      assert user in Actors(s.items[i].approvals) <==>
               exists k :: 0 <= k < |s.items[i].approvals| && s.items[i].approvals[k].actor == user;
    }
  }

  // ----- The remaining steps -----

  /** Confirming all that is verified, with no cleanup under review, keeps the request; otherwise each selected item
      is copied once into a new one. */
  lemma ConfirmTargets(s: State, b: BatchId, user: UserId, ticket: string, selected: set<ItemId>, target: BatchId,
                       copies: map<ItemId, ItemId>)
    ensures Enabled(s, Confirm(b, user, ticket, selected, target, copies)) <==>
              && MayConfirm(s, b, user, ticket, selected)
              && if (forall i | i in s.items && s.items[i].batch == b && s.items[i].status == Verified :: i in selected)
                    && (forall i | i in s.items && s.items[i].batch == b ::
                          s.items[i].status != CleanupReview && s.items[i].status != CleanupRecheck)
                 then target == b
                 else && target !in s.batches && copies.Keys !! s.items.Keys && copies.Values == selected
                      && forall c, d | c in copies && d in copies && c != d :: copies[c] != copies[d]
  {
    hide MayConfirm;
  }

  /** A worker checks, stores the intent, sends, and takes the answer, in this order. */
  lemma ExecutionOrder(s: State, w: WorkerId, i: ItemId, outcome: ItemStatus, closed: Reviews.Database, related: Reviews.Database)
    requires Holds(s, w, i)
    ensures Enabled(s, FindAbsent(w)) <==> s.workers[w].phase.flight.Inspecting?
    ensures Enabled(s, Intend(w)) <==> s.workers[w].phase.flight.Checked?
    ensures Enabled(s, Answer(w, outcome, closed, related)) <==>
              s.workers[w].phase.flight.Requested? && s.findings != []
              && (outcome == Deleted || outcome == Failed || outcome == Uncertain)
    ensures Enabled(s, FindAbsent(w)) ==>
              After(s, FindAbsent(w)).items == s.items[i := s.items[i].(status := AlreadyAbsent)]
              && FlightOf(After(s, FindAbsent(w)), w) == Idle
    ensures Enabled(s, Intend(w)) ==>
              After(s, Intend(w)).items == s.items[i := s.items[i].(status := Sending)]
              && FlightOf(After(s, Intend(w)), w) == Intended(i, s.workers[w].phase.flight.seen)
    ensures Enabled(s, Answer(w, outcome, closed, related)) ==>
              After(s, Answer(w, outcome, closed, related)).items == s.items[i := s.items[i].(status := outcome)]
              && FlightOf(After(s, Answer(w, outcome, closed, related)), w) == Idle
  {
    hide SameOrigins, AfterCleanup, AfterPreview, AfterEnding, AfterRequest, CleanupEnabled, PreviewEnabled,
         EndingEnabled, RequestEnabled;
  }

  /** A rule change is requested once after its intent, and its outcome taken once after the request. */
  lemma ChangeOrder(s: State, w: WorkerId, i: ItemId, status: RuleStatus)
    requires Holds(s, w, i)
    ensures Enabled(s, RequestChange(w)) <==>
              s.workers[w].phase.flight.Changing? && !s.workers[w].phase.flight.requested && s.items[i].results != []
    ensures Enabled(s, ConcludeChange(w, status)) <==>
              s.workers[w].phase.flight.Changing? && s.workers[w].phase.flight.requested && s.items[i].results != []
              && status != RuleSending
    ensures Enabled(s, RequestChange(w)) ==>
              var t, flight := After(s, RequestChange(w)), s.workers[w].phase.flight;
              && FlightOf(t, w) == flight.(requested := true) && t.items == s.items
              && t.log == s.log + [RuleRequest(i, |s.items[i].results| - 1, flight.authority)]
  {
    hide SameOrigins, AfterExecution, AfterPreview, AfterEnding, AfterRequest, ExecutionEnabled, PreviewEnabled,
         EndingEnabled, RequestEnabled;
  }

  /** A worker may stop at any time. A request whose workers are gone is recovered in three updates and then counts
      as interrupted. */
  lemma RecoveryOrder(s: State, w: WorkerId, b: BatchId)
    ensures Enabled(s, Crash(w)) <==> w in s.workers
    ensures Enabled(s, Crash(w)) ==> After(s, Crash(w)) == s.(workers := s.workers - {w})
    ensures Enabled(s, StartRecovery(b)) <==>
              && b in s.batches && s.batches[b].status in {Checking, Running} && b !in s.recovering
              && forall v | v in s.workers :: s.workers[v].batch != b
    ensures Enabled(s, StartRecovery(b)) ==> After(s, StartRecovery(b)) == s.(recovering := s.recovering[b := 0])
    ensures Enabled(s, Recover(b)) <==> b in s.recovering && b in s.batches
    ensures Enabled(s, Recover(b)) ==>
              var t, stage := After(s, Recover(b)), s.recovering[b];
              && (stage >= 3 ==> t == s.(batches := s.batches[b := s.batches[b].(status := Interrupted)],
                                         recovering := s.recovering - {b}))
              && (stage < 3 ==>
                    && t.recovering == s.recovering[b := stage + 1] && t.batches == s.batches && t.items.Keys == s.items.Keys
                    && forall i | i in s.items ::
                         t.items[i] == if s.items[i].batch == b then RecoveredItem(s.items[i], stage) else s.items[i])
    ensures Enabled(s, AbandonRecovery(b)) <==> b in s.recovering
    ensures Enabled(s, AbandonRecovery(b)) ==> After(s, AbandonRecovery(b)) == s.(recovering := s.recovering - {b})
  {
    hide SameOrigins, AfterExecution, AfterPreview, AfterCleanup, AfterRequest, ExecutionEnabled, PreviewEnabled,
         CleanupEnabled, RequestEnabled, RecoveredItem;
  }

  /** What decisions about a cleanup do besides approving it. */
  lemma CleanupDecisionsDo(s: State, i: ItemId, user: UserId)
    ensures Enabled(s, RejectCleanup(i)) ==>
              After(s, RejectCleanup(i)) == s.(items := s.items[i := s.items[i].(status := CleanupRejected)])
    ensures Enabled(s, CancelCleanup(i)) ==>
              After(s, CancelCleanup(i)) == s.(items := s.items[i := s.items[i].(status := ItemCancelled)])
    ensures Enabled(s, Revalidate(i, user)) ==>
              var b := s.items[i].batch;
              After(s, Revalidate(i, user)) == s.(items := s.items[i := s.items[i].(status := CleanupRecheck)],
                                                  batches := s.batches[b := s.batches[b].(status := PreviewQueued)])
  {
    hide SameOrigins, Guard, CanExecute, CleanupApproved, ContextOf, FindingAt, AfterExecution, AfterPreview, AfterCleanup,
         AfterEnding, ExecutionEnabled, PreviewEnabled, CleanupEnabled, EndingEnabled;
  }

  /** Requests waiting for cancellation are cancelled; findings, settings and circumstances change, and time passes. */
  lemma WorldMoves(s: State, b: BatchId, step: Step)
    ensures Enabled(s, Reconcile(b)) <==> b in s.batches && s.batches[b].status == Cancelling
    ensures Enabled(s, Reconcile(b)) ==>
              After(s, Reconcile(b)) == s.(batches := s.batches[b := s.batches[b].(status := BatchStatus.Cancelled)])
    ensures step.Review? || step.ChangeSettings? || step.ChangeAround? ==> Enabled(s, step)
    ensures step.Tick? ==> (Enabled(s, step) <==> s.now <= step.now)
    ensures (step.Review? || step.ChangeSettings? || step.ChangeAround? || step.Tick?) && Enabled(s, step) ==>
              After(s, step) ==
                if step.Review? then s.(findings := s.findings + [step.after], reviews := s.reviews + [step.step])
                else if step.ChangeSettings? then s.(settings := step.settings)
                else if step.ChangeAround? then s.(around := step.around)
                else s.(now := step.now)
  {
    hide AfterExecution, AfterPreview, AfterCleanup, AfterEnding, ExecutionEnabled, PreviewEnabled, CleanupEnabled,
         EndingEnabled;
  }
}
