/** The promises of the deletion protocol, over every run. */
module DeletionTheorems {
  import opened Common
  import opened FindingModel
  import opened FindingWorkflow
  import opened ReviewRules
  import opened DeletionGuards
  import opened DeletionProtocol
  import opened DeletionRows
  import opened DeletionSafety
  import opened Findings
  import Reviews = ApprovalSafety

  lemma EmptyIsGood(s: State)
    requires Initial(s)
    ensures Good(s)
  {
  }

  lemma {:induction false} EveryStateIsGood(states: seq<State>, steps: seq<Step>, n: nat)
    requires Run(states, steps) && n < |states|
    ensures Good(states[n])
  {
    hide Good, Enabled, After, Initial;
    if n == 0 {
      EmptyIsGood(states[0]);
    } else {
      EveryStateIsGood(states, steps, n - 1);
      StepGood(states[n - 1], steps[n - 1]);
    }
  }

  // ----- What a step leaves alone -----

  lemma PreviewIsSilent(s: State, step: Step)
    requires PreviewStep(step) && PreviewEnabled(s, step)
    ensures Silent(s, AfterPreview(s, step))
  {
    hide Guard, CleanupApproved, FindingAt, SamePlan, Previewed, Rechecking, Selected, Claimed, Loaded, PreviewEnded,
         CanSelect;
  }

  lemma EndingIsSilent(s: State, step: Step)
    requires EndingStep(step) && EndingEnabled(s, step)
    ensures Silent(s, AfterEnding(s, step))
  {
    hide Attended, Finished, RecoveryStep;
  }

  lemma RequestIsSilent(s: State, step: Step)
    requires RequestStep(step) && RequestEnabled(s, step)
    ensures Silent(s, AfterRequest(s, step))
  {
    hide Guard, CanExecute, CleanupApproved, CleanupSound, FindingAt, Blank, OpenBatch, OpenItem, TakesAll, FreshCopies,
         ConfirmedState, CleanupDecided, CancelledState, Requeued;
  }

  /** Cleaning up records outcomes, and what leaves or is checked, and touches nothing else. */
  lemma CleanupWrites(s: State, step: Step)
    requires CleanupStep(step) && CleanupEnabled(s, step)
    ensures var t := AfterCleanup(s, step);
            && SameOrigins(s.items, t.items) && t.findings == s.findings && t.reviews == s.reviews
            && (t.log == s.log || (|t.log| == |s.log| + 1 && t.log == s.log + [t.log[|s.log|]]))
            && (t.log != s.log ==> !t.log[|s.log|].ObjectRequest?
                                   && (t.log[|s.log|].RuleRequest? <==> step.RequestChange?)
                                   && (step.RequestChange? || step.Inspect? || step.FinishCleanup?))
  {
    hide Guard, Authorized, CleanupApproved, FindingAt, SamePlan, Acceptable, Unaltered, ApprovalsValid, ChangeIntended,
         ChangeConcluded;
  }

  lemma ExecutionWrites(s: State, step: Step)
    requires ExecutionStep(step) && ExecutionEnabled(s, step)
    ensures var t := AfterExecution(s, step);
            && SameOrigins(s.items, t.items)
            && (!step.Answer? ==> t.findings == s.findings && t.reviews == s.reviews)
            && (!step.SendDelete? ==> t.log == s.log)
            && (step.SendDelete? ==> |t.log| == |s.log| + 1 && t.log == s.log + [t.log[|s.log|]]
                                     && t.log[|s.log|].ObjectRequest?)
  {
    hide Guard, Authorized, CleanupApproved, FindingAt, SomeDoubt, Moved, Answered;
    if step.Answer? {
      AnswerWrites(s, step.worker, step.outcome, step.closed, step.related);
    }
  }

  lemma AnswerWrites(s: State, w: WorkerId, outcome: ItemStatus, closed: Reviews.Database, related: Reviews.Database)
    requires On(s, w, true)
    ensures var t := Answered(s, w, outcome, closed, related); SameOrigins(s.items, t.items) && t.log == s.log
  {
    hide Moved;
  }

  /** Copies stay copies; only reviews and verified deletions move the findings; a step logs at most one event. */
  lemma StepWrites(s: State, step: Step)
    requires Enabled(s, step)
    ensures var t := After(s, step);
            && SameOrigins(s.items, t.items)
            && (!step.Review? && !step.Answer? ==> t.findings == s.findings && t.reviews == s.reviews)
            && (t.log == s.log || (|t.log| == |s.log| + 1 && t.log == s.log + [t.log[|s.log|]]))
            && (t.log != s.log ==> && (t.log[|s.log|].ObjectRequest? <==> step.SendDelete?)
                                   && (t.log[|s.log|].RuleRequest? <==> step.RequestChange?)
                                   && (step.SendDelete? || step.RequestChange? || step.Inspect? || step.FinishCleanup?))
  {
    hide AfterPreview, AfterCleanup, AfterExecution, AfterEnding, AfterRequest, PreviewEnabled, CleanupEnabled,
         ExecutionEnabled, EndingEnabled, RequestEnabled;
    if PreviewStep(step) {
      PreviewIsSilent(s, step);
    } else if CleanupStep(step) {
      CleanupWrites(s, step);
    } else if ExecutionStep(step) {
      ExecutionWrites(s, step);
    } else if EndingStep(step) {
      EndingIsSilent(s, step);
    } else if RequestStep(step) {
      RequestIsSilent(s, step);
    }
  }

  // ----- Requests leave one at a time, after their intent is stored -----

  /** Whatever a step sends to NSX in a reachable state, the intent to send it is stored already; and what the log
      says about a DELETE is what held at that moment. */
  lemma IntentPrecedesRequest(s: State, step: Step, event: Event)
    requires Good(s) && Enabled(s, step) && After(s, step).log == s.log + [event]
    ensures event.item in s.items
    ensures (event.ObjectRequest? ==>
              var a, item := event.authority, s.items[event.item];
              && item.status == Sending && a.item == item
              && item.batch in s.batches && a.batch == s.batches[item.batch]
              && a.settings == s.settings && a.around == s.around && a.now == s.now && a.locked == |s.findings| - 1)
    ensures (event.RuleRequest? ==>
              var results := s.items[event.item].results;
              && |results| == event.index + 1 && results[event.index].status == RuleSending
              && IntendedFor(event.authority.item, s.items[event.item]))
  {
    hide Good, Guard, Authorized, CleanupApproved, FindingAt, Acceptable, Unaltered, SamePlan;
    assert After(s, step).log[|s.log|] == event;
    StepWrites(s, step);
    ItemInHand(s, step.worker);
  }

  // ----- The findings go through an ordinary review run -----

  lemma RunGrows(dbs: seq<Reviews.Database>, steps: seq<Reviews.Step>, db: Reviews.Database, step: Reviews.Step)
    requires Reviews.Run(dbs, steps)
    requires dbs != [] && Writes(dbs[|dbs| - 1], db, step)
    ensures Reviews.Run(dbs + [db], steps + [step])
  {
    hide Reviews.StepOn;
    var longer, more := dbs + [db], steps + [step];
    forall i, key | 0 <= i < |more|
      ensures Lookup(longer[i + 1], key) == Reviews.StepOn(longer[i], key, more[i])
    {
      if i < |steps| {
        assert longer[i + 1] == dbs[i + 1] && longer[i] == dbs[i] && more[i] == steps[i];
      }
    }
  }

  lemma StepKeepsReviews(s: State, step: Step)
    requires Enabled(s, step) && ReviewsFollow(s, step) && Reviews.Run(s.findings, s.reviews)
    ensures Reviews.Run(After(s, step).findings, After(s, step).reviews) && s.findings <= After(s, step).findings
  {
    hide Reviews.Run, Reviews.StepOn, SameOrigins, After, Enabled;
    match step
    case Review(review, after) =>
      AfterReview(s, review, after);
      RunGrows(s.findings, s.reviews, after, review);
    case Answer(w, outcome, closed, related) =>
      AfterAnswer(s, w, outcome, closed, related);
      if Closes(s, w, outcome) {
        var closings := Closings(s, w);
        RunGrows(s.findings, s.reviews, closed, closings.0);
        RunGrows(s.findings + [closed], s.reviews + [closings.0], related, closings.1);
      }
    case _ => StepWrites(s, step);
  }

  /** A finding is closed, with the ticket, exactly when its object is verified to be gone. */
  lemma AnswerCloses(s: State, w: WorkerId, outcome: ItemStatus, closed: Reviews.Database, related: Reviews.Database)
    requires Enabled(s, Answer(w, outcome, closed, related)) && ReviewsFollow(s, Answer(w, outcome, closed, related))
    requires Reviews.Run(s.findings, s.reviews)
    requires var item := s.items[FlightOf(s, w).item]; item.key.Some? && item.key.value in Latest(s)
    ensures var t, key := After(s, Answer(w, outcome, closed, related)), s.items[FlightOf(s, w).item].key.value;
            if outcome == Deleted then
              && t.findings != [] && key in Latest(t) && !Latest(t)[key].present
              && Latest(t)[key].review.state == Decommissioned
              && Latest(t)[key].review.ticket == s.batches[s.workers[w].batch].ticket
            else t.findings == s.findings && t.reviews == s.reviews
  {
    hide Reviews.Run, After, Enabled;
    AfterAnswer(s, w, outcome, closed, related);
    if outcome == Deleted {
      var key, n := s.items[FlightOf(s, w).item].key.value, |s.findings| - 1;
      RunLengths(s.findings, s.reviews);
      Reviews.EveryRunIsSafe(s.findings, s.reviews, n, key);
      ClosingCloses(Latest(s), closed, related, key, s.batches[s.workers[w].batch].ticket);
    }
  }

  lemma ClosingCloses(db: Reviews.Database, closed: Reviews.Database, related: Reviews.Database, key: Key, ticket: string)
    requires key in db && db[key].key == key
    requires Writes(db, closed, Reviews.CloseDeleted(key, ticket)) && Writes(closed, related, Reviews.CloseRelated(key, ticket))
    ensures key in related && !related[key].present && related[key].review.state == Decommissioned
    ensures related[key].review.ticket == ticket
  {
    assert Lookup(closed, key) == Reviews.StepOn(db, key, Reviews.CloseDeleted(key, ticket));
    assert Lookup(related, key) == Reviews.StepOn(closed, key, Reviews.CloseRelated(key, ticket));
  }

  lemma AfterReview(s: State, review: Reviews.Step, after: Reviews.Database)
    ensures Enabled(s, Step.Review(review, after))
    ensures After(s, Step.Review(review, after)) == s.(findings := s.findings + [after], reviews := s.reviews + [review])
  {
  }

  lemma AfterAnswer(s: State, w: WorkerId, outcome: ItemStatus, closed: Reviews.Database, related: Reviews.Database)
    requires Enabled(s, Answer(w, outcome, closed, related))
    ensures On(s, w, true) && s.findings != []
    ensures After(s, Answer(w, outcome, closed, related)) == Answered(s, w, outcome, closed, related)
  {
  }

  // ----- Every request is authorised -----

  /** On the finding as it was when the last checks were made. */
  ghost predicate AuthoritySound(a: Authority, findings: seq<Reviews.Database>) {
    && a.locked < |findings| && a.item.key.Some? && a.item.key.value in findings[a.locked]
    && var finding, context := findings[a.locked][a.item.key.value], ContextOf(a.around, a.now, a.item);
       && Guard(a.batch, finding, a.item, a.settings, context)
       && Authorized(a.batch, a.item, finding, a.settings, context, a.now)
       && a.settings.enabled && a.live == a.item.before
       && (a.item.plan != [] ==> CleanupApproved(a.item, finding, a.settings))
  }

  /** The next planned change was still to be made, to a rule that is as approved. */
  predicate NextChange(a: Authority) {
    && |a.item.results| < |a.item.plan| && AllDone(a.item.results)
    && a.reading.Some? && Unaltered(a.item.plan[|a.item.results|], a.reading.value)
  }

  /** Before the DELETE of an object every planned rule change was requested once, in order, and succeeded. */
  predicate CleanedUp(log: seq<Event>, i: ItemId, item: Item) {
    FullyApplied(item) && Mutated(log, i) == Upto(|item.plan|)
  }

  /** A live check read the object like this and found no reference to it, and no rule change of the item was
      requested since. */
  predicate CheckedSince(log: seq<Event>, i: ItemId, live: Row) {
    exists m: nat :: m < |log| && log[m] == FreshCheck(i, live, {})
                     && forall k | m < k < |log| :: !(log[k].RuleRequest? && log[k].item == i)
  }

  lemma {:induction false} FreshlyCheckedMeans(log: seq<Event>, i: ItemId)
    requires FreshlyChecked(log, i).Some?
    ensures CheckedSince(log, i, FreshlyChecked(log, i).value)
  {
    var before, last := log[..|log| - 1], log[|log| - 1];
    var live := FreshlyChecked(log, i).value;
    if last.item != i || last.ObjectRequest? {
      FreshlyCheckedMeans(before, i);
      var m: nat :| m < |before| && before[m] == FreshCheck(i, live, {})
                    && forall k | m < k < |before| :: !(before[k].RuleRequest? && before[k].item == i);
      assert log[m] == before[m] && forall k | m < k < |before| :: log[k] == before[k];
    } else {
      assert log[|log| - 1] == FreshCheck(i, live, {});
    }
  }

  ghost predicate EntrySound(earlier: seq<Event>, event: Event, findings: seq<Reviews.Database>) {
    match event
    case FreshCheck(_, _, _) => true
    case RuleRequest(_, index, a) => AuthoritySound(a, findings) && NextChange(a) && index == |a.item.results|
    case ObjectRequest(i, a) =>
      AuthoritySound(a, findings) && CleanedUp(earlier, i, a.item) && CheckedSince(earlier, i, a.live)
  }

  ghost predicate EntriesSound(log: seq<Event>, findings: seq<Reviews.Database>) {
    forall n: nat | n < |log| :: EntrySound(log[..n], log[n], findings)
  }

  /** Intents stored but not requested yet carry a sound authority already. */
  ghost predicate IntentsSound(workers: Workers, findings: seq<Reviews.Database>) {
    forall w | w in workers && workers[w].phase.Looping? && workers[w].phase.flight.Changing? ::
      AuthoritySound(workers[w].phase.flight.authority, findings) && NextChange(workers[w].phase.flight.authority)
  }

  /** The executor was found eligible on the finding as last seen; the locked one has the same revision, and
      with it the same approvals. */
  lemma SendIsAuthorized(s: State, w: WorkerId, live: Row)
    requires Good(s) && Reviews.Run(s.findings, s.reviews) && Enabled(s, SendDelete(w, live))
    ensures var log := After(s, SendDelete(w, live)).log;
            |log| == |s.log| + 1 && EntrySound(s.log, log[|s.log|], s.findings)
  {
    hide Good, Mutated, ObjectSent, FreshlyChecked, ApprovalsValid, CleanupApproved, MayExecute, Timely, Reviews.StepOn,
         Decisions, Aligned, Recorded, ContextOf, CheckedSince;
    ItemInHand(s, w);
    var item, flight := s.items[FlightOf(s, w).item], FlightOf(s, w);
    FreshlyCheckedMeans(s.log, flight.item);
    var key, last := item.key.value, |s.findings| - 1;
    Reviews.RevisionPinsFinding(s.findings, s.reviews, flight.seen, last, key);
    var seen, locked := s.findings[flight.seen][key], s.findings[last][key];
    var batch := s.batches[s.workers[w].batch];
    EligibilityFollowsRevision(seen, locked, Responsible(batch).value, batch, item, s.settings);
  }

  lemma RequestIsAuthorized(s: State, w: WorkerId)
    requires Good(s) && Enabled(s, RequestChange(w)) && IntentsSound(s.workers, s.findings)
    ensures var log := After(s, RequestChange(w)).log;
            |log| == |s.log| + 1 && EntrySound(s.log, log[|s.log|], s.findings)
  {
    hide Good, Mutated, ObjectSent, FreshlyChecked, AuthoritySound, NextChange, Recorded, Aligned, SeenGood;
    ItemInHand(s, w);
  }

  lemma LaterFindingsKeep(a: Authority, before: seq<Reviews.Database>, after: seq<Reviews.Database>)
    requires AuthoritySound(a, before) && before <= after
    ensures AuthoritySound(a, after)
  {
    hide Guard, Authorized, CleanupApproved, ContextOf;
  }

  /** An intent is only stored after everything was checked. */
  lemma IntentIsAuthorized(s: State, w: WorkerId, child: ItemId, live: Row, reading: RuleReading)
    requires Good(s) && Enabled(s, IntendChange(w, child, live, reading))
    ensures var a := AuthorityOf(s, w, live, Some(reading)); AuthoritySound(a, s.findings) && NextChange(a)
    ensures After(s, IntendChange(w, child, live, reading)) == ChangeIntended(s, w, child, live, reading)
  {
    hide Good, Mutated, ObjectSent, FreshlyChecked, Guard, Authorized, CleanupApproved, Unaltered, ContextOf,
         ChangeIntended, Recorded, Aligned, SeenGood;
    ItemInHand(s, w);
  }

  /** No worker holds an intent it did not hold before. */
  predicate NoNewIntents(before: Workers, after: Workers) {
    forall w | w in after && after[w].phase.Looping? && after[w].phase.flight.Changing? ::
      && w in before && before[w].phase.Looping? && before[w].phase.flight.Changing?
      && after[w].phase.flight.authority == before[w].phase.flight.authority
  }

  lemma CleanupIntendsNothing(s: State, step: Step)
    requires CleanupStep(step) && CleanupEnabled(s, step) && !step.IntendChange?
    ensures NoNewIntents(s.workers, AfterCleanup(s, step).workers)
  {
    hide Guard, Authorized, CleanupApproved, FindingAt, SamePlan, Acceptable, ApprovalsValid, SameOrigins;
  }

  lemma ExecutionIntendsNothing(s: State, step: Step)
    requires ExecutionStep(step) && ExecutionEnabled(s, step)
    ensures NoNewIntents(s.workers, AfterExecution(s, step).workers)
  {
    hide Guard, Authorized, CleanupApproved, FindingAt, SomeDoubt, SameOrigins;
  }

  lemma PreviewIntendsNothing(s: State, step: Step)
    requires PreviewStep(step) && PreviewEnabled(s, step)
    ensures NoNewIntents(s.workers, AfterPreview(s, step).workers)
  {
    hide Guard, CleanupApproved, FindingAt, SamePlan, Previewed, Rechecking, SameOrigins;
  }

  lemma EndingIntendsNothing(s: State, step: Step)
    requires EndingStep(step) && EndingEnabled(s, step)
    ensures NoNewIntents(s.workers, AfterEnding(s, step).workers)
  {
    hide Attended, SameOrigins;
  }

  lemma RequestIntendsNothing(s: State, step: Step)
    requires RequestStep(step) && RequestEnabled(s, step)
    ensures NoNewIntents(s.workers, AfterRequest(s, step).workers)
  {
    hide Guard, CanExecute, CleanupApproved, CleanupSound, FindingAt, Blank, OpenBatch, OpenItem, TakesAll, FreshCopies,
         SameOrigins, CleanupRequirement, Actors, Split;
  }

  /** Other steps store no intent. */
  lemma OthersIntendNothing(s: State, step: Step)
    requires Enabled(s, step) && !step.IntendChange?
    ensures NoNewIntents(s.workers, After(s, step).workers)
  {
    hide AfterPreview, AfterCleanup, AfterExecution, AfterEnding, AfterRequest, PreviewEnabled, CleanupEnabled,
         ExecutionEnabled, EndingEnabled, RequestEnabled;
    if PreviewStep(step) {
      PreviewIntendsNothing(s, step);
    } else if CleanupStep(step) {
      CleanupIntendsNothing(s, step);
    } else if ExecutionStep(step) {
      ExecutionIntendsNothing(s, step);
    } else if EndingStep(step) {
      EndingIntendsNothing(s, step);
    } else if RequestStep(step) {
      RequestIntendsNothing(s, step);
    }
  }

  lemma StepKeepsIntents(s: State, step: Step)
    requires Good(s) && Reviews.Run(s.findings, s.reviews) && Enabled(s, step) && ReviewsFollow(s, step) && IntentsSound(s.workers, s.findings)
    ensures IntentsSound(After(s, step).workers, After(s, step).findings)
  {
    hide Good, Reviews.Run, AuthoritySound, NextChange, After, Enabled, ReviewsFollow;
    var t := After(s, step);
    StepKeepsReviews(s, step);
    if step.IntendChange? {
      IntentIsAuthorized(s, step.worker, step.child, step.live, step.reading);
      IntentMoves(s, step.worker, step.child, step.live, step.reading);
    } else {
      OthersIntendNothing(s, step);
    }
    forall w | w in t.workers && t.workers[w].phase.Looping? && t.workers[w].phase.flight.Changing?
      ensures AuthoritySound(t.workers[w].phase.flight.authority, t.findings)
      ensures NextChange(t.workers[w].phase.flight.authority)
    {
      LaterFindingsKeep(t.workers[w].phase.flight.authority, s.findings, t.findings);
    }
  }

  lemma IntentMoves(s: State, w: WorkerId, child: ItemId, live: Row, reading: RuleReading)
    requires Enabled(s, IntendChange(w, child, live, reading))
    ensures On(s, w, true) && s.findings != []
    ensures var t := After(s, IntendChange(w, child, live, reading));
            && w in t.workers && t.workers == s.workers[w := t.workers[w]] && t.workers[w].phase.Looping?
            && t.workers[w].phase.flight.Changing?
            && t.workers[w].phase.flight.authority == AuthorityOf(s, w, live, Some(reading))
  {
    hide Guard, Authorized, CleanupApproved, FindingAt, Unaltered, SameOrigins;
  }

  lemma StepKeepsEntries(s: State, step: Step)
    requires Good(s) && Reviews.Run(s.findings, s.reviews) && Enabled(s, step) && ReviewsFollow(s, step)
    requires EntriesSound(s.log, s.findings) && IntentsSound(s.workers, s.findings)
    ensures EntriesSound(After(s, step).log, After(s, step).findings)
  {
    hide Good, Reviews.Run, After, Enabled, ReviewsFollow, EntrySound, IntentsSound;
    var t := After(s, step);
    StepKeepsReviews(s, step);
    StepWrites(s, step);
    forall n: nat | n < |t.log|
      ensures EntrySound(t.log[..n], t.log[n], t.findings)
    {
      if n < |s.log| {
        assert t.log[n] == s.log[n] && t.log[..n] == s.log[..n];
        LaterEntry(s.log[..n], s.log[n], s.findings, t.findings);
      } else {
        assert t.log[..n] == s.log;
        NewEntry(s, step);
        LaterEntry(s.log, t.log[n], s.findings, t.findings);
      }
    }
  }

  lemma LaterEntry(earlier: seq<Event>, event: Event, before: seq<Reviews.Database>, after: seq<Reviews.Database>)
    requires EntrySound(earlier, event, before) && before <= after
    ensures EntrySound(earlier, event, after)
  {
    hide AuthoritySound, NextChange, CleanedUp, CheckedSince;
    if !event.FreshCheck? {
      LaterFindingsKeep(event.authority, before, after);
    }
  }

  lemma NewEntry(s: State, step: Step)
    requires Good(s) && Reviews.Run(s.findings, s.reviews) && Enabled(s, step) && IntentsSound(s.workers, s.findings)
    requires |After(s, step).log| == |s.log| + 1
    ensures EntrySound(s.log, After(s, step).log[|s.log|], s.findings)
  {
    hide Good, Reviews.Run, After, Enabled, AuthoritySound, NextChange, CleanedUp, CheckedSince, IntentsSound;
    StepWrites(s, step);
    if step.SendDelete? {
      SendIsAuthorized(s, step.worker, step.live);
    } else if step.RequestChange? {
      RequestIsAuthorized(s, step.worker);
    }
  }

  // ----- Each object is requested at most once -----

  function Root(items: Items, i: ItemId): ItemId
    requires i in items
  {
    if items[i].origin.Some? then items[i].origin.value else i
  }

  /** No two requests in the log are for the same item, or for an item and its copy. */
  predicate OncePerRoot(log: seq<Event>, items: Items) {
    forall a: nat, b: nat | a < b < |log| && log[a].ObjectRequest? && log[b].ObjectRequest? ::
      log[a].item in items && log[b].item in items && Root(items, log[a].item) != Root(items, log[b].item)
  }

  /** The item about to be deleted, and its original or copy, have not been requested before. */
  lemma NewRoot(s: State, w: WorkerId, a: nat)
    requires Good(s) && On(s, w, true) && FlightOf(s, w).Intended?
    requires a < |s.log| && s.log[a].ObjectRequest?
    ensures s.log[a].item in s.items && Root(s.items, s.log[a].item) != Root(s.items, FlightOf(s, w).item)
  {
    hide Mutated, ItemsFit, WorkersFit, StagesGood, WorkersGood, Aligned, Recorded, SeenGood;
    ItemInHand(s, w);
    var i, j := FlightOf(s, w).item, s.log[a].item;
    assert ObjectSent(s.log, j);
    ItemsAreGood(s, j);
    assert OriginFits(s.items[i], s.items, s.batches) && OriginFits(s.items[j], s.items, s.batches);
  }

  lemma StepKeepsOnce(s: State, step: Step)
    requires Good(s) && Enabled(s, step) && OncePerRoot(s.log, s.items)
    ensures OncePerRoot(After(s, step).log, After(s, step).items)
  {
    hide Good, After, Enabled, OncePerRoot;
    var t := After(s, step);
    StepWrites(s, step);
    GoodIsLogged(s);
    RootsStay(s.log, s.items, t.items);
    if step.SendDelete? {
      SendsItemInHand(s, step);
      forall a: nat | a < |s.log| && s.log[a].ObjectRequest?
        ensures s.log[a].item in s.items
        ensures Root(s.items, s.log[a].item) != Root(s.items, t.log[|s.log|].item)
      {
        NewRoot(s, step.worker, a);
      }
      LoggedOnce(s.log, t.log[|s.log|], s.items, t.items);
    } else if t.log != s.log {
      LoggedOnce(s.log, t.log[|s.log|], s.items, t.items);
    }
  }

  lemma RootsStay(log: seq<Event>, before: Items, after: Items)
    requires OncePerRoot(log, before) && SameOrigins(before, after)
    ensures OncePerRoot(log, after)
    ensures forall i | i in before :: i in after && Root(after, i) == Root(before, i)
  {
  }

  lemma LoggedOnce(log: seq<Event>, event: Event, before: Items, after: Items)
    requires OncePerRoot(log, after) && SameOrigins(before, after)
    requires event.ObjectRequest? ==> event.item in before
    requires event.ObjectRequest? ==> forall a: nat | a < |log| && log[a].ObjectRequest? ::
               log[a].item in before && Root(before, log[a].item) != Root(before, event.item)
    ensures OncePerRoot(log + [event], after)
  {
  }

  lemma GoodIsLogged(s: State)
    requires Good(s)
    ensures Logged(s.log, s.items)
  {
    hide Fits, ItemsGood, WorkersGood, StagesGood, Logged;
  }

  lemma SendsItemInHand(s: State, step: Step)
    requires Enabled(s, step) && step.SendDelete?
    ensures On(s, step.worker, true) && FlightOf(s, step.worker).Intended?
    ensures |After(s, step).log| == |s.log| + 1 && After(s, step).log[|s.log|].item == FlightOf(s, step.worker).item
  {
    hide Guard, Authorized, CleanupApproved, FindingAt;
  }

  // ----- The theorems -----

  ghost predicate Sound(s: State) {
    && Good(s) && Reviews.Run(s.findings, s.reviews) && OncePerRoot(s.log, s.items)
    && EntriesSound(s.log, s.findings) && IntentsSound(s.workers, s.findings)
  }

  lemma EmptyIsSound(s: State)
    requires Initial(s)
    ensures Sound(s)
  {
  }

  lemma {:induction false} EveryStateIsSound(states: seq<State>, steps: seq<Step>, n: nat)
    requires Run(states, steps) && n < |states|
    ensures Sound(states[n])
  {
    hide Good, Enabled, After, Initial, ReviewsFollow, EntriesSound, IntentsSound, OncePerRoot, Reviews.Run;
    if n == 0 {
      EmptyIsSound(states[0]);
    } else {
      var s, step := states[n - 1], steps[n - 1];
      EveryStateIsSound(states, steps, n - 1);
      StepGood(s, step);
      StepKeepsReviews(s, step);
      StepKeepsEntries(s, step);
      StepKeepsIntents(s, step);
      StepKeepsOnce(s, step);
    }
  }

  /** The DELETE of an object leaves at most once for an item and its delegated copy together. */
  lemma DeleteLeavesAtMostOnce(states: seq<State>, steps: seq<Step>, n: nat, a: nat, b: nat)
    requires Run(states, steps) && n < |states|
    requires var log := states[n].log; a < |log| && b < |log| && log[a].ObjectRequest? && log[b].ObjectRequest?
    requires var items := states[n].items;
             && states[n].log[a].item in items && states[n].log[b].item in items
             && Root(items, states[n].log[a].item) == Root(items, states[n].log[b].item)
    ensures a == b
  {
    hide Good, EntriesSound, Reviews.Run;
    EveryStateIsSound(states, steps, n);
  }

  /** An item whose DELETE may have left is never offered again, and once a request counts as interrupted all
      its items are settled: none is still sending, waiting or verified, and none with changed rules looks blocked. */
  lemma NothingSentIsForgotten(states: seq<State>, steps: seq<Step>, n: nat, i: ItemId)
    requires Run(states, steps) && n < |states| && i in states[n].items
    ensures var s := states[n];
            var item := s.items[i];
            && (ObjectSent(s.log, i) ==> item.status in {Sending, Deleted, Failed, Uncertain})
            && (item.batch in s.batches && s.batches[item.batch].status == Interrupted && item.batch !in s.recovering ==>
                  && item.status !in {Sending, Validating, Pending, Verified, CleanupReview, CleanupRecheck}
                  && (ObjectSent(s.log, i) ==> item.status in {Deleted, Failed, Uncertain})
                  && (item.results != [] ==> item.status in {Deleted, Uncertain}))
  {
    hide Good, Mutated, ObjectSent;
    EveryStateIsGood(states, steps, n);
    ItemsAreGood(states[n], i);
    OldStages(states[n], i);
  }

  /** Recorded outcomes follow the plan from its start; all but the last succeeded; the changes requested are
      exactly those recorded, in order and once each, except that the last intent may not have been carried out. */
  lemma CleanupIsOrderedPrefix(states: seq<State>, steps: seq<Step>, n: nat, i: ItemId)
    requires Run(states, steps) && n < |states| && i in states[n].items
    ensures var item, mutated := states[n].items[i], Mutated(states[n].log, i);
            && Aligned(item)
            && (forall k | 0 <= k < |mutated| :: mutated[k] == k)
            && |item.results| - 1 <= |mutated| <= |item.results|
            && (|mutated| < |item.results| ==> item.results[|mutated|].status == RuleSending)
  {
    hide Good, Mutated, ObjectSent, Aligned;
    EveryStateIsGood(states, steps, n);
    ItemsAreGood(states[n], i);
  }

  /** What every request to NSX had: a ticket; a confirmation at most ten minutes after verification and at most an
      hour before the last check; the object that was verified; a permitted and eligible executor; and a finding
      that was present, eligible and ready, approved for its current evidence by its current owner and, where two
      are required, by somebody else too, for the same search and with manual verification where that was limited;
      and the cleanup approvals the item needs. */
  ghost predicate Approved(a: Authority, findings: seq<Reviews.Database>) {
    && a.batch.ticket != "" && a.batch.confirmedAt.Some? && a.item.verifiedAt.Some?
    && 0 <= a.batch.confirmedAt.value - a.item.verifiedAt.value <= 10 * MINUTE
    && a.now - a.batch.confirmedAt.value <= 60 * MINUTE
    && a.live == a.item.before && a.settings.enabled && a.batch.manager == a.settings.manager
    && a.locked < |findings| && a.item.key.Some? && a.item.key.value in findings[a.locked]
    && var finding, context := findings[a.locked][a.item.key.value], ContextOf(a.around, a.now, a.item);
       && a.batch.confirmedBy.Some? && a.batch.confirmedBy.value in a.settings.permitted && MayExecute(a.batch.confirmedBy.value, a.batch, a.item, finding, a.settings)
       && (a.item.plan != [] ==> CleanupApproved(a.item, finding, a.settings))
       && finding.key == a.item.key.value && finding.revision == a.item.revision && Reviews.Safe(finding)
       && finding.review.owner.Some? && finding.review.approvals.owner.Some?
       && finding.review.approvals.owner.value.actor == finding.review.owner.value
       && ApprovedByOwner(finding) && Decidable(finding, context, true)
       && CoverageKept(finding, Source(context, true).value.search)
       && VerifiedByHand(finding, Source(context, true).value.search)
  }

  lemma SoundIsApproved(a: Authority, findings: seq<Reviews.Database>, reviews: seq<Reviews.Step>)
    requires AuthoritySound(a, findings) && Reviews.Run(findings, reviews)
    ensures Approved(a, findings)
  {
    hide Reviews.Run, MayExecute, CleanupApproved, Reviews.Safe, ContextOf, ApprovalsValid, CoverageKept, VerifiedByHand,
         Evident;
    ApprovalsValidIff(findings[a.locked][a.item.key.value], ContextOf(a.around, a.now, a.item));
    RunLengths(findings, reviews);
    Reviews.EveryRunIsSafe(findings, reviews, a.locked, a.item.key.value);
  }

  /** Whenever the DELETE of an object has left, it was approved as above, every planned rule change had been
      requested before it and had succeeded, and a live check after the last of them had found the object as
      verified and without any reference. */
  lemma EveryDeleteIsAuthorized(states: seq<State>, steps: seq<Step>, n: nat, k: nat)
    requires Run(states, steps) && n < |states| && k < |states[n].log| && states[n].log[k].ObjectRequest?
    ensures var s := states[n];
            var i, a := s.log[k].item, s.log[k].authority;
            && Approved(a, s.findings)
            && CleanedUp(s.log[..k], i, a.item) && CheckedSince(s.log[..k], i, a.live)
  {
    hide Good, OncePerRoot, Reviews.Run, CleanedUp, CheckedSince, AuthoritySound, IntentsSound, Approved;
    EveryStateIsSound(states, steps, n);
    assert EntrySound(states[n].log[..k], states[n].log[k], states[n].findings);
    SoundIsApproved(states[n].log[k].authority, states[n].findings, states[n].reviews);
  }

  /** The same for every rule change that has left: its intent was only stored when all that held, with the
      approvals of the whole plan, all earlier changes done, and the rule and its policy as approved. */
  lemma EveryRuleChangeIsAuthorized(states: seq<State>, steps: seq<Step>, n: nat, k: nat)
    requires Run(states, steps) && n < |states| && k < |states[n].log| && states[n].log[k].RuleRequest?
    ensures var s := states[n];
            var index, a := s.log[k].index, s.log[k].authority;
            && Approved(a, s.findings)
            && CleanupApproved(a.item, s.findings[a.locked][a.item.key.value], a.settings)
            && index == |a.item.results| < |a.item.plan| && AllDone(a.item.results)
            && a.reading.Some? && Unaltered(a.item.plan[index], a.reading.value)
  {
    hide Good, OncePerRoot, Reviews.Run, CleanedUp, CheckedSince, AuthoritySound, IntentsSound, CleanupApproved,
         MayExecute, Reviews.Safe, ApprovedByOwner, Decidable, CoverageKept, VerifiedByHand, Unaltered;
    EveryStateIsSound(states, steps, n);
    assert EntrySound(states[n].log[..k], states[n].log[k], states[n].findings);
    SoundIsApproved(states[n].log[k].authority, states[n].findings, states[n].reviews);
  }

  lemma RunLengths(dbs: seq<Reviews.Database>, steps: seq<Reviews.Step>)
    requires Reviews.Run(dbs, steps)
    ensures |dbs| == |steps| + 1
  {
  }
}
