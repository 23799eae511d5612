# NSX Security Analyzer: a verified model

NSX Security Analyzer collects the firewall configuration of an NSX Manager, decides which objects look unused,
leads every such finding through human approval, and finally deletes the object from the live manager. This
project models the parts of it where several writers share state, and the algorithms that have a fast form, and
proves what they promise for all inputs and all runs.

## How the project is arranged

Findings and approvals

- `FindingModel`, `Observation`, `FindingWorkflow`, `Findings`: the data, and each writer of a finding. Objects
  that the program changes in place are classes (`Finding`, `Environment`); each method is proved equal to a
  function of the state before it, and the theorems are about those functions.
- `ReviewRules`, `FindingRules`: what decisions rest on and what a collection does to a finding, in terms of the
  saved fields and collected rows themselves.
- `ObservationRuns`: what the stored observation fields say about the whole history.
- `FindingReplay`, `FindingPublication`: recalculation from retained collections, and its publication.
- `ApprovalSafety`, `ReviewTransitions`: runs of all writers together.
- `RecalculationProtocol`: recalculation jobs and their workers as a state machine.

Deletion

- `ObjectReferences`, `CleanupPlan`, `PlanComparison`: who refers to an object, the plan of rule edits that frees
  a group, and the comparison of two plans.
- `DeletionGuards`: approvals, execution eligibility and the checks repeated before every change.
- `DeletionProtocol`: requests, items, workers, confirmation, crash and recovery as a state machine of 32 kinds of
  steps. `DeletionRows` and `DeletionSafety` hold its invariants, step by step; `DeletionTheorems` the results.
- `DeletionSteps`: what each step needs and does, row by row.
- `DeletionOperations`: claiming, taking, recovery and applying a plan as the worker carries them out, on the rows
  they update.

Collection and reports

- `MembershipScope`, `Pagination`, `TagEvidence`, `PolicyStatistics`, `CounterHistory`, `ImpactPreview`,
  `SearchCondition`: algorithms with an independent reference each.
- `AdaptiveLimiter`, `RequestPacer`: concurrency limit and request rate.
- `Common`, `Sorting`: optional values and ascending lists, shared.

Time is an integer number of microseconds in the findings, deletion and history modules, and a real number in the
limiter and the pacer. A SHA-256 digest of JSON is modelled by the JSON value itself, so digests are equal exactly
when the values are. A transaction that holds row locks is one step. The database, NSX and the clock are arguments
or arbitrary steps; an NSX server may answer anything.

## Where the code differs from what is said about it

- `synchronize` is described as idempotent (webapp/inventory/findings.py:53). Folding the same collection in again
  changes nothing if and only if every finding already points at it, or nothing in it would touch a finding
  (`ResynchronizeIsIdentityIff`). A finding that was paused keeps pointing at an older collection, so a second
  call does fold the rest again, and every evaluated finding with a waiting period starts over
  (`SecondCallRestarts`); `FoldingTwiceWithdraws` shows one collection that leaves a finding ready and, folded in
  once more, withdraws its approval.
- Recalculation is meant to reproduce the stored observations. For zero hits the fold reads the row last listed
  under a path and the replay the first one, so one collection keeps them in agreement if and only if both are
  fresh zero readings or neither is (`StepAgrees`). `ListedTwiceDisagrees` is a collection with one path listed
  twice for which they are not.
- Not every malformed counter in a bulk response sends all rules of the policy to individual requests. One that
  fits no rule, or several, does. One with unusable numbers does if and only if the response is doubtful as a whole
  or every other rule is without bulk evidence for a reason of its own (`UnreadableStopsAllIff`); its numbers
  never matter to any rule but its own (`NumbersConcernOwnerOnly`). In `UnusableNumbersSpareOthers` another rule
  keeps its bulk evidence.

## Model

| member | source | states |
|---|---|---|
| Observation.Advance | webapp/inventory/observation.py:40-97 | one evaluation of a finding's condition moves its observation fields as `Advanced` says: waiting period, gap limit, policy signature, fresh zero counters |
| Observation.Absent | webapp/inventory/observation.py:105-122 | a missing condition ends the observation; only affirmative opposite evidence marks it cleared |
| ObservationRuns.RecordedDescribesMaximalRun | webapp/inventory/observation.py:64-97 | after any history the fields describe exactly the longest unbroken run ending now: start, count, days, signature, eligibility, and the first moment the criteria were met |
| ObservationRuns.UncountedStartsNothing | webapp/inventory/observation.py:55-82 | a collection that does not count leaves no start, count or qualification behind |
| ObservationRuns.RunIncreases | webapp/inventory/observation.py:66-67 | within a run times strictly increase under one policy signature |
| ObservationRuns.StaysSatisfied | webapp/inventory/observation.py:90-92 | within a run, criteria once met stay met |
| ObservationRuns.EligibleIsEarned | webapp/inventory/observation.py:90-91 | an eligible finding with a waiting period of d days was seen without a break for at least d times 24 hours and at least the minimum number of times |
| FindingWorkflow.InvalidateFinding | webapp/inventory/finding_workflow.py:67-74 | invalidation withdraws all approvals of a finding in second review or ready, archives them, and restarts the review |
| FindingWorkflow.ApplyApprovalPolicy | webapp/inventory/finding_workflow.py:20-45 | a changed approval requirement restarts every open review it concerns |
| FindingWorkflow.Decide | webapp/inventory/finding_workflow.py:184-299 | a request is accepted exactly when `MayAct` holds; then the finding becomes `Decided` and its revision moves, otherwise nothing changes |
| FindingWorkflow.PerformAction | webapp/inventory/finding_workflow.py:197-296 | each action is permitted exactly in its states and to its actors, and changes only the review fields |
| FindingWorkflow.UnassignOwner | webapp/inventory/finding_workflow.py:197-208 | unassigning keeps recorded decisions and moves only an owner review back to unassigned |
| FindingWorkflow.AssignOwner | webapp/inventory/finding_workflow.py:209-223 | an interrupted review resumes under the new owner; any other assignment starts the review over |
| FindingWorkflow.ReopenReview | webapp/inventory/finding_workflow.py:224-235 | only rejected reviews, and completed ones by an administrator, reopen, without approvals |
| FindingWorkflow.RecordApproval | webapp/inventory/finding_workflow.py:254-274 | an approval is recorded for the stage it belongs to, binding the current evidence and coverage |
| FindingWorkflow.Recover | webapp/inventory/approval_recovery.py:9-86 | recovery restores exactly the archived first approval, and only when `MayRecover` holds: its owner, evidence and coverage are the current ones, and retained collections confirm its condition without a break back to the approved one |
| ReviewRules.SupportsIff | webapp/inventory/finding_workflow.py:98-126 | the evidence check accepts exactly a row that shows the values its kind of finding claims, with fresh counters for zero hits and a complete or type-limited search for unused objects |
| ReviewRules.ReadinessIff | webapp/inventory/finding_workflow.py:129-174 | a decision is possible exactly for a finding present, eligible and not being recalculated, whose evidence is that of the newest usable collection, not stale and supported |
| ReviewRules.ManualIff | webapp/inventory/finding_workflow.py:168-174 | manual verification is asked for exactly where references were searched among listed object types only |
| ReviewRules.FingerprintIff | webapp/inventory/finding_workflow.py:48-52 | two approvals bind the same exactly when the evidence agrees in everything but how counters were fetched |
| ReviewRules.CoverageDiffersIff | webapp/inventory/finding_workflow.py:91-95 | an unused object's approval is void exactly when the mode or the object types of the search are others |
| ReviewRules.RequiredByCategory | webapp/inventory/approval_modes.py:12-14 | a category's own number of approvals counts, the workspace's where there is none |
| ReviewRules.RejectAcceptedIff | webapp/inventory/finding_workflow.py:236-252 | who may reject: the owner first, then somebody who is neither owner nor first approver |
| ReviewRules.ApproveAcceptedIff | webapp/inventory/finding_workflow.py:236-274 | an approval is accepted exactly from the person whose turn it is, for a decidable finding, with manual checks where asked for and, second, for what was approved first |
| ReviewRules.CompleteAcceptedIff | webapp/inventory/finding_workflow.py:275-294 | a completion is accepted exactly with a ticket, for a decidable ready finding with all approvals by different people for its evidence and search |
| ReviewRules.OwnershipAcceptedIff | webapp/inventory/finding_workflow.py:197-223 | when owners may be assigned and unassigned, and by whom |
| ReviewRules.ReopenAcceptedIff | webapp/inventory/finding_workflow.py:224-230 | rejected reviews may be reopened, completed ones by an administrator |
| ReviewRules.RecoverIff | webapp/inventory/approval_recovery.py:9-66 | when a withdrawn first approval may be recovered, condition by condition |
| Findings.Environment.Synchronize | webapp/inventory/findings.py:52-190 | folding a collection in takes every finding to `Folded`: observed, created, paused, missing or unchanged; nothing happens when all point at the collection already |
| Findings.Environment.FoldCandidates | webapp/inventory/findings.py:104-160 | the first candidate for a key decides; paused evidence is skipped and deleted identities count as seen |
| Findings.Environment.FoldExisting | webapp/inventory/findings.py:161-186 | afterwards paused findings keep their observation and findings not seen are marked missing |
| Findings.Observe | webapp/inventory/findings.py:129-158 | fresh evidence: a new identity restarts a completed review, changed evidence or coverage withdraws approvals, then the observation moves |
| Findings.CheckReview | webapp/inventory/findings.py:129-139 | the review after the identity, evidence and coverage checks, in this order |
| Findings.QualifyReview | webapp/inventory/findings.py:142-144 | evidence that no longer supports or qualifies the finding withdraws its approvals |
| Findings.FoldPaused | webapp/inventory/findings.py:162-174 | uncertain coverage keeps the finding, unless its identity or configuration verifiably changed |
| Findings.FoldMissing | webapp/inventory/findings.py:175-184 | a finding not observed is no longer present, loses its approvals and its observation |
| FindingRules.CandidateIff | webapp/inventory/findings.py:25-44 | a finding has evidence in a collection exactly when a row of its section shows its condition and is not excluded; the first such row counts |
| FindingRules.EvidenceKeeps | webapp/inventory/findings.py:41-47 | which fields of a row are evidence |
| FindingRules.DeletedStaysDeleted | webapp/inventory/deleted_objects.py:14-20 | an object at a deleted path that cannot be told from the deleted one is ignored: no finding is created or changed |
| FindingRules.RecreatedIsObserved | webapp/inventory/findings.py:104-158 | a new object at a deleted path is observed, and a completed review of the old one starts over without approvals |
| FindingRules.CandidateIsObserved | webapp/inventory/findings.py:110-158 | a candidate makes its finding present with this evidence, and creates it unassigned if there was none |
| FindingRules.AffectsIff | webapp/inventory/evidence_coverage.py:36-38 | an issue concerns the findings of its kinds at its path, or all of them without one, and always those about tags |
| FindingRules.DoubtKeepsFinding | webapp/inventory/findings.py:162-174 | while its evidence is in doubt a finding keeps everything but, if the object is known to have changed, its approvals |
| FindingRules.NotFoundIsMissing | webapp/inventory/findings.py:175-184 | a finding without evidence is no longer present, is cleared exactly by the opposite condition, and loses its approvals |
| FindingRules.ApprovalsSurviveIff | webapp/inventory/findings.py:129-144 | approvals survive fresh evidence exactly if the finding was present with the same evidence and search, is supported, and is still eligible |
| FindingRules.ConditionIff | webapp/inventory/observation.py:12-38 | an observation continues exactly while identity and, per kind, configuration stay the same |
| FindingRules.WaitingPeriods | webapp/inventory/observation.py:8-9 | six kinds have a waiting period of their own, and these are recalculated |
| FindingRules.AllowedGapIs | webapp/inventory/observation.py:64-66 | the gap allowed between checks: the configured hours, or else a day or two sync intervals |
| FindingRules.FreshZeroIff | webapp/inventory/observation.py:72-84 | a rule counts as observed without hits only by an explicit and new zero, read within the allowed gap |
| FindingReplay.Replay | webapp/inventory/finding_recalculation.py:123-149 | the replay loop computes, for every key, the fold `ReplayOf` over the retained collections |
| FindingReplay.ReplayCollection | webapp/inventory/finding_recalculation.py:125-149 | one collection replayed: evaluated keys move, unseen keys outside paused evidence are dropped |
| FindingReplay.DropUnseen | webapp/inventory/finding_recalculation.py:148-149 | exactly the unseen keys without uncertain coverage are dropped |
| FindingReplay.ResetForgets | webapp/inventory/observation.py:66-88 | after a reset the earlier fields do not matter |
| FindingReplay.SignatureMatters | webapp/inventory/observation.py:66-88 | a policy signature without a started observation does not matter |
| FindingReplay.StepAgrees | webapp/inventory/findings.py:140-156 | one collection keeps the replayed state and the stored finding in agreement if and only if both read the counters alike; only zero hits reads them |
| FindingReplay.ListedTwiceDisagrees | webapp/inventory/findings.py:72 | a collection with one path listed twice, after which fold and replay disagree |
| FindingReplay.ReplayEqualsIncremental | webapp/inventory/finding_recalculation.py:123-149 | for every finding evaluated in the newest collection the replay gives the same qualification, start, count, days, required days and qualified time as folding the collections in one by one, whatever was paused, missing or decided in between |
| FindingReplay.RevisionMoves | webapp/inventory/findings.py:157-183 | folding a collection changes a finding if and only if it touches it, and then moves its revision by one |
| FindingReplay.ResynchronizeIsIdentityIff | webapp/inventory/findings.py:52-63 | when a second fold of the same collection changes nothing: if and only if all findings point at it or none is touched |
| FindingReplay.SecondCallRestarts | webapp/inventory/findings.py:56-63 | if a finding was paused at an older collection, a second call with the same collection is carried out and takes eligibility and approvals from every evaluated finding with a waiting period |
| FindingReplay.FoldingTwiceWithdraws | webapp/inventory/findings.py:52-63 | one concrete collection: a ready finding stays ready in the first call and is back in owner review after the second |
| FindingPublication.PublishReplay | webapp/inventory/finding_recalculation.py:176-240 | publication happens exactly when every row to restore has its evidence; then every finding becomes `Published`, otherwise none changes |
| FindingPublication.PublishState | webapp/inventory/finding_recalculation.py:193-211 | a replayed state replaces the observation, restores presence, and keeps decisions only while eligible |
| FindingPublication.PublishUnconfirmed | webapp/inventory/finding_recalculation.py:212-222 | a finding without a replayed state loses its observation and approvals |
| FindingPublication.OthersAreSpared | webapp/inventory/finding_recalculation.py:157-190 | kinds that were not recalculated and findings whose evidence is in doubt stay as they are |
| FindingPublication.DeletedAreSpared | webapp/inventory/finding_recalculation.py:176-192 | so do findings at a deleted path without evidence of a new object |
| FindingPublication.ReplayedIsPublished | webapp/inventory/finding_recalculation.py:193-211 | a replayed finding takes over the replayed observation, is present, and keeps its review exactly while eligible |
| FindingPublication.UnreplayedIsUnconfirmed | webapp/inventory/finding_recalculation.py:212-222 | a finding of these kinds without replayed state is not being observed and loses its approvals |
| FindingPublication.RestorableIff | webapp/inventory/finding_recalculation.py:176-192 | what has to be at hand for a publication |
| ApprovalSafety.StepIsSafe | webapp/inventory/finding_workflow.py:184-299 | every writer of a finding keeps it safe: decisions, policy, folding, publication, recovery, closure, removed accounts |
| ApprovalSafety.EveryRunIsSafe | webapp/inventory/finding_workflow.py:254-274 | in every reachable state, ready means present, eligible and approved by exactly the required people, distinct when two, for the current evidence; second review means exactly the owner approval; unassigned and owner review mean none |
| ApprovalSafety.EveryApprovalWasGiven | webapp/inventory/finding_workflow.py:266-273 | every approval in force or archived was recorded by an accepted request of this run, in its stage |
| ApprovalSafety.FourEyes | webapp/inventory/finding_workflow.py:239-246 | a ready finding that needs two approvals was approved by its owner of that moment and by somebody else, both looking at the evidence it still shows |
| ReviewTransitions.RestingStates | webapp/inventory/finding_workflow.py:184-299 | over every run: what moves a review into and out of the completed and the rejected state - a completion with ticket and all approvals, verified absence, a rejection by the person whose turn it is, reopening, a new object, a new owner - and nothing else |
| ReviewTransitions.AdvancingStates | webapp/inventory/finding_workflow.py:254-274 | over every run: a review moves towards approval only by a recorded approval of the present evidence by the person whose turn it is, or by the recovery of a withdrawn one |
| ReviewTransitions.AcceptedDecisionsRest | webapp/inventory/finding_workflow.py:251-294 | an accepted rejection always ends in the rejected state, an accepted completion in the completed one |
| ReviewTransitions.RelatedAreClosed | webapp/inventory/related_decommission.py:6-31 | exactly the open findings about the same object are closed with it |
| ReviewTransitions.StepsAreOperations | webapp/inventory/findings.py:52-190 | folding and publishing as steps of a run are what `Synchronize` and `PublishReplay` do |
| ApprovalSafety.StepMovesRevision | webapp/inventory/finding_workflow.py:297 | a step that changes anything but a removed owner moves the revision |
| ApprovalSafety.RevisionPinsFinding | webapp/inventory/finding_workflow.py:297 | two states of a finding with the same revision have the same evidence, presence, observation, review state and approvals |
| RecalculationProtocol.JobTable.Queue | webapp/inventory/finding_recalculation.py:23-35 | queueing gives each environment a new token and adds the kinds to those still pending |
| RecalculationProtocol.JobTable.Expire | webapp/inventory/finding_recalculation.py:38-40 | the failed jobs are those that had failed and those running past the limit; nothing else of any job changes |
| RecalculationProtocol.JobTable.Claim | webapp/inventory/finding_recalculation.py:41-53 | the job waiting longest is taken, and only while none is running |
| RecalculationProtocol.JobTable.Fail | webapp/inventory/finding_recalculation.py:56-58 | only a running job with this token fails |
| RecalculationProtocol.JobTable.Cancel | webapp/inventory/task_cancellation.py:58-89 | a queued job is cancelled at once, a running one when its worker stops |
| RecalculationProtocol.JobTable.Reconcile | webapp/inventory/task_cancellation.py:100-103 | no job keeps waiting for cancellation; the cancelled ones are those that had been or were waiting to be, and no other job changes |
| RecalculationProtocol.EveryStateIsSafe | webapp/inventory/finding_recalculation.py:38-58 | over every interleaving at most one job runs, no two workers share a job, and the pending kinds are exactly those asked for and neither published nor cancelled since |
| RecalculationProtocol.NothingHappenedSinceClaim | webapp/inventory/finding_recalculation.py:164-168 | while a worker's job is current, its row has not changed since the claim: no request, expiry, failure or cancellation came between |
| RecalculationProtocol.NothingStaleIsPublished | webapp/inventory/finding_recalculation.py:164-175 | a publication has the newest token, collection, criteria and interval of that moment, covers exactly the kinds owed, and settles them |
| RecalculationProtocol.OwedKindsAreBlocked | webapp/inventory/finding_workflow.py:136-141 | decisions on a kind are blocked exactly while its recalculation is owed |
| RecalculationProtocol.StepMovesJob | webapp/inventory/finding_recalculation.py:23-58 | what each step makes of a job row: queued with a new token, failed, running, completed or queued again, cancelled |
| RecalculationProtocol.AlwaysPossible | webapp/inventory/finding_recalculation.py:38-53 | jobs expire, fail and are cancelled in any state, and one is claimed exactly when it has waited longest and none runs |
| RecalculationProtocol.StaleWorkersStop | webapp/inventory/finding_recalculation.py:96-109 | a worker whose job is no longer its own stops before it replays |
| MembershipScope.Analysis.Inspect | webapp/inventory/collector.py:647-696 | the memoised walk adds exactly what the cache-free recursion finds and keeps the cache exact |
| MembershipScope.Analysis.InspectPath | webapp/inventory/collector.py:663-695 | the same for one referenced path: missing, cyclic, too deep, cached or walked |
| MembershipScope.PathMoves | webapp/inventory/collector.py:673-678 | a subtree without issues that is disjoint from the groups being visited and within the depth limit always walks identically |
| MembershipScope.ScanIsExact | webapp/inventory/collector.py:694-695 | what is put into the cache is exact wherever it may be used |
| MembershipScope.MembershipScopeOf | webapp/inventory/collector.py:629-701 | with any exact cache the result is that of the cache-free recursion, and the cache stays exact |
| MembershipScope.AnalyseAll | webapp/inventory/collector.py:1754-1756 | sharing one cache over all groups, in any order, changes no result |
| MembershipScope.IssueFreeScopeIsComplete | webapp/inventory/collector.py:663-691 | without issues every group reachable by references was analysed and none leads back |
| MembershipScope.IssuesAreReal | webapp/inventory/collector.py:663-672 | an issue is reported exactly when following references from the group ends in it: a missing path, a cycle, or 64 groups |
| MembershipScope.LimitationsAreDue | webapp/inventory/collector.py:632-699 | exactly the limitations due to the group, to its own expressions or to a group it reaches are reported |
| MembershipScope.UnlimitedIff | webapp/inventory/collector.py:634-699 | nothing is limited exactly when all definitions involved use supported expressions and member types, without container or identity membership, and no nested one lists MAC addresses |
| MembershipScope.ExplicitIff | webapp/inventory/collector.py:657-696 | a group is explicit exactly when its own definition lists addresses |
| Pagination.ItemsOnce | webapp/inventory/collector.py:281-415 | reading pages ends for any finite set of cursors, at the first page where the total is reached or the continuation ends, and classifies the rows as verified or changed |
| Pagination.VerifiedByBookkeeping | webapp/inventory/collector.py:344-411 | the running total and conflict flag decide exactly whether the rows are consistent and complete |
| Pagination.Items | webapp/inventory/collector.py:236-279 | the records come from a single attempt; only the last attempt is used unverified, and then with a warning |
| Pagination.Deduplicate | webapp/inventory/collector.py:243-256 | the first copy of each object is kept, in order |
| Pagination.UniqueKeepsObjects | webapp/inventory/collector.py:251-256 | no object is lost and none is repeated |
| Pagination.QuietListingIsExact | webapp/inventory/collector.py:394-411 | a listing without a warning yields exactly the advertised number of records, no two of one identity, with all copies agreeing outside the tolerated fields |
| AdaptiveLimiter.AdaptiveRequests.Arrive | webapp/inventory/concurrency.py:30-32 | a request joins the end of the queue |
| AdaptiveLimiter.AdaptiveRequests.TryAdmit | webapp/inventory/concurrency.py:34-48 | only the head of the queue goes in, only below the limit, and never at or after its deadline |
| AdaptiveLimiter.AdaptiveRequests.Release | webapp/inventory/concurrency.py:50-99 | the limit, counters and latency state after a request; bounds, arrival order, rest after a decrease and enclosed baselines are kept |
| AdaptiveLimiter.AdaptiveRequests.React | webapp/inventory/concurrency.py:82-98 | backpressure, or a third slow success in a row after a rest, halves the limit; enough quick successes while others wait raise it by one |
| AdaptiveLimiter.AdaptiveRequests.Measure | webapp/inventory/concurrency.py:61-81 | a success is slow when it takes over twice the average and two seconds more, from the fifth on; otherwise it moves the average by a fifth |
| AdaptiveLimiter.NobodyOvertakes | webapp/inventory/concurrency.py:35-42 | whoever arrived before an admitted request was admitted or gave up |
| AdaptiveLimiter.StaysEnclosed | webapp/inventory/concurrency.py:73-77 | a latency baseline stays between the least and the greatest duration observed |
| RequestPacer.Pacer.Acquire | webapp/inventory/request_pacing.py:30-44 | a request is let go exactly when its slot has come, outside any cooldown and before the deadline, and grants keep their distance |
| RequestPacer.Pacer.Result | webapp/inventory/request_pacing.py:46-71 | the rate after a result stays within 0.5 and 40 per second and the cooldown never shrinks |
| RequestPacer.BurstHalvesOnce | webapp/inventory/request_pacing.py:57-62 | any number of rejections within one cooldown halves the rate once |
| RequestPacer.GrantsInWindow | webapp/inventory/request_pacing.py:38-40 | any stretch of T seconds has at most 40 T + 1 grants |
| ImpactPreview.Walker.Walk | webapp/inventory/impact.py:111-129 | the walk lists dependents in order within the bounds, expands each path once and says when something was left out |
| ImpactPreview.Preview | webapp/inventory/impact.py:108-130 | at most `limit` entries and `depth_limit` levels, no path expanded twice, and without truncation exactly the reachable objects, cycles included |
| TagEvidence.BuildIndex | webapp/inventory/collector.py:1370-1375 | the index files every EQUALS condition under its key and everything else in the rest |
| TagEvidence.MatchByIndex | webapp/inventory/collector.py:1376-1387 | looking up four keys and the rest gives the same matches in the same order as testing every condition |
| TagEvidence.MatchingIsAscending | webapp/inventory/collector.py:1379 | those matches are exactly the matching conditions, in their order |
| TagEvidence.ComparesMeans | webapp/inventory/collector.py:1360-1368 | what the operators mean, by how a tag is made up |
| TagEvidence.MatchesMeans | webapp/inventory/collector.py:1360-1368 | an empty scope or tag of a condition matches everything |
| TagEvidence.Consumers | webapp/inventory/collector.py:1516-1531 | the worklist finds exactly the rules reachable through nested groups, also with cycles |
| PolicyStatistics.BuildAliases | webapp/inventory/collector.py:896-912 | the alias tables map each name to exactly the rules it can stand for |
| PolicyStatistics.Match | webapp/inventory/collector.py:958-964 | intersecting the tables gives exactly the rules that all given identities fit |
| PolicyStatistics.Attribute | webapp/inventory/collector.py:940-968 | attribution succeeds exactly when nothing in the response is doubtful, and files each counter with its rule |
| PolicyStatistics.PolicyEvidence | webapp/inventory/collector.py:988-1006 | each rule is served from the bulk response exactly when it has one readable counter per enforcement point |
| PolicyStatistics.BulkConserves | webapp/inventory/collector.py:988-992 | if all rules are served from bulk, every counter belongs to exactly one of them, their hits add up to those of the response, and each has one counter per enforcement point |
| PolicyStatistics.BulkNeverExceeds | webapp/inventory/collector.py:988-1006 | bulk evidence for some of the rules never adds up to more than the response |
| PolicyStatistics.BulkIff | webapp/inventory/collector.py:771-1006 | a rule is served from the bulk response exactly when every entry is whole, every counter belongs to one rule, and its own are usable, one from each enforcement point |
| PolicyStatistics.UnreadableStopsAllIff | webapp/inventory/collector.py:940-1006 | an unreadable counter leaves no rule its bulk evidence if and only if an entry is doubtful, a counter fits no rule or several, or every other rule lacks one readable counter per enforcement point |
| PolicyStatistics.NumbersConcernOwnerOnly | webapp/inventory/collector.py:771-815 | replacing the numbers of a counter changes the evidence of its own rule at most |
| PolicyStatistics.UnusableNumbersSpareOthers | webapp/inventory/collector.py:771-800 | an invalid hit count of one rule leaves another rule its bulk evidence |
| CounterHistory.Counters | webapp/inventory/history.py:19-41 | a sample is accepted only with explicit valid counters and a timestamp; zero is never inferred from absence |
| CounterHistory.Scan | webapp/inventory/history.py:75-100 | the backward scan over the collections computes `Looked` for every rule |
| CounterHistory.ScanKeepsUnanimous | webapp/inventory/history.py:93-100 | kept are exactly the times whose valid copies are unanimous, with what they agree on, among the collections before the rule changed |
| CounterHistory.SamplesIgnoreOrder | webapp/inventory/history.py:93-100 | the order in which copies are met does not matter |
| CounterHistory.UnknownCounts | webapp/inventory/history.py:86-98 | nothing counts as unknown exactly when every collection gave a valid copy and no copies disagree |
| CounterHistory.LargestGap | webapp/inventory/history.py:115-116 | the largest gap is within 24 hours exactly when every longer stretch of the window has a sample inside |
| CounterHistory.Judge | webapp/inventory/history.py:103-137 | the status of a rule; zero exactly when at least two unanimous all-zero samples of one shape cover the window without a day's gap and nothing was unknown |
| CounterHistory.SamplesAreInRange | webapp/inventory/history.py:90-92 | kept samples lie between a day before the window and its end |
| CounterHistory.Analyze | webapp/inventory/history.py:53-137 | over all collections, a rule is called consistently zero exactly when its unanimous samples are what that promises, and unknown exactly when there are none |
| CounterHistory.ZeroIff | webapp/inventory/history.py:19-137 | a rule is labelled consistently zero exactly when identity and configuration are known, no collection failed, each one saw this very rule with explicit zeros for the same counters, and the readings cover the window without a day's pause |
| CleanupPlan.PlanRule | webapp/inventory/reference_cleanup.py:39-90 | a rule can be planned exactly when it is a supported, identified, unnegated local rule whose edited sides keep only local groups and no other reference remains; otherwise the first reason against it is given |
| CleanupPlan.RefusalIsTrue | webapp/inventory/reference_cleanup.py:39-80 | the reason given against a rule is true of it |
| CleanupPlan.EditRule | webapp/inventory/reference_cleanup.py:58-78 | both sides are edited, or refused for a list that is unsupported or not only local groups |
| CleanupPlan.BuildPlan | webapp/inventory/reference_cleanup.py:31-91 | a plan exists exactly for at most 100 plannable rules and an unprotected group, with one change per rule in order; otherwise the reason of the first rule that stands in the way is given |
| CleanupPlan.ChangeShows | webapp/inventory/reference_cleanup.py:81-86 | a planned change shows the rule as it is and its policy without the rules in it |
| CleanupPlan.WithoutIsExact | webapp/inventory/reference_cleanup.py:67 | removing a group removes every occurrence of it and nothing else |
| CleanupPlan.UpdateOnlyRemovesGroup | webapp/inventory/reference_cleanup.py:61-86 | an updated rule differs only by this group; every edited side stays non-empty and holds only local groups |
| CleanupPlan.DeletedIffNothingRemains | webapp/inventory/reference_cleanup.py:68-90 | a rule is deleted exactly when the group is all it has as sources or as destinations |
| CleanupPlan.EditsShowTheDifference | webapp/inventory/reference_cleanup.py:77-86 | the edits shown for approval are the whole difference an update makes, side by side |
| CleanupPlan.NothingRefersAfterwards | webapp/inventory/reference_cleanup.py:79-80 | over a flat configuration, carrying out a plan for all referring rules leaves no reference to the group |
| CleanupPlan.NoFieldNamesAfterwards | webapp/inventory/reference_cleanup.py:79-80 | after a plan for all referrers no live object outside the group names it in sources, destinations, Applied To, services, profiles or any other field that counts |
| CleanupPlan.OtherUseIsRefused | webapp/inventory/reference_cleanup.py:79-80 | a rule that names the group in any other field than sources and destinations, such as Applied To, is never planned |
| CleanupPlan.PlannableIff | webapp/inventory/reference_cleanup.py:25-90 | a rule can be planned exactly when it is local, fit and unprotected, uses the group as source or destination beside local groups only, names it nowhere else, and is unused if it is to be deleted |
| CleanupPlan.PolicyOfRule | webapp/inventory/reference_cleanup.py:48 | the policy of a rule is the part of its path before the rules |
| CleanupPlan.NothingDangles | webapp/inventory/reference_cleanup.py:110-118 | no object refers to a deleted rule afterwards |
| CleanupPlan.EditedRefersToNoMore | webapp/inventory/reference_cleanup.py:67-77 | an edit adds no reference to anything |
| ObjectReferences.ReferencesOfFlat | webapp/inventory/collector.py:432-465 | in a flat configuration an object counts as a referrer exactly when its own configuration names the target |
| ObjectReferences.NamingIsReference | webapp/inventory/collector.py:443-462 | a live object that names the target in any field but those for identity and presentation is a referrer |
| ObjectReferences.OtherFieldsDoNotCount | webapp/inventory/collector.py:426-452 | fields for identity and presentation never make a referrer |
| ObjectReferences.DeadReferToNothing | webapp/inventory/collector.py:441-448 | deleted objects and realisation records refer to nothing |
| ObjectReferences.UsersAreOutside | webapp/inventory/collector.py:457-461 | neither an object nor anything below it is its own user |
| ObjectReferences.EntryNames | webapp/inventory/collector.py:456 | a service entry's path stands for its service |
| ObjectReferences.TargetTypeIff | webapp/inventory/deletion.py:36-41 | a path names a local group, service, policy or rule exactly when it has that shape and ordinary names in it |
| PlanComparison.ChangedFields | webapp/inventory/reference_cleanup.py:211-221 | the differing fields by name, at any depth |
| PlanComparison.NamesEveryChange | webapp/inventory/reference_cleanup.py:211-221 | no field is named exactly when the values are equal |
| PlanComparison.NamesMean | webapp/inventory/reference_cleanup.py:215-220 | a field is named where it differs, by itself or by what differs inside it |
| PlanComparison.NoDifferenceIff | webapp/inventory/reference_cleanup.py:201-237 | two plans show no difference exactly when they make the same changes to the same rules but for fields NSX maintains itself |
| DeletionGuards.EligibleUsers | webapp/inventory/execution_policy.py:15-45 | nobody is eligible without valid approvals, the owner's among them; with them, narrowing by each mode gives exactly the permitted participants whom every applicable mode admits |
| DeletionGuards.ApprovalsValidIff | webapp/inventory/deletion.py:61-78 | approvals are valid exactly when the finding is ready and approved for its current evidence by its current owner and, where two are needed, by somebody else, is decidable, and search coverage and manual verification are as approved |
| DeletionGuards.MayExecuteIff | webapp/inventory/execution_policy.py:15-35 | execution is for permitted participants whom the mode of the category and, for a cleanup, that of rules admits |
| DeletionGuards.ModeByCategory | webapp/inventory/execution_policy.py:10-12 | a category's own mode counts, the standard where there is none |
| DeletionGuards.CleanupApprovedIff | webapp/inventory/reference_cleanup.py:184-198 | a cleanup is approved by permitted people for exactly this plan, group and revision, as many different ones as finding, group and rule each need |
| DeletionSteps.GuardIff | webapp/inventory/deletion.py:176-184 | the checks repeated everywhere: an answerable and permitted person, the same manager, object and revision, valid approvals |
| DeletionSteps.AuthorizedIff | webapp/inventory/deletion.py:187-200 | execution needs a ticket, a confirmation at most ten minutes after verification and an hour old, and an eligible person |
| DeletionSteps.SendIff | webapp/inventory/deletion.py:310-328 | a DELETE leaves exactly when all checks pass once more after its intent was stored |
| DeletionSteps.MayChangeIff | webapp/inventory/reference_cleanup.py:249-266 | a planned change is made exactly while everything is authorised and rule and policy are as approved but for fields NSX maintains |
| DeletionSteps.ContextIs | webapp/inventory/finding_workflow.py:129-174 | by what a finding is judged at each moment |
| DeletionSteps.SamePlanIff | webapp/inventory/reference_cleanup.py:234-237 | plans count as the same exactly when the comparison names no difference |
| DeletionSteps.ConfirmIff | webapp/inventory/deletion.py:573-600 | what can be confirmed, and by whom |
| DeletionSteps.ConfirmDoes | webapp/inventory/deletion.py:586-612 | a confirmed request is queued; of a partly confirmed one the selected items are copied into a new one and done with |
| DeletionSteps.ConfirmTargets | webapp/inventory/deletion.py:592-604 | when the whole request is confirmed, and what the copies of a partial confirmation are |
| DeletionSteps.PreviewDoes | webapp/inventory/deletion.py:224-264 | what a finished check makes of an item, unless it was cancelled |
| DeletionSteps.FoundIff | webapp/inventory/deletion.py:218-232 | when an object may be offered for confirmation or a cleanup review |
| DeletionSteps.SelectDoes | webapp/inventory/deletion.py:516-556 | only ready findings are selected, each as an item that remembers the revision |
| DeletionSteps.FinishDoes | webapp/inventory/deletion.py:411-426 | how a finished worker leaves its request |
| DeletionSteps.ClaimDoes | webapp/inventory/deletion.py:388-394 | queued previews are checked once claimed, confirmed requests run |
| DeletionSteps.LoadDoes | webapp/inventory/deletion.py:397-405 | a worker reads its request and items once, and stops when the request was cancelled |
| DeletionSteps.BeginPreviewIff | webapp/inventory/deletion.py:402-410 | which items a check looks at, in a first check and after a cleanup approval |
| DeletionSteps.TakeDoes | webapp/inventory/deletion.py:209-210 | an item is taken for execution exactly while it is verified |
| DeletionSteps.InspectIff | webapp/inventory/deletion.py:217-276 | before execution: the object as verified and nothing to clean up, or exactly the approved plan |
| DeletionSteps.InspectDoes | webapp/inventory/deletion.py:266-309 | what passed the check is deleted next, or cleaned up first |
| DeletionSteps.IntendChangeIff | webapp/inventory/reference_cleanup.py:245-275 | when the intent to change the next rule is stored |
| DeletionSteps.IntendChangeDoes | webapp/inventory/reference_cleanup.py:267-275 | the intent is the next recorded outcome, with a row of its own for a rule to be deleted |
| DeletionSteps.FinishCleanupIff | webapp/inventory/deletion.py:300-303 | after the last change: the object as verified and no reference left |
| DeletionSteps.GiveUpIff | webapp/inventory/deletion.py:352-360 | work can be given up until a request is under way |
| DeletionSteps.ExecutionOrder | webapp/inventory/deletion.py:306-351 | a worker checks, stores the intent, sends, and takes the answer, in this order |
| DeletionSteps.ChangeOrder | webapp/inventory/reference_cleanup.py:274-321 | a rule change is requested once after its intent, and its outcome taken once |
| DeletionSteps.RecoveryOrder | webapp/inventory/deletion.py:429-436 | workers may stop at any time; then a request is recovered in three updates and counts as interrupted |
| DeletionSteps.GiveUpDoes | webapp/inventory/deletion.py:352-360 | an item that could not be executed is uncertain exactly when a rule change may be under way |
| DeletionSteps.RecoveryDoes | webapp/inventory/deletion.py:433-435 | what recovery makes of an item |
| DeletionSteps.ConcludeDoes | webapp/inventory/reference_cleanup.py:278-321 | the outcome of a change is recorded in its place and in the row of the deleted rule, and only a success goes on |
| DeletionSteps.CancelDoes | webapp/inventory/task_cancellation.py:40-95 | open requests can be cancelled until a rule change was recorded |
| DeletionSteps.ApproveCleanupDoes | webapp/inventory/deletion.py:755-785 | a cleanup approval binds the plan as it is; with enough of them the item is verified again |
| DeletionSteps.CleanupDecisionsIff | webapp/inventory/deletion.py:732-770 | who may decide about a cleanup plan, and when |
| DeletionSteps.CleanupDecisionsDo | webapp/inventory/deletion.py:737-765 | what rejecting, cancelling and revalidating a cleanup do |
| DeletionOperations.Requests.Claim | webapp/inventory/deletion.py:388-394 | a worker gets the oldest queued request of its kind if there is one, and the request's status moves on so that no other worker finds it queued |
| DeletionOperations.Requests.Take | webapp/inventory/deletion.py:209-210 | an item is taken by whoever finds it verified, and by nobody ever again, whatever is taken, recovered or cleaned up in between |
| DeletionOperations.Requests.Interrupt | webapp/inventory/deletion.py:429-436 | a stopped request is cancelled or interrupted, and then each of its items is settled |
| DeletionOperations.SettledIsSettled | webapp/inventory/deletion.py:433-435 | the three updates leave no item sending, open or validating, none with changed rules blocked, and none that may have been sent looking unsent |
| DeletionOperations.Requests.ApplyPlan | webapp/inventory/reference_cleanup.py:240-321 | a plan is applied once, in order, each change only while authorised, approved and unaltered, until the first refusal or failure; outcomes and requests are prefixes of the plan, and it finishes exactly when every change succeeded |
| DeletionRows.StepFits | webapp/inventory/deletion.py:203-436 | every step keeps requests, items, workers, recovery and copies consistent |
| DeletionSafety.StepGood | webapp/inventory/deletion.py:203-436 | every step keeps recorded outcomes, requests sent and recovery stages consistent for every item |
| DeletionTheorems.EveryStateIsGood | webapp/inventory/deletion.py:203-436 | these hold in every reachable state, crashes and recovery included |
| DeletionTheorems.IntentPrecedesRequest | webapp/inventory/deletion.py:306-328 | whatever leaves for NSX, its intent is stored already: the item is sending, or the last recorded rule change is; what the log says about a DELETE is what held at that moment |
| DeletionTheorems.DeleteLeavesAtMostOnce | webapp/inventory/deletion.py:203-210 | over every interleaving the DELETE of an item and its delegated copy leaves at most once in total |
| DeletionTheorems.NothingSentIsForgotten | webapp/inventory/deletion.py:429-436 | an item whose DELETE may have left is never blocked, verified or pending again, and an interrupted request has only settled items |
| DeletionTheorems.CleanupIsOrderedPrefix | webapp/inventory/reference_cleanup.py:240-321 | outcomes follow the plan from its start, all but the last succeeded, and each rule change was requested at most once, in order, after its intent was stored |
| DeletionTheorems.SendIsAuthorized | webapp/inventory/deletion.py:310-328 | eligibility checked on the finding last seen holds for the locked one, because the revision is the same |
| DeletionTheorems.EveryDeleteIsAuthorized | webapp/inventory/deletion.py:176-200 | every DELETE had a ticket, a confirmation 0 to 10 minutes after verification and at most an hour old, an eligible executor, an unchanged object, a ready finding approved for its current evidence by its current owner first, all planned rule changes done, and a live check after the last of them that found no reference |
| DeletionTheorems.EveryRuleChangeIsAuthorized | webapp/inventory/reference_cleanup.py:245-275 | the same for every planned rule change that left, with enough cleanup approvals of the whole plan, all earlier changes done, and the rule and its policy as approved |
| DeletionTheorems.AnswerCloses | webapp/inventory/deletion.py:330-351 | a finding is closed, with the ticket, exactly when its object is verified to be gone |
| SearchCondition.Parse | webapp/inventory/report_views.py:33-55 | the index loop reads a search as `Parsed` says: groups of conditions, or why it is refused |
| SearchCondition.ParseRender | webapp/inventory/report_views.py:33-55 | conditions written with quotation marks are read back unchanged, whatever words they contain |
| SearchCondition.RenderParsed | webapp/inventory/report_views.py:33-55 | whatever a search is read as is well formed and can be written down so that it reads the same |
| SearchCondition.OpenQuoteIffOdd | webapp/inventory/report_views.py:37-52 | an open quotation mark is reported exactly for an odd number of them, unless a side of an operator is missing first |
| SearchCondition.OperatorIff | webapp/inventory/report_views.py:41 | outside quotation marks exactly the whole words AND and OR, in any case, are operators |
| SearchCondition.PlainTextIsOneCondition | webapp/inventory/report_views.py:41-55 | a text without these words is one condition, whatever its words contain |
| SearchCondition.FirstWordDivides | webapp/inventory/report_views.py:41-48 | the first such word divides the text, into one alternative by AND and two by OR |

## Left out

- Transient (VDI) policies: no transient rules, so suppression and monitoring periods are not modelled.
- The shortcut that replays only the newest collection when all waiting periods are zero
  (webapp/inventory/finding_recalculation.py:116-117).
- FindingReplay.ReplayEqualsIncremental: assumes one policy and interval, no deleted identities and, for zero hits alone, that rows
  listed under one path agree on their counters; where they do not, it can fail (`ListedTwiceDisagrees`).
- Sorting of `referenced_by` inside evidence; user labels, messages, diagnostics, timing and audit records.
- Pagination.ItemsOnce: the testing mode of the collector is not modelled, and a first request that is repeated without sorting
  (webapp/inventory/collector.py:289-334) counts as one request with one answer.
- Observation.Advance: transient rules are not modelled, as above.
- CleanupPlan.NothingRefersAfterwards: is about flat configurations, where only an object itself has a path; in a nested one
  a copy of a rule inside another object keeps its reference.
- Global-manager aliases (`remote_path`) of groups and rules, which cleanup refuses anyway.
- PlanComparison.ChangedFields: reports the names in any order.
- The live checks before a deletion (webapp/inventory/deletion.py:88-153) beyond approvals, object
  equality, references and plan comparison: search coverage, children, counters and membership are arbitrary outcomes of a step.
- Accounts removed while a deletion is under way are users who lose their permission; several environments in
  one deletion run; the check that a path is in only one open request.
- A worker that was declared interrupted takes no further steps, and a claim starts one worker.
- Waiting on conditions in the limiter and the pacer is modelled turn by turn; floating point as real numbers.
- Rules of the root policy in the impact preview are part of the given edges; how edges are collected.
- The backoff after failed bulk statistics, and individual rule requests.
- Unicode white space and case folding; regular-expression searches.
- Collection jobs (webapp/inventory/services.py): one active job per environment and one running job are simpler
  forms of the recalculation protocol.
- Membership existence probes, tag conditions that are not supported, report rendering, retention and comparison.
