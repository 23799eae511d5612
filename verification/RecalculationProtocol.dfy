/** Recalculation jobs: one row per environment, and workers that replay and publish.

    A worker reads the settings one by one, replays for a long time without any lock, and publishes only if
    its job is still the newest one and everything it read is still so. */
module RecalculationProtocol {
  import opened Common
  import opened FindingModel
  import opened Observation

  type EnvId = nat
  type Token = nat
  type WorkerId = nat

  /** A minute longer than a worker is allowed to live by default. */
  const TIME_LIMIT: Time := 61 * MINUTE

  datatype Status = Queued | Running | Failed | Completed | Cancelling | Cancelled

  datatype Job = Job(token: Token, kinds: set<Kind>, status: Status, requestedAt: Time, startedAt: Option<Time>)

  type Jobs = map<EnvId, Job>

  predicate Active(status: Status) {
    status in {Queued, Running, Failed}
  }

  /** Decisions on findings of these kinds wait for the recalculation. */
  predicate Blocks(jobs: Jobs, env: EnvId, kind: Kind) {
    env in jobs && Active(jobs[env].status) && kind in jobs[env].kinds
  }

  // ----- The job table -----

  function Asked(jobs: Jobs, env: EnvId, kinds: set<Kind>, token: Token, now: Time): Job {
    var pending := if env in jobs && Active(jobs[env].status) then jobs[env].kinds else {};
    Job(token, kinds + pending, Queued, now, None)
  }

  function Expired(job: Job, now: Time): Job {
    if job.status == Running && job.startedAt.Some? && job.startedAt.value < now - TIME_LIMIT then job.(status := Failed)
    else job
  }

  /** The job a worker may take: none is running, and this one has waited longest. */
  predicate Claimable(jobs: Jobs, env: EnvId) {
    && env in jobs && jobs[env].status == Queued
    && forall other | other in jobs ::
         && jobs[other].status != Running
         && (jobs[other].status == Queued ==> jobs[env].requestedAt <= jobs[other].requestedAt)
  }

  function Started(job: Job, now: Time): Job {
    job.(status := Running, startedAt := Some(now))
  }

  function GivenUp(job: Job, token: Token): Job {
    if job.token == token && job.status == Running then job.(status := Failed) else job
  }

  function CancelAsked(job: Job): Job {
    match job.status
    case Queued => job.(status := Cancelled)
    case Running => job.(status := Cancelling)
    case _ => job
  }

  function CancelDone(job: Job): Job {
    if job.status == Cancelling then job.(status := Cancelled) else job
  }

  class JobTable {
    var jobs: Jobs

    constructor ()
      ensures jobs == map[]
    {
      jobs := map[];
    }

    method Queue(environments: set<EnvId>, kinds: set<Kind>, tokens: map<EnvId, Token>, now: Time)
      requires environments <= tokens.Keys
      modifies this
      ensures jobs.Keys == old(jobs).Keys + environments
      ensures forall env | env in jobs ::
                jobs[env] == if env in environments then Asked(old(jobs), env, kinds, tokens[env], now) else old(jobs)[env]
    {
      var remaining := environments;
      while remaining != {}
        invariant remaining <= environments
        invariant jobs.Keys == old(jobs).Keys + (environments - remaining)
        invariant forall env | env in jobs ::
                    jobs[env] == if env in environments && env !in remaining
                                 then Asked(old(jobs), env, kinds, tokens[env], now) else old(jobs)[env]
      {
        var env :| env in remaining;
        jobs := jobs[env := Asked(jobs, env, kinds, tokens[env], now)];
        remaining := remaining - {env};
      }
    }

    method Expire(now: Time)
      modifies this
      ensures jobs.Keys == old(jobs).Keys
      ensures forall env | env in jobs :: jobs[env] == old(jobs)[env].(status := jobs[env].status)
      ensures forall env | env in jobs ::
                jobs[env].status == Failed <==>
                  || old(jobs)[env].status == Failed
                  || (old(jobs)[env].status == Running && old(jobs)[env].startedAt.Some?
                      && now - old(jobs)[env].startedAt.value > 61 * MINUTE)
      ensures forall env | env in jobs && jobs[env].status != Failed :: jobs[env] == old(jobs)[env]
    {
      jobs := map env | env in jobs :: Expired(jobs[env], now);
    }

    /** A job is taken exactly when none is running and some job waits. */
    method Claim(now: Time) returns (claimed: Option<EnvId>)
      modifies this
      ensures claimed.Some? ==> Claimable(old(jobs), claimed.value)
                                && jobs == old(jobs)[claimed.value := Started(old(jobs)[claimed.value], now)]
      ensures claimed == None ==> jobs == old(jobs) && forall env :: !Claimable(jobs, env)
      ensures claimed.Some? <==>
                && (exists env | env in old(jobs) :: old(jobs)[env].status == Queued)
                && (forall env | env in old(jobs) :: old(jobs)[env].status != Running)
      ensures claimed.Some? ==>
                && claimed.value in old(jobs) && old(jobs)[claimed.value].status == Queued
                && forall env | env in old(jobs) && old(jobs)[env].status == Queued ::
                     old(jobs)[claimed.value].requestedAt <= old(jobs)[env].requestedAt
    {
      if running :| running in jobs && jobs[running].status == Running {
        return None;
      }
      claimed := None;
      var remaining := jobs.Keys;
      while remaining != {}
        invariant remaining <= jobs.Keys && jobs == old(jobs)
        invariant claimed.Some? ==> claimed.value in jobs && jobs[claimed.value].status == Queued
        invariant forall env | env in jobs && env !in remaining && jobs[env].status == Queued ::
                    claimed.Some? && jobs[claimed.value].requestedAt <= jobs[env].requestedAt
      {
        var env :| env in remaining;
        if jobs[env].status == Queued
           && (claimed == None || jobs[env].requestedAt < jobs[claimed.value].requestedAt) {
          claimed := Some(env);
        }
        remaining := remaining - {env};
      }
      if claimed.Some? {
        jobs := jobs[claimed.value := Started(jobs[claimed.value], now)];
      }
    }

    method Fail(env: EnvId, token: Token)
      modifies this
      ensures jobs == if env in old(jobs) then old(jobs)[env := GivenUp(old(jobs)[env], token)] else old(jobs)
    {
      if env in jobs && jobs[env].token == token && jobs[env].status == Running {
        jobs := jobs[env := jobs[env].(status := Failed)];
      }
    }

    method Cancel(env: EnvId) returns (available: bool)
      modifies this
      ensures available == (env in old(jobs) && old(jobs)[env].status in {Queued, Running})
      ensures jobs == if env in old(jobs) then old(jobs)[env := CancelAsked(old(jobs)[env])] else old(jobs)
    {
      available := env in jobs && jobs[env].status in {Queued, Running};
      if available {
        jobs := jobs[env := jobs[env].(status := if jobs[env].status == Running then Cancelling else Cancelled)];
      }
    }

    method Reconcile()
      modifies this
      ensures jobs.Keys == old(jobs).Keys
      ensures forall env | env in jobs :: jobs[env] == old(jobs)[env].(status := jobs[env].status)
      ensures forall env | env in jobs ::
                && jobs[env].status != Cancelling
                && (jobs[env].status == Cancelled <==> old(jobs)[env].status in {Cancelling, Cancelled})
                && (jobs[env].status != Cancelled ==> jobs[env] == old(jobs)[env])
    {
      jobs := map env | env in jobs :: CancelDone(jobs[env]);
    }
  }

  // ----- Workers between claim and publication -----

  /** What a replay depends on besides the retained collections themselves. */
  datatype Facts = Facts(latest: Option<SnapshotId>, policy: FindingPolicy, interval: nat)

  /** How far a worker has come; it reads one setting after the other. */
  datatype Phase =
    | Spawned
    | Begun(kinds: set<Kind>)
    | KnowsInterval(kinds: set<Kind>, interval: nat)
    | KnowsPolicy(kinds: set<Kind>, interval: nat, policy: FindingPolicy)
    | Replaying(kinds: set<Kind>, facts: Facts)

  datatype Worker = Worker(env: EnvId, token: Token, phase: Phase)

  /** What happened to the wishes of an environment. */
  datatype Event = Wanted(env: EnvId, kinds: set<Kind>) | Dropped(env: EnvId) | Published(env: EnvId, kinds: set<Kind>)

  datatype State = State(
    jobs: Jobs,
    facts: map<EnvId, Facts>,
    workers: map<WorkerId, Worker>,
    usedTokens: set<Token>,
    usedWorkers: set<WorkerId>,
    log: seq<Event>)

  datatype Step =
    | Ask(env: EnvId, kinds: set<Kind>, token: Token, now: Time)
    | Expire(now: Time)
    | Claim(env: EnvId, worker: WorkerId, now: Time)
    | Advance(worker: WorkerId)
    | Commit(worker: WorkerId, restorable: bool)
    | Die(worker: WorkerId)
    | GiveUp(env: EnvId, token: Token)
    | AskCancel(env: EnvId)
    | Reconcile
    | Change(env: EnvId, facts: Facts)

  /** The job is still this worker's. */
  predicate Current(s: State, w: WorkerId) {
    && w in s.workers && s.workers[w].env in s.jobs
    && s.jobs[s.workers[w].env].token == s.workers[w].token
    && s.jobs[s.workers[w].env].status == Running
  }

  predicate Enabled(s: State, step: Step) {
    match step
    case Ask(env, _, token, _) => env in s.facts && token !in s.usedTokens
    case Claim(env, worker, _) => Claimable(s.jobs, env) && worker !in s.usedWorkers
    case Advance(w) => w in s.workers && !s.workers[w].phase.Replaying?
    case Commit(w, _) => w in s.workers && s.workers[w].phase.Replaying?
    case Die(w) => w in s.workers
    case Change(env, _) => true
    case _ => true
  }

  /** Starting, and beginning the replay, first check that the job is still this worker's. */
  predicate Continues(s: State, w: WorkerId)
    requires w in s.workers
  {
    && s.workers[w].env in s.facts
    && (s.workers[w].phase.Spawned? || s.workers[w].phase.KnowsPolicy? ==> Current(s, w))
  }

  /** One more read. */
  function Further(s: State, worker: Worker): Phase
    requires worker.env in s.jobs && worker.env in s.facts && !worker.phase.Replaying?
  {
    var facts := s.facts[worker.env];
    match worker.phase
    case Spawned => Begun(s.jobs[worker.env].kinds)
    case Begun(kinds) => KnowsInterval(kinds, facts.interval)
    case KnowsInterval(kinds, interval) => KnowsPolicy(kinds, interval, facts.policy)
    case KnowsPolicy(kinds, interval, policy) => Replaying(kinds, Facts(facts.latest, policy, interval))
  }

  /** Under the environment lock: the job is current and nothing read has changed. */
  predicate Publishes(s: State, w: WorkerId, restorable: bool) {
    && Current(s, w) && s.workers[w].phase.Replaying? && s.workers[w].env in s.facts
    && s.workers[w].phase.facts == s.facts[s.workers[w].env] && restorable
  }

  function Committed(s: State, w: WorkerId, restorable: bool): State
    requires w in s.workers && s.workers[w].phase.Replaying?
  {
    var worker := s.workers[w];
    var ended := s.(workers := s.workers - {w});
    if !Current(s, w) then ended
    else if Publishes(s, w, restorable) then
      ended.(jobs := s.jobs[worker.env := s.jobs[worker.env].(status := Completed)],
             log := s.log + [Published(worker.env, worker.phase.kinds)])
    else ended.(jobs := s.jobs[worker.env := s.jobs[worker.env].(status := Queued)])
  }

  function After(s: State, step: Step): State
    requires Enabled(s, step)
  {
    match step
    case Ask(env, kinds, token, now) =>
      s.(jobs := s.jobs[env := Asked(s.jobs, env, kinds, token, now)], usedTokens := s.usedTokens + {token},
         log := s.log + [Wanted(env, kinds)])
    case Expire(now) => s.(jobs := map env | env in s.jobs :: Expired(s.jobs[env], now))
    case Claim(env, w, now) =>
      s.(jobs := s.jobs[env := Started(s.jobs[env], now)], usedWorkers := s.usedWorkers + {w},
         workers := s.workers[w := Worker(env, s.jobs[env].token, Spawned)])
    case Advance(w) =>
      var worker := s.workers[w];
      if worker.env in s.jobs && Continues(s, w)
      then s.(workers := s.workers[w := worker.(phase := Further(s, worker))])
      else s.(workers := s.workers - {w})
    case Commit(w, restorable) => Committed(s, w, restorable)
    case Die(w) => s.(workers := s.workers - {w})
    case GiveUp(env, token) => if env in s.jobs then s.(jobs := s.jobs[env := GivenUp(s.jobs[env], token)]) else s
    case AskCancel(env) =>
      if env in s.jobs && s.jobs[env].status in {Queued, Running}
      then s.(jobs := s.jobs[env := CancelAsked(s.jobs[env])], log := s.log + [Dropped(env)])
      else s
    case Reconcile => s.(jobs := map env | env in s.jobs :: CancelDone(s.jobs[env]))
    case Change(env, facts) => s.(facts := s.facts[env := facts])
  }

  predicate Initial(s: State) {
    s.jobs == map[] && s.workers == map[] && s.usedTokens == {} && s.usedWorkers == {} && s.log == []
  }

  /** Any interleaving of requests, workers, failures and changes. */
  ghost predicate Run(states: seq<State>, steps: seq<Step>) {
    && |states| == |steps| + 1
    && Initial(states[0])
    && forall i :: 0 <= i < |steps| ==> Enabled(states[i], steps[i]) && states[i + 1] == After(states[i], steps[i])
  }

  // ----- What each step does to a job -----

  /** What a step makes of the job row of one environment. */
  function JobAfter(s: State, env: EnvId, step: Step): Option<Job> {
    if step.Ask? && step.env == env then
      var pending := if env in s.jobs && s.jobs[env].status in {Queued, Running, Failed} then s.jobs[env].kinds else {};
      Some(Job(step.token, step.kinds + pending, Queued, step.now, None))
    else if env in s.jobs then Some(JobMoved(s, s.jobs[env], env, step))
    else None
  }

  function JobMoved(s: State, job: Job, env: EnvId, step: Step): Job {
    match step
    case Expire(now) =>
      if job.status == Running && job.startedAt.Some? && job.startedAt.value + 61 * MINUTE < now
      then job.(status := Failed) else job
    case Claim(claimed, _, now) => if claimed == env then job.(status := Running, startedAt := Some(now)) else job
    case Commit(w, restorable) =>
      if w !in s.workers || s.workers[w].env != env || job.token != s.workers[w].token || job.status != Running then job
      else if s.workers[w].phase.Replaying? && env in s.facts && s.workers[w].phase.facts == s.facts[env] && restorable
      then job.(status := Completed)
      else job.(status := Queued)
    case GiveUp(given, token) =>
      if given == env && job.token == token && job.status == Running then job.(status := Failed) else job
    case AskCancel(asked) =>
      if asked == env && job.status == Queued then job.(status := Cancelled)
      else if asked == env && job.status == Running then job.(status := Cancelling) else job
    case Reconcile => if job.status == Cancelling then job.(status := Cancelled) else job
    case _ => job
  }

  lemma StepMovesJob(s: State, env: EnvId, step: Step)
    requires Enabled(s, step)
    ensures var jobs := After(s, step).jobs;
            (if env in jobs then Some(jobs[env]) else None) == JobAfter(s, env, step)
  {
  }

  /** Time passes, workers fail, requests are withdrawn and settings change in any state; a job is claimed whenever
      one waits and none runs, the one waiting longest first. */
  lemma AlwaysPossible(s: State, env: EnvId, w: WorkerId, now: Time, token: Token, facts: Facts)
    ensures Enabled(s, Expire(now)) && Enabled(s, GiveUp(env, token)) && Enabled(s, AskCancel(env))
    ensures Enabled(s, Reconcile) && Enabled(s, Change(env, facts))
    ensures w in s.workers ==> Enabled(s, Die(w)) && (Enabled(s, Advance(w)) || forall restorable :: Enabled(s, Commit(w, restorable)))
    ensures Enabled(s, Claim(env, w, now)) <==>
              && w !in s.usedWorkers && env in s.jobs && s.jobs[env].status == Queued
              && (forall other | other in s.jobs :: s.jobs[other].status != Running)
              && forall other | other in s.jobs && s.jobs[other].status == Queued ::
                   s.jobs[env].requestedAt <= s.jobs[other].requestedAt
  {
  }

  /** A worker whose job is no longer its own stops at its first step and before it begins to replay. */
  lemma StaleWorkersStop(s: State, w: WorkerId)
    requires Enabled(s, Advance(w)) && (s.workers[w].phase.Spawned? || s.workers[w].phase.KnowsPolicy?)
    requires s.workers[w].env in s.jobs ==>
               s.jobs[s.workers[w].env].token != s.workers[w].token || s.jobs[s.workers[w].env].status != Running
    ensures w !in After(s, Advance(w)).workers
  {
  }

  // ----- What every step keeps -----

  predicate OneRunning(jobs: Jobs) {
    forall a, b | a in jobs && b in jobs :: jobs[a].status == Running && jobs[b].status == Running ==> a == b
  }

  function OwedAfter(before: set<Kind>, event: Event): set<Kind> {
    match event
    case Wanted(_, kinds) => before + kinds
    case Dropped(_) => {}
    case Published(_, kinds) => before - kinds
  }

  /** The kinds asked for and neither published nor cancelled since. */
  function Owed(log: seq<Event>, env: EnvId): set<Kind> {
    if log == [] then {}
    else
      var before, last := Owed(log[..|log| - 1], env), log[|log| - 1];
      if last.env == env then OwedAfter(before, last) else before
  }

  lemma OwedAppends(log: seq<Event>, event: Event, env: EnvId)
    ensures Owed(log + [event], env) == if event.env == env then OwedAfter(Owed(log, env), event) else Owed(log, env)
  {
    assert (log + [event])[..|log|] == log;
  }

  predicate SameJob(a: Worker, b: Worker) {
    a.env == b.env && a.token == b.token
  }

  /** A job with a live worker is not waiting, and its worker knows the right kinds. */
  predicate FitsJob(worker: Worker, job: Job) {
    job.token == worker.token ==>
      job.status != Queued && (worker.phase.Spawned? || worker.phase.kinds == job.kinds)
  }

  predicate WorkersFit(s: State) {
    && (forall w | w in s.workers :: w in s.usedWorkers && s.workers[w].env in s.jobs && s.workers[w].token in s.usedTokens)
    && (forall a, b | a in s.workers && b in s.workers :: SameJob(s.workers[a], s.workers[b]) ==> a == b)
    && forall w | w in s.workers :: FitsJob(s.workers[w], s.jobs[s.workers[w].env])
  }

  predicate TokensFit(s: State) {
    forall env | env in s.jobs :: s.jobs[env].token in s.usedTokens && env in s.facts
  }

  function Wants(jobs: Jobs, env: EnvId): set<Kind> {
    if env in jobs && Active(jobs[env].status) then jobs[env].kinds else {}
  }

  ghost predicate OwedFits(s: State) {
    forall env :: Owed(s.log, env) == Wants(s.jobs, env)
  }

  ghost predicate Safe(s: State) {
    OneRunning(s.jobs) && TokensFit(s) && WorkersFit(s) && OwedFits(s)
  }

  lemma StepKeepsOneRunning(s: State, step: Step)
    requires OneRunning(s.jobs) && Enabled(s, step)
    ensures OneRunning(After(s, step).jobs)
  {
  }

  lemma StepFitsTokens(s: State, step: Step)
    requires TokensFit(s) && WorkersFit(s) && Enabled(s, step)
    ensures TokensFit(After(s, step))
  {
  }

  lemma StepFitsWorkers(s: State, step: Step)
    requires TokensFit(s) && WorkersFit(s) && Enabled(s, step)
    ensures WorkersFit(After(s, step))
  {
    hide WorkersFit, TokensFit, Enabled, After;
    match step
    case Claim(env, w, now) => ClaimFitsWorkers(s, env, w, now);
    case Advance(w) => AdvanceFitsWorkers(s, w);
    case Commit(w, restorable) => CommitFitsWorkers(s, w, restorable);
    case _ => OthersFitWorkers(s, step);
  }

  lemma AdvanceFitsWorkers(s: State, w: WorkerId)
    requires TokensFit(s) && WorkersFit(s) && Enabled(s, Advance(w))
    ensures WorkersFit(After(s, Advance(w)))
  {
    var t := After(s, Advance(w));
    assert forall v | v in t.workers && v != w :: t.workers[v] == s.workers[v];
  }

  lemma OthersFitWorkers(s: State, step: Step)
    requires TokensFit(s) && WorkersFit(s) && Enabled(s, step)
    requires !step.Claim? && !step.Advance? && !step.Commit?
    ensures WorkersFit(After(s, step))
  {
    var t := After(s, step);
    assert forall v | v in t.workers :: t.workers[v] == s.workers[v];
  }

  lemma ClaimFitsWorkers(s: State, env: EnvId, w: WorkerId, now: Time)
    requires TokensFit(s) && WorkersFit(s) && Enabled(s, Claim(env, w, now))
    ensures WorkersFit(After(s, Claim(env, w, now)))
  {
  }

  lemma CommitFitsWorkers(s: State, w: WorkerId, restorable: bool)
    requires TokensFit(s) && WorkersFit(s) && Enabled(s, Commit(w, restorable))
    ensures WorkersFit(After(s, Commit(w, restorable)))
  {
  }

  lemma StepOwes(s: State, step: Step)
    requires Safe(s) && Enabled(s, step)
    ensures OwedFits(After(s, step))
  {
    hide Owed, OneRunning;
    var t := After(s, step);
    forall env
      ensures Owed(t.log, env) == Wants(t.jobs, env)
    {
      assert Owed(s.log, env) == Wants(s.jobs, env);
      if t.log != s.log {
        OwedAppends(s.log, t.log[|s.log|], env);
      }
    }
  }

  /** At most one job runs, jobs and workers fit together, and no wanted kind is ever lost. */
  lemma {:induction false} EveryStateIsSafe(states: seq<State>, steps: seq<Step>, i: nat)
    requires Run(states, steps) && i < |states|
    ensures Safe(states[i])
  {
    hide WorkersFit, TokensFit, After, Enabled;
    if i > 0 {
      EveryStateIsSafe(states, steps, i - 1);
      StepKeepsOneRunning(states[i - 1], steps[i - 1]);
      StepFitsTokens(states[i - 1], steps[i - 1]);
      StepFitsWorkers(states[i - 1], steps[i - 1]);
      StepOwes(states[i - 1], steps[i - 1]);
    } else {
      EmptyIsSafe(states[0]);
    }
  }

  lemma EmptyIsSafe(s: State)
    requires Initial(s)
    ensures Safe(s)
  {
  }

  // ----- Publication -----

  /** A worker that is current after a step was already there, for the same job, before it. */
  lemma CurrentBefore(s: State, step: Step, w: WorkerId)
    requires Safe(s) && Enabled(s, step) && w in s.usedWorkers && Current(After(s, step), w)
    ensures Current(s, w) && SameJob(s.workers[w], After(s, step).workers[w])
    ensures s.jobs[s.workers[w].env] == After(s, step).jobs[s.workers[w].env]
  {
    hide Owed, OwedFits;
  }

  lemma {:induction false} WorkerIsKnown(states: seq<State>, steps: seq<Step>, c: nat, k: nat)
    requires Run(states, steps) && c < k < |states| && steps[c].Claim?
    ensures steps[c].worker in states[k].usedWorkers
  {
    if k > c + 1 {
      WorkerIsKnown(states, steps, c, k - 1);
    }
  }

  /** From the claim to any later moment at which the worker is current, its job row never changed at all:
      nobody asked again, nothing expired, failed or was cancelled. */
  lemma {:induction false} NothingHappenedSinceClaim(states: seq<State>, steps: seq<Step>, c: nat, i: nat, k: nat)
    requires Run(states, steps) && c < i <= k < |states| && steps[c].Claim?
    requires Current(states[k], steps[c].worker)
    ensures var w, env := steps[c].worker, steps[c].env;
            && Current(states[i], w) && states[i].workers[w].env == env == states[k].workers[w].env
            && states[i].jobs[env] == states[k].jobs[env]
    decreases k - i
  {
    hide Enabled, After, Safe;
    var w := steps[c].worker;
    if i < k {
      NothingHappenedSinceClaim(states, steps, c, i + 1, k);
      EveryStateIsSafe(states, steps, i);
      WorkerIsKnown(states, steps, c, i);
      CurrentBefore(states[i], steps[i], w);
    } else {
      ClaimedFor(states, steps, c, k);
    }
  }

  lemma StepKeepsEnv(s: State, step: Step, w: WorkerId)
    requires Enabled(s, step) && w in s.usedWorkers && w in After(s, step).workers
    ensures w in s.workers && s.workers[w].env == After(s, step).workers[w].env
  {
  }

  lemma {:induction false} ClaimedFor(states: seq<State>, steps: seq<Step>, c: nat, k: nat)
    requires Run(states, steps) && c < k < |states| && steps[c].Claim? && steps[c].worker in states[k].workers
    ensures states[k].workers[steps[c].worker].env == steps[c].env
  {
    if k > c + 1 {
      WorkerIsKnown(states, steps, c, k - 1);
      StepKeepsEnv(states[k - 1], steps[k - 1], steps[c].worker);
      ClaimedFor(states, steps, c, k - 1);
    }
  }

  /** A publication uses the newest collection, the criteria and the interval of this very moment; it covers
      exactly the kinds still owed, for a job that is the only one running; and it settles them. */
  lemma NothingStaleIsPublished(states: seq<State>, steps: seq<Step>, k: nat)
    requires Run(states, steps) && k < |steps| && steps[k].Commit?
    requires states[k + 1].log != states[k].log
    ensures var s, w := states[k], steps[k].worker;
            var env := s.workers[w].env;
            && Current(s, w)
            && s.workers[w].phase.facts == s.facts[env]
            && s.workers[w].phase.kinds == s.jobs[env].kinds == Owed(s.log, env)
            && (forall other | other in s.jobs && other != env :: s.jobs[other].status != Running)
            && Owed(states[k + 1].log, env) == {}
  {
    EveryStateIsSafe(states, steps, k);
    EveryStateIsSafe(states, steps, k + 1);
  }

  /** While a kind is still to be recalculated, decisions on its findings are blocked. */
  lemma OwedKindsAreBlocked(states: seq<State>, steps: seq<Step>, i: nat, env: EnvId, kind: Kind)
    requires Run(states, steps) && i < |states|
    ensures Blocks(states[i].jobs, env, kind) <==> kind in Owed(states[i].log, env)
  {
    EveryStateIsSafe(states, steps, i);
  }
}
