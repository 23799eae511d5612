/** Burst-free pacing of requests with a rate that follows throttling by the server.

    Each method is one critical section; clock readings are arguments and never go back. The waiting loop
    of a request is a sequence of turns, each with its own clock reading. */
module RequestPacer {
  import opened Common

  const SLOWEST := 0.5
  const FASTEST := 40.0

  /** None stands for a time that never comes. */
  function Earlier(a: Option<real>, b: Option<real>): Option<real> {
    if a == None then b else if b == None then a else Some(Min(a.value, b.value))
  }

  predicate Passed(deadline: Option<real>, time: real) {
    deadline.Some? && time >= deadline.value
  }

  datatype Outcome = Succeeded | Throttled(retryAfter: Option<real>) | Failed

  datatype Turn = Granted | DeadlineExceeded | Wait(delay: real)

  /** Consecutive grants leave room for the rate in force when the earlier one was given. */
  datatype Grant = Grant(at: real, rate: real)

  predicate Spaced(grants: seq<Grant>) {
    && (forall i :: 0 <= i < |grants| ==> SLOWEST <= grants[i].rate <= FASTEST)
    && (forall i :: 0 < i < |grants| ==> grants[i].at >= grants[i - 1].at + 1.0 / grants[i - 1].rate)
  }

  /** A cooldown ending at `until` was in force after the first `after` grants. */
  datatype Cooldown = Cooldown(after: nat, until: real)

  predicate Respected(grants: seq<Grant>, cooldowns: seq<Cooldown>) {
    forall k, i :: 0 <= k < |cooldowns| && cooldowns[k].after <= i < |grants| ==> grants[i].at >= cooldowns[k].until
  }

  /** The part of the pacer that reacts to finished requests. */
  datatype Pace = Pace(rate: real, successes: nat, cooldown: real, recoverAfter: real, lastChange: real)

  predicate Sound(pace: Pace) {
    SLOWEST <= pace.rate <= FASTEST && 0.0 <= pace.cooldown <= pace.recoverAfter
  }

  datatype Report = Report(now: real, outcome: Outcome, jitter: real)

  function Delay(rate: real, report: Report): (delay: real)
    requires report.outcome.Throttled? && rate > 0.0 && report.jitter >= 0.0
    ensures delay > 0.0
  {
    assert 10.0 / rate > 0.0;
    Max(if report.outcome.retryAfter.Some? then report.outcome.retryAfter.value else 0.0,
        Min(30.0, 10.0 / rate) + report.jitter)
  }

  lemma DelayMeans(rate: real, report: Report)
    requires report.outcome.Throttled? && rate > 0.0 && report.jitter >= 0.0
    ensures var least, asked := report.jitter + (if 10.0 / rate >= 30.0 then 30.0 else 10.0 / rate), report.outcome.retryAfter;
            && Delay(rate, report) >= least && (asked.Some? ==> Delay(rate, report) >= asked.value)
            && (Delay(rate, report) == least || (asked.Some? && Delay(rate, report) == asked.value))
  {
    assert 10.0 / rate > 0.0;
  }

  function Reported(pace: Pace, report: Report): (after: Pace)
    requires Sound(pace) && report.jitter >= 0.0
    ensures Sound(after) && pace.cooldown <= after.cooldown
    ensures report.outcome.Throttled? ==> report.now < after.cooldown
  {
    var successes := if report.outcome.Succeeded? then pace.successes + 1 else 0;
    if report.outcome.Throttled? then
      var rate := if report.now >= pace.cooldown then Max(SLOWEST, pace.rate / 2.0) else pace.rate;
      var cooldown := Max(pace.cooldown, report.now + Delay(rate, report));
      Pace(rate, successes, cooldown, cooldown + 30.0, report.now)
    else if report.outcome.Succeeded? && report.now >= pace.recoverAfter && report.now - pace.lastChange >= 10.0
            && successes >= 20 && pace.rate < FASTEST then
      Pace(Min(FASTEST, Max(pace.rate + 1.0, pace.rate * 1.25)), 0, pace.cooldown, pace.recoverAfter, report.now)
    else
      pace.(successes := successes)
  }

  /** Outside a cooldown throttling slows down and steady success speeds up; within one nothing changes. */
  lemma RateChanges(pace: Pace, report: Report)
    requires Sound(pace) && report.jitter >= 0.0
    ensures var after := Reported(pace, report);
            && (after.rate < pace.rate ==> report.outcome.Throttled? && report.now >= pace.cooldown)
            && (after.rate > pace.rate ==> report.outcome.Succeeded? && report.now >= pace.cooldown)
  {
  }

  function AfterReports(pace: Pace, reports: seq<Report>): Pace
    requires Sound(pace) && forall r | r in reports :: r.jitter >= 0.0
    decreases |reports|
  {
    if reports == [] then pace
    else AfterReports(Reported(pace, reports[0]), reports[1..])
  }

  /** Every report comes in before the cooldown known at that moment is over. */
  predicate DuringCooldown(pace: Pace, reports: seq<Report>)
    requires Sound(pace) && forall r | r in reports :: r.jitter >= 0.0
    decreases |reports|
  {
    if reports == [] then true
    else reports[0].now < pace.cooldown && DuringCooldown(Reported(pace, reports[0]), reports[1..])
  }

  lemma {:induction false} CooldownKeepsRate(pace: Pace, reports: seq<Report>)
    requires Sound(pace) && forall r | r in reports :: r.jitter >= 0.0
    requires DuringCooldown(pace, reports)
    ensures AfterReports(pace, reports).rate == pace.rate
    decreases |reports|
  {
    if reports != [] {
      RateChanges(pace, reports[0]);
      CooldownKeepsRate(Reported(pace, reports[0]), reports[1..]);
    }
  }

  /** A burst of throttled requests halves the rate once: the first one starts a cooldown, and nothing
      reported before that cooldown (however extended) is over changes the rate again. */
  lemma BurstHalvesOnce(pace: Pace, first: Report, rest: seq<Report>)
    requires Sound(pace) && first.jitter >= 0.0 && forall r | r in rest :: r.jitter >= 0.0
    requires first.outcome.Throttled? && first.now >= pace.cooldown
    requires DuringCooldown(Reported(pace, first), rest)
    ensures AfterReports(Reported(pace, first), rest).rate == Max(SLOWEST, pace.rate / 2.0)
  {
    CooldownKeepsRate(Reported(pace, first), rest);
  }

  /** In any stretch of time of length T there are at most 40 T + 1 grants. */
  lemma {:induction false} GrantsInWindow(grants: seq<Grant>, i: nat, j: nat)
    requires Spaced(grants) && i <= j < |grants|
    ensures (j - i + 1) as real <= FASTEST * (grants[j].at - grants[i].at) + 1.0
    decreases j
  {
    if i < j {
      GrantsInWindow(grants, i, j - 1);
      assert 1.0 / grants[j - 1].rate >= 1.0 / FASTEST;
    }
  }

  /** The grants so far kept their distance, every cooldown and the deadline; the next slot follows the last. */
  ghost predicate Granting(grants: seq<Grant>, cooldowns: seq<Cooldown>, deadline: Option<real>, nextRequest: real, cooldown: real,
                           clock: real)
  {
    && Spaced(grants) && Respected(grants, cooldowns)
    && (forall k :: 0 <= k < |cooldowns| ==> cooldowns[k].after <= |grants| && cooldowns[k].until <= cooldown)
    && (forall i :: 0 <= i < |grants| ==> !Passed(deadline, grants[i].at))
    && (grants != [] ==>
          var last := grants[|grants| - 1];
          SLOWEST <= last.rate && last.at <= clock && nextRequest == last.at + 1.0 / last.rate)
  }

  lemma GrantFits(grants: seq<Grant>, cooldowns: seq<Cooldown>, deadline: Option<real>, nextRequest: real, cooldown: real,
                  grant: Grant)
    requires Granting(grants, cooldowns, deadline, nextRequest, cooldown, grant.at)
    requires grant.at >= Max(nextRequest, cooldown) && SLOWEST <= grant.rate <= FASTEST && !Passed(deadline, grant.at)
    ensures Granting(grants + [grant], cooldowns, deadline, grant.at + 1.0 / grant.rate, cooldown, grant.at)
  {
    hide Max;
    var longer := grants + [grant];
    assert nextRequest <= grant.at && cooldown <= grant.at by {
      MaxIsLarger(nextRequest, cooldown);
    }
    forall i | 0 < i < |longer|
      ensures longer[i].at >= longer[i - 1].at + 1.0 / longer[i - 1].rate
    {
      if i < |grants| {
        assert longer[i] == grants[i] && longer[i - 1] == grants[i - 1];
      }
    }
  }

  lemma MaxIsLarger(a: real, b: real)
    ensures a <= Max(a, b) && b <= Max(a, b)
  {
  }

  lemma LaterFits(grants: seq<Grant>, cooldowns: seq<Cooldown>, deadline: Option<real>, nextRequest: real, cooldown: real,
                  clock: real, now: real)
    requires Granting(grants, cooldowns, deadline, nextRequest, cooldown, clock) && clock <= now
    ensures Granting(grants, cooldowns, deadline, nextRequest, cooldown, now)
  {
  }

  lemma CooldownFits(grants: seq<Grant>, cooldowns: seq<Cooldown>, deadline: Option<real>, nextRequest: real, cooldown: real,
                     clock: real, until: real)
    requires Granting(grants, cooldowns, deadline, nextRequest, cooldown, clock) && cooldown <= until
    ensures Granting(grants, cooldowns + [Cooldown(|grants|, until)], deadline, nextRequest, until, clock)
  {
    hide Spaced, Passed;
  }

  class Pacer {
    const deadline: Option<real>
    var rate: real
    var successes: nat
    var nextRequest: real
    var cooldown: real
    var recoverAfter: real
    var lastChange: real

    // The history of the pacer.
    ghost var grants: seq<Grant>
    ghost var cooldowns: seq<Cooldown>
    ghost var clock: real

    function State(): Pace
      reads this
    {
      Pace(rate, successes, cooldown, recoverAfter, lastChange)
    }

    ghost predicate Valid()
      reads this
    {
      Sound(State()) && Granting(grants, cooldowns, deadline, nextRequest, cooldown, clock)
    }

    constructor (start: real, deadline: Option<real>)
      ensures Valid() && State() == Pace(10.0, 0, 0.0, 0.0, start) && grants == [] && clock == start
    {
      this.deadline := deadline;
      rate, successes := 10.0, 0;
      nextRequest, cooldown, recoverAfter, lastChange := 0.0, 0.0, 0.0, start;
      grants, cooldowns, clock := [], [], start;
    }

    /** One turn of a waiting request: no request is let go during a cooldown, before its slot, or at or
        after either deadline. */
    method Acquire(now: real, phase: Option<real>) returns (turn: Turn)
      requires Valid() && clock <= now
      modifies this`nextRequest, this`grants, this`clock
      ensures Valid() && clock == now
      ensures var first := if now >= old(nextRequest) && now >= cooldown then now
                           else if old(nextRequest) >= cooldown then old(nextRequest) else cooldown;
              && (turn == DeadlineExceeded <==>
                    (phase.Some? && first >= phase.value) || (deadline.Some? && first >= deadline.value))
              && (turn == Granted <==> first == now && turn != DeadlineExceeded)
              && (turn.Wait? ==> turn.delay == if first - now <= 1.0 then first - now else 1.0)
      ensures turn == Granted ==> grants == old(grants) + [Grant(now, rate)]
      ensures turn != Granted ==> grants == old(grants) && nextRequest == old(nextRequest)
    {
      hide Granting;
      LaterFits(grants, cooldowns, deadline, nextRequest, cooldown, clock, now);
      clock := now;
      var limit := Earlier(phase, deadline);
      var ready := Max(nextRequest, cooldown);
      if Passed(limit, Max(now, ready)) {
        return DeadlineExceeded;
      }
      if now >= ready {
        GrantFits(grants, cooldowns, deadline, nextRequest, cooldown, Grant(now, rate));
        nextRequest := now + 1.0 / rate;
        grants := grants + [Grant(now, rate)];
        return Granted;
      }
      return Wait(Min(ready - now, 1.0));
    }

    /** A request ends. The jitter is the random part of the shared delay after throttling. */
    method Result(report: Report)
      requires Valid() && clock <= report.now && 0.0 <= report.jitter <= 1.0
      modifies this`rate, this`successes, this`cooldown, this`recoverAfter, this`lastChange, this`clock, this`cooldowns
      ensures Valid() && clock == report.now
      ensures State() == Reported(old(State()), report)
      // A rejected request slows down, once for each cooldown, and extends the cooldown.
      ensures report.outcome.Throttled? ==>
                && rate == (if report.now < old(cooldown) then old(rate) else if old(rate) <= 1.0 then 0.5 else old(rate) / 2.0)
                && successes == 0 && lastChange == report.now && recoverAfter == cooldown + 30.0
                && var least := report.now + report.jitter + if 10.0 / rate >= 30.0 then 30.0 else 10.0 / rate;
                   var asked := report.outcome.retryAfter;
                   && cooldown >= old(cooldown) && cooldown >= least && (asked.Some? ==> cooldown >= report.now + asked.value)
                   && (|| cooldown == old(cooldown) || cooldown == least || (asked.Some? && cooldown == report.now + asked.value))
      // Twenty successes in a row, ten seconds after any change and thirty after a cooldown, speed up.
      ensures report.outcome.Succeeded? ==>
                && cooldown == old(cooldown) && recoverAfter == old(recoverAfter)
                && if report.now >= old(recoverAfter) && report.now - old(lastChange) >= 10.0 && old(successes) >= 19 && old(rate) < 40.0
                   then successes == 0 && lastChange == report.now
                        && rate == (if old(rate) >= 32.0 then 40.0 else if old(rate) <= 4.0 then old(rate) + 1.0 else old(rate) * 1.25)
                   else successes == old(successes) + 1 && lastChange == old(lastChange) && rate == old(rate)
      ensures report.outcome.Failed? ==> State() == old(State()).(successes := 0)
      ensures cooldowns == old(cooldowns) + if report.outcome.Throttled? then [Cooldown(|grants|, cooldown)] else []
    {
      hide Granting, Delay;
      LaterFits(grants, cooldowns, deadline, nextRequest, cooldown, clock, report.now);
      clock := report.now;
      successes := if report.outcome.Succeeded? then successes + 1 else 0;
      if report.outcome.Throttled? {
        // A simultaneous burst of rejected requests is one reduction.
        if report.now >= cooldown {
          rate := Max(SLOWEST, rate / 2.0);
        }
        CooldownFits(grants, cooldowns, deadline, nextRequest, cooldown, clock, Max(cooldown, report.now + Delay(rate, report)));
        DelayMeans(rate, report);
        cooldown := Max(cooldown, report.now + Delay(rate, report));
        recoverAfter := cooldown + 30.0;
        lastChange := report.now;
        cooldowns := cooldowns + [Cooldown(|grants|, cooldown)];
      } else if report.outcome.Succeeded? && report.now >= recoverAfter && report.now - lastChange >= 10.0
                && successes >= 20 && rate < FASTEST {
        rate := Min(FASTEST, Max(rate + 1.0, rate * 1.25));
        lastChange := report.now;
        successes := 0;
      }
    }
  }
}
