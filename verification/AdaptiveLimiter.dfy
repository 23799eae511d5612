/** A concurrency limit that follows observed latency and backpressure, serving requests in arrival order.

    Each method is one critical section of the shared condition; any interleaving of callers is a sequence
    of such calls. Clock readings are arguments and never go back. */
module AdaptiveLimiter {
  import opened Common

  type Ticket = nat
  type Endpoint = string

  datatype Outcome = Succeeded | Failed(status: Option<int>, timeout: bool)

  /** An optional bulk endpoint's read timeout says nothing about the manager. */
  predicate OptionalTimeout(endpoint: Endpoint, outcome: Outcome) {
    endpoint == "policy_statistics" && outcome.Failed? && outcome.timeout
  }

  predicate Overloaded(endpoint: Endpoint, outcome: Outcome) {
    && outcome.Failed?
    && !OptionalTimeout(endpoint, outcome)
    && outcome.status in {None, Some(429), Some(502), Some(503), Some(504)}
  }

  /** Like requests are compared with like: one state per endpoint. */
  datatype Latency = Latency(samples: nat, baseline: real, slowStreak: nat)

  predicate Slow(latency: Latency, elapsed: real) {
    latency.samples >= 4 && elapsed > Max(latency.baseline * 2.0, latency.baseline + 2.0)
  }

  function Measured(latency: Latency, elapsed: real, outcome: Outcome): Latency {
    if outcome.Failed? then latency.(slowStreak := 0)
    else if Slow(latency, elapsed) then latency.(samples := latency.samples + 1, slowStreak := latency.slowStreak + 1)
    else Latency(latency.samples + 1, latency.baseline * 0.8 + elapsed * 0.2, 0)
  }

  /** The limit went up, or overload was handled, at a clock reading. */
  datatype Change = Raised(at: real) | Reduced(at: real)

  datatype Admission = Admitted | TimedOut | Waiting

  /** Some observed durations enclose the baseline. */
  predicate Enclosed(baseline: real, durations: seq<real>) {
    exists i, j :: 0 <= i < |durations| && 0 <= j < |durations| && durations[i] <= baseline <= durations[j]
  }

  predicate InArrivalOrder(tickets: seq<Ticket>) {
    forall i, j :: 0 <= i < j < |tickets| ==> tickets[i] < tickets[j]
  }

  /** The arrivals so far, in order, without those that gave up. */
  ghost predicate OrderedArrivals(queue: seq<Ticket>, expired: set<Ticket>, arrived: nat) {
    && InArrivalOrder(queue)
    && (forall t | t in expired :: t < arrived)
    && forall t: Ticket :: t in queue <==> t < arrived && t !in expired
  }

  /** No increase within 30 seconds after a decrease. */
  ghost predicate Rested(changes: seq<Change>, lastDecrease: Option<real>, clock: real) {
    && (forall i :: 0 <= i < |changes| ==> changes[i].at <= clock)
    && (forall i :: 0 <= i < |changes| && changes[i].Reduced? ==>
          lastDecrease.Some? && changes[i].at <= lastDecrease.value)
    && (lastDecrease.Some? ==> lastDecrease.value <= clock)
    && forall i, j :: 0 <= i < j < |changes| && changes[i].Reduced? && changes[j].Raised? ==>
         changes[j].at - changes[i].at >= 30.0
  }

  lemma LaterRests(changes: seq<Change>, lastDecrease: Option<real>, clock: real, now: real)
    requires Rested(changes, lastDecrease, clock) && clock <= now
    ensures Rested(changes, lastDecrease, now) && (lastDecrease.Some? ==> lastDecrease.value <= clock)
  {
  }

  lemma ReductionRests(changes: seq<Change>, lastDecrease: Option<real>, clock: real)
    requires Rested(changes, lastDecrease, clock)
    ensures Rested(changes + [Reduced(clock)], Some(clock), clock)
  {
  }

  lemma RaiseRests(changes: seq<Change>, lastDecrease: Option<real>, clock: real, at: real)
    requires Rested(changes, lastDecrease, clock) && at <= clock
    requires lastDecrease.Some? ==> at - lastDecrease.value >= 30.0
    ensures Rested(changes + [Raised(at)], lastDecrease, clock)
  {
  }

  class AdaptiveRequests {
    const maximum: int
    var limit: int
    var peak: int
    var active: int
    var successes: nat
    var contended: bool
    var lastDecrease: Option<real>
    var increases: nat
    var reductions: nat
    var latencies: map<Endpoint, Latency>
    var waiters: seq<Ticket>
    var arrived: nat  // tickets are new objects; only their order of creation matters

    // The history of the limiter.
    ghost var admitted: seq<Ticket>
    ghost var expired: set<Ticket>
    ghost var succeeded: nat
    ghost var changes: seq<Change>
    ghost var durations: map<Endpoint, seq<real>>
    ghost var clock: real

    ghost predicate Bounded()
      reads this`limit, this`peak, this`active, this`increases, this`successes, this`succeeded
    {
      && 1 <= limit <= peak <= maximum
      && 0 <= active <= peak
      && 8 * increases + successes <= succeeded
    }

    /** Everybody admitted so far, and then everybody waiting, are the arrivals in order without those that
        gave up. */
    ghost predicate Fifo()
      reads this`waiters, this`admitted, this`expired, this`arrived
    {
      OrderedArrivals(admitted + waiters, expired, arrived)
    }

    ghost predicate Settled()
      reads this`changes, this`lastDecrease, this`clock
    {
      Rested(changes, lastDecrease, clock)
    }

    ghost predicate Measurable()
      reads this`latencies, this`durations
    {
      && latencies.Keys == durations.Keys
      && forall e | e in latencies :: Enclosed(latencies[e].baseline, durations[e])
    }

    ghost predicate Valid()
      reads this
    {
      Bounded() && Fifo() && Settled() && Measurable()
    }

    constructor (maximum: int, start: real)
      requires 1 <= maximum <= 32
      ensures Valid() && this.maximum == maximum && active == 0 && waiters == []
      ensures limit == if maximum < 2 then maximum else 2
    {
      this.maximum := maximum;
      limit := if maximum < 2 then maximum else 2;
      peak := if maximum < 2 then maximum else 2;
      active, successes, contended, lastDecrease := 0, 0, false, None;
      increases, reductions := 0, 0;
      latencies, waiters := map[], [];
      arrived, admitted, expired, succeeded := 0, [], {}, 0;
      changes, durations, clock := [], map[], start;
    }

    /** A request queues up. */
    method Arrive() returns (ticket: Ticket)
      requires Valid()
      modifies this`waiters, this`arrived
      ensures Valid() && ticket == old(arrived) && waiters == old(waiters) + [ticket] && arrived == old(arrived) + 1
    {
      ghost var before := admitted + waiters;
      ticket := arrived;
      waiters := waiters + [ticket];
      arrived := arrived + 1;
      assert admitted + waiters == before + [ticket];
      ArrivalsGrow(before, expired, ticket);
    }

    /** One turn of the waiting loop: the head of the queue goes in when there is room, and a request whose
        deadline has passed leaves the queue. */
    method TryAdmit(ticket: Ticket, now: real, deadline: Option<real>) returns (admission: Admission)
      requires Valid() && ticket in waiters && clock <= now
      modifies this`waiters, this`active, this`contended, this`admitted, this`expired, this`clock
      ensures Valid() && clock == now
      ensures admission == TimedOut <==> deadline.Some? && now >= deadline.value
      ensures admission == Admitted <==>
                admission != TimedOut && old(waiters)[0] == ticket && old(active) < limit
      ensures active == old(active) + if admission == Admitted then 1 else 0
      ensures admitted == old(admitted) + if admission == Admitted then [ticket] else []
      ensures expired == old(expired) + if admission == TimedOut then {ticket} else {}
      ensures admission == Waiting ==> contended && waiters == old(waiters)
      ensures admission != Waiting ==> contended == old(contended)
    {
      clock := now;
      if deadline.Some? && now >= deadline.value {
        Leave(ticket);
        return TimedOut;
      }
      if waiters[0] == ticket && active < limit {
        waiters := waiters[1..];
        active := active + 1;
        admitted := admitted + [ticket];
        assert admitted + waiters == old(admitted + waiters);
        return Admitted;
      }
      contended := true;
      return Waiting;
    }

    method Leave(ticket: Ticket)
      requires Fifo() && ticket in waiters
      modifies this`waiters, this`expired
      ensures Fifo() && expired == old(expired) + {ticket}
    {
      var i: nat :| i < |waiters| && waiters[i] == ticket;
      ghost var before := admitted + waiters;
      ghost var k := |admitted| + i;
      waiters := waiters[..i] + waiters[i + 1..];
      expired := expired + {ticket};
      assert admitted + waiters == before[..k] + before[k + 1..];
      OneGivesUp(before, old(expired), arrived, k);
    }

    /** A request ends. Clock readings: when it was measured, when the reaction was decided and recorded. */
    method Release(started: real, measured: real, checked: real, recorded: real, outcome: Outcome, endpoint: Endpoint)
      requires Valid() && active > 0 && clock <= checked <= recorded
      modifies this`active, this`latencies, this`durations, this`succeeded, this`clock, this`limit, this`peak,
               this`successes, this`contended, this`lastDecrease, this`increases, this`reductions, this`changes
      ensures Valid() && clock == recorded && active == old(active) - 1
      ensures endpoint in latencies
      ensures latencies == old(latencies)[endpoint := Measured(
                if endpoint in old(latencies) then old(latencies)[endpoint] else Latency(0, measured - started, 0),
                measured - started, outcome)]
      ensures Reacts(old(limit), old(successes), old(contended), old(lastDecrease), old(changes),
                     latencies[endpoint].slowStreak, checked, recorded, outcome, endpoint)
    {
      hide Measured, Enclosed, Reacts, Fifo, Measurable, OrderedArrivals, Rested;
      active := active - 1;
      Measure(measured - started, outcome, endpoint);
      if outcome.Succeeded? {
        succeeded := succeeded + 1;
      }
      LaterRests(changes, lastDecrease, clock, recorded);
      clock := recorded;
      React(latencies[endpoint].slowStreak, checked, recorded, outcome, endpoint);
    }

    /** The new limit and counters, in terms of those before the request ended. */
    ghost predicate Reacts(limit: int, successes: nat, contended: bool, lastDecrease: Option<real>, changes: seq<Change>,
                           streak: nat, checked: real, recorded: real, outcome: Outcome, endpoint: Endpoint)
      reads this`limit, this`successes, this`contended, this`lastDecrease, this`changes
    {
      var rested := lastDecrease == None || checked - lastDecrease.value >= 30.0;
      var overload := Overloaded(endpoint, outcome) || (outcome.Succeeded? && streak >= 3 && rested);
      var success := !overload && outcome.Succeeded? && streak == 0;
      var raise := success && contended && successes + 1 >= limit * 4 && successes + 1 >= 8 && rested && limit < maximum;
      && this.limit == (if overload then (if limit / 2 < 1 then 1 else limit / 2)
                        else if raise then limit + 1 else limit)
      && this.successes == (if overload || raise then 0
                            else if success then successes + 1
                            else if OptionalTimeout(endpoint, outcome) then successes else 0)
      && this.lastDecrease == (if overload then Some(recorded) else lastDecrease)
      && this.contended == (contended && !overload && !raise)
      && this.changes == changes + (if overload then [Reduced(recorded)] else if raise then [Raised(checked)] else [])
    }

    method React(streak: nat, checked: real, recorded: real, outcome: Outcome, endpoint: Endpoint)
      requires 1 <= limit <= peak <= maximum && Settled() && clock == recorded && checked <= recorded
      requires 8 * increases + successes + (if outcome.Succeeded? then 1 else 0) <= succeeded
      requires lastDecrease.Some? ==> lastDecrease.value <= checked
      modifies this`limit, this`peak, this`successes, this`contended, this`lastDecrease, this`increases, this`reductions,
               this`changes
      ensures 1 <= limit <= peak <= maximum && old(peak) <= peak && Settled()
      ensures 8 * increases + successes <= succeeded
      ensures Reacts(old(limit), old(successes), old(contended), old(lastDecrease), old(changes),
                     streak, checked, recorded, outcome, endpoint)
      // Backpressure, or a third slow success in a row after a rest, halves the limit; enough quick successes while
      // others wait raise it by one.
      ensures var rested := old(lastDecrease) == None || checked - old(lastDecrease).value >= 30.0;
              var pressed := outcome.Failed? && outcome.status in {None, Some(429), Some(502), Some(503), Some(504)}
                             && !(endpoint == "policy_statistics" && outcome.timeout);
              if pressed || (outcome.Succeeded? && streak >= 3 && rested) then
                && limit == (if old(limit) == 1 then 1 else old(limit) / 2) && successes == 0 && !contended
                && lastDecrease == Some(recorded) && changes == old(changes) + [Reduced(recorded)]
              else if outcome.Succeeded? && streak == 0 && old(contended) && rested && old(limit) < maximum
                      && old(successes) + 1 >= 8 && old(successes) + 1 >= 4 * old(limit) then
                && limit == old(limit) + 1 && successes == 0 && !contended
                && lastDecrease == old(lastDecrease) && changes == old(changes) + [Raised(checked)]
              else
                && limit == old(limit) && contended == old(contended) && lastDecrease == old(lastDecrease)
                && changes == old(changes)
                && successes == (if outcome.Succeeded? && streak == 0 then old(successes) + 1
                                 else if outcome.Failed? && endpoint == "policy_statistics" && outcome.timeout then old(successes)
                                 else 0)
    {
      hide Rested;
      var rested := lastDecrease == None || checked - lastDecrease.value >= 30.0;
      if Overloaded(endpoint, outcome) || (outcome.Succeeded? && streak >= 3 && rested) {
        ReductionRests(changes, lastDecrease, clock);
        var reduced := if limit / 2 < 1 then 1 else limit / 2;
        reductions := reductions + if reduced < limit then 1 else 0;
        limit := reduced;
        successes := 0;
        contended := false;
        lastDecrease := Some(recorded);
        changes := changes + [Reduced(recorded)];
      } else if outcome.Succeeded? && streak == 0 {
        successes := successes + 1;
        var enough := if limit * 4 < 8 then 8 else limit * 4;
        if contended && successes >= enough && rested && limit < maximum {
          limit := limit + 1;
          peak := if peak < limit then limit else peak;
          increases := increases + 1;
          successes := 0;
          contended := false;
          RaiseRests(changes, lastDecrease, clock, checked);
          changes := changes + [Raised(checked)];
        }
      } else if !OptionalTimeout(endpoint, outcome) {
        successes := 0;
      }
    }

    method Measure(elapsed: real, outcome: Outcome, endpoint: Endpoint)
      requires Measurable()
      modifies this`latencies, this`durations
      ensures Measurable() && endpoint in latencies
      ensures latencies == old(latencies)[endpoint := Measured(
                if endpoint in old(latencies) then old(latencies)[endpoint] else Latency(0, elapsed, 0), elapsed, outcome)]
      // Durations of successful requests are compared with their average, until they stand out.
      ensures var was, now := if endpoint in old(latencies) then old(latencies)[endpoint] else Latency(0, elapsed, 0), latencies[endpoint];
              if outcome.Failed? then now == was.(slowStreak := 0)
              else if was.samples >= 4 && elapsed > 2.0 * was.baseline && elapsed > was.baseline + 2.0
              then now == Latency(was.samples + 1, was.baseline, was.slowStreak + 1)
              else now == Latency(was.samples + 1, 0.8 * was.baseline + 0.2 * elapsed, 0)
    {
      hide Measured, Enclosed;
      var before := if endpoint in latencies then latencies[endpoint] else Latency(0, elapsed, 0);
      ghost var seen := if endpoint in durations then durations[endpoint] else [];
      var after := Measured(before, elapsed, outcome);
      StaysEnclosed(before, seen, elapsed, outcome);
      MeasuredMeans(before, elapsed, outcome);
      latencies := latencies[endpoint := after];
      durations := durations[endpoint := seen + [elapsed]];
    }
  }

  lemma MeasuredMeans(was: Latency, elapsed: real, outcome: Outcome)
    ensures var now := Measured(was, elapsed, outcome);
            if outcome.Failed? then now == was.(slowStreak := 0)
            else if was.samples >= 4 && elapsed > 2.0 * was.baseline && elapsed > was.baseline + 2.0
            then now == Latency(was.samples + 1, was.baseline, was.slowStreak + 1)
            else now == Latency(was.samples + 1, 0.8 * was.baseline + 0.2 * elapsed, 0)
  {
  }

  lemma ArrivalsGrow(queue: seq<Ticket>, expired: set<Ticket>, arrived: nat)
    requires OrderedArrivals(queue, expired, arrived)
    ensures OrderedArrivals(queue + [arrived], expired, arrived + 1)
  {
    var longer := queue + [arrived];
    forall i | 0 <= i < |queue|
      ensures longer[i] < arrived
    {
      assert queue[i] in queue;
    }
    forall t: Ticket
      ensures t in longer <==> t in queue || t == arrived
    {
      assert longer[|queue|] == arrived;
    }
  }

  lemma OneGivesUp(queue: seq<Ticket>, expired: set<Ticket>, arrived: nat, k: nat)
    requires OrderedArrivals(queue, expired, arrived) && k < |queue|
    ensures OrderedArrivals(queue[..k] + queue[k + 1..], expired + {queue[k]}, arrived)
  {
    var before, after := queue[..k], queue[k + 1..];
    var rest := before + after;
    assert queue == before + [queue[k]] + after;
    assert queue[k] in queue;
    forall i | 0 <= i < |rest|
      ensures rest[i] == queue[if i < k then i else i + 1]
    {
    }
    forall t: Ticket
      ensures t in rest <==> t in queue && t != queue[k]
    {
      if t in queue && t != queue[k] {
        var i :| 0 <= i < |queue| && queue[i] == t;
        assert rest[if i < k then i else i - 1] == t;
      }
    }
  }

  /** Nobody overtakes: once a later arrival is in, an earlier one is in as well or has given up. */
  lemma NobodyOvertakes(requests: AdaptiveRequests, earlier: Ticket, later: Ticket)
    requires requests.Fifo() && earlier < later && later in requests.admitted
    ensures earlier in requests.admitted || earlier in requests.expired
  {
    var queue := requests.admitted + requests.waiters;
    if earlier !in requests.expired {
      var j :| 0 <= j < |requests.admitted| && requests.admitted[j] == later;
      assert queue[j] == later && later in queue;
      var i :| 0 <= i < |queue| && queue[i] == earlier;
    }
  }

  /** The baseline is an average: it never leaves the range of what was observed. */
  lemma StaysEnclosed(latency: Latency, durations: seq<real>, elapsed: real, outcome: Outcome)
    requires Enclosed(latency.baseline, durations) || (durations == [] && latency.baseline == elapsed)
    ensures Enclosed(Measured(latency, elapsed, outcome).baseline, durations + [elapsed])
  {
    var all := durations + [elapsed];
    var baseline := Measured(latency, elapsed, outcome).baseline;
    var n := |durations|;
    assert all[n] == elapsed;
    if durations == [] {
      assert all[n] <= baseline <= all[n];
    } else {
      var i, j :| 0 <= i < n && 0 <= j < n && durations[i] <= latency.baseline <= durations[j];
      assert all[i] == durations[i] && all[j] == durations[j];
      var low := if all[i] <= elapsed then i else n;
      var high := if all[j] >= elapsed then j else n;
      assert all[low] <= baseline <= all[high];
    }
  }
}
