/** The circuit breaker of pkg/resilience/circuit_breaker.go: a value model of its
    guarded fields, the mutable object whose methods update them, and what the
    state means in terms of the log of calls made so far.
    Instants and durations are integer nanoseconds. */
module CircuitBreakers {
  import Sets

  datatype State = Closed | HalfOpen | Open

  /** One invocation of the state-change callback. */
  datatype Transition = Transition(from: State, to: State)

  datatype Config = Config(threshold: int, cooldown: int) {
    // A threshold of zero or less trips on the first failure, exactly as 1 does.
    function Limit(): nat {
      if threshold < 1 then 1 else threshold
    }
  }

  datatype Breaker = Breaker(state: State, failures: nat, lastFailure: int, notified: seq<Transition>) {

    function MoveTo(to: State): Breaker {
      this.(state := to, notified := notified + [Transition(state, to)])
    }

    function Admits(cfg: Config, now: int): bool {
      state != Open || now - lastFailure > cfg.cooldown
    }

    function Asked(cfg: Config, now: int): Breaker {
      if state == Open && now - lastFailure > cfg.cooldown then MoveTo(HalfOpen) else this
    }

    function Succeeded(): Breaker {
      if state == HalfOpen || state == Open then MoveTo(Closed).(failures := 0) else this.(failures := 0)
    }

    function Failed(cfg: Config, now: int): Breaker {
      var b := this.(failures := failures + 1, lastFailure := now);
      if (state == HalfOpen || b.failures >= cfg.threshold) && state != Open then b.MoveTo(Open) else b
    }
  }

  const FRESH := Breaker(Closed, 0, 0, [])

  // ---------------------------------------------------------------- the log

  /** A call made on the breaker, at the instant its lock was held. */
  datatype Event = Ask(now: int) | Success | Failure(now: int)

  function Apply(cfg: Config, b: Breaker, e: Event): Breaker {
    match e
    case Ask(now) => b.Asked(cfg, now)
    case Success => b.Succeeded()
    case Failure(now) => b.Failed(cfg, now)
  }

  /** The breaker after the calls of `log`, from any number of goroutines, in lock order. */
  function Replay(cfg: Config, log: seq<Event>): Breaker {
    if log == [] then FRESH else Apply(cfg, Replay(cfg, log[..|log| - 1]), log[|log| - 1])
  }

  /** The number of failures recorded since the last success. */
  function TrailingFailures(log: seq<Event>): nat {
    if log == [] then 0 else
    match log[|log| - 1]
    case Ask(_) => TrailingFailures(log[..|log| - 1])
    case Success => 0
    case Failure(_) => TrailingFailures(log[..|log| - 1]) + 1
  }

  /** The instant of the last recorded failure. */
  function LastFailure(log: seq<Event>): int {
    if log == [] then 0
    else if log[|log| - 1].Failure? then log[|log| - 1].now
    else LastFailure(log[..|log| - 1])
  }

  /** The answer a request made after `log` must get, read off the log alone. */
  ghost predicate Grants(cfg: Config, log: seq<Event>, now: int)
    decreases |log|, 1
  {
    || TrailingFailures(log) < cfg.Limit()
    || GrantedSinceRecord(cfg, log)
    || now - LastFailure(log) > cfg.cooldown
  }

  /** Some request has been let through since the last recorded outcome. */
  ghost predicate GrantedSinceRecord(cfg: Config, log: seq<Event>)
    decreases |log|, 0
  {
    log != [] && log[|log| - 1].Ask? &&
    var before := log[..|log| - 1];
    Grants(cfg, before, log[|log| - 1].now) || GrantedSinceRecord(cfg, before)
  }

  /** The state as a function of the log. */
  ghost function StateOf(cfg: Config, log: seq<Event>): State {
    if TrailingFailures(log) < cfg.Limit() then Closed
    else if GrantedSinceRecord(cfg, log) then HalfOpen
    else Open
  }

  /** The fields and every answer are determined by the log: `failures` is the trailing
      run of failures, Closed means that run is below the threshold, and HalfOpen means it
      is not and some request was let through since the last recorded outcome. */
  lemma {:induction false} BreakerIsItsLog(cfg: Config, log: seq<Event>)
    ensures Replay(cfg, log).failures == TrailingFailures(log)
    ensures Replay(cfg, log).lastFailure == LastFailure(log)
    ensures Replay(cfg, log).state == StateOf(cfg, log)
    ensures forall now :: Replay(cfg, log).Admits(cfg, now) <==> Grants(cfg, log, now)
  {
    if log != [] {
      var before, e := log[..|log| - 1], log[|log| - 1];
      BreakerIsItsLog(cfg, before);
      match e
      case Ask(now) =>
        assert GrantedSinceRecord(cfg, log) <==> Grants(cfg, before, now) || GrantedSinceRecord(cfg, before);
      case Success =>
      case Failure(_) =>
        assert !GrantedSinceRecord(cfg, log);
    }
  }

  /** The first half of the trip test never decides: a HalfOpen breaker has already
      reached its threshold, so counting alone would trip it. */
  lemma HalfOpenTestIsRedundant(cfg: Config, log: seq<Event>, now: int)
    ensures var b := Replay(cfg, log);
            b.state == HalfOpen ==> b.failures + 1 >= cfg.threshold
    ensures Replay(cfg, log).Failed(cfg, now).state == Closed <==> TrailingFailures(log) + 1 < cfg.Limit()
  {
    BreakerIsItsLog(cfg, log);
  }

  // ------------------------------------------------- the callback sequence

  ghost predicate Edge(t: Transition) {
    t in {Transition(Closed, Open), Transition(Open, HalfOpen), Transition(Open, Closed),
          Transition(HalfOpen, Open), Transition(HalfOpen, Closed)}
  }

  /** Callback `i` leaves the state that the one before it entered. */
  ghost predicate Continues(ts: seq<Transition>, i: nat)
    requires i < |ts|
  {
    ts[i].from == if i == 0 then Closed else ts[i - 1].to
  }

  /** The callbacks trace a walk along the five edges from Closed to the current state. */
  ghost predicate Walk(ts: seq<Transition>, end: State) {
    && (forall i :: 0 <= i < |ts| ==> Edge(ts[i]))
    && (forall i :: 0 <= i < |ts| ==> Continues(ts, i))
    && end == if ts == [] then Closed else ts[|ts| - 1].to
  }

  lemma {:induction false} CallbacksFormAWalk(cfg: Config, log: seq<Event>)
    ensures Walk(Replay(cfg, log).notified, Replay(cfg, log).state)
  {
    if log != [] {
      var b := Replay(cfg, log[..|log| - 1]);
      CallbacksFormAWalk(cfg, log[..|log| - 1]);
      var b' := Replay(cfg, log);
      assert b'.notified == b.notified || b'.notified == b.notified + [Transition(b.state, b'.state)];
      forall i | 0 <= i < |b'.notified| ensures Continues(b'.notified, i) {
        assert i < |b.notified| ==> Continues(b.notified, i);
      }
    }
  }

  /** Every entry to HalfOpen directly follows an entry to Open, and no callback repeats a state. */
  lemma ProbesFollowTrips(cfg: Config, log: seq<Event>, i: nat)
    requires i < |Replay(cfg, log).notified|
    ensures var ts := Replay(cfg, log).notified;
            && ts[i].from != ts[i].to
            && (ts[i].to == HalfOpen ==> i > 0 && ts[i - 1].to == Open)
  {
    CallbacksFormAWalk(cfg, log);
    var ts := Replay(cfg, log).notified;
    assert Edge(ts[i]);
    assert Continues(ts, i);
  }

  // ------------------------------------------------------------ half-open probes

  function Asks(instants: seq<int>): seq<Event> {
    seq(|instants|, i requires 0 <= i < |instants| => Ask(instants[i]))
  }

  /** The first of the requests made more than a cooldown after the last failure of `log`. */
  function FirstCool(cfg: Config, log: seq<Event>, instants: seq<int>): (n: nat)
    ensures n <= |instants|
    ensures n < |instants| ==> instants[n] - LastFailure(log) > cfg.cooldown
    ensures forall k :: 0 <= k < n ==> instants[k] - LastFailure(log) <= cfg.cooldown
  {
    if instants == [] then 0 else
    var n, last := FirstCool(cfg, log, instants[..|instants| - 1]), |instants| - 1;
    if n < last || instants[last] - LastFailure(log) > cfg.cooldown then n else |instants|
  }

  /** Requests leave the failures recorded so far alone. */
  lemma {:induction false} AsksRecordNothing(log: seq<Event>, instants: seq<int>)
    ensures TrailingFailures(log + Asks(instants)) == TrailingFailures(log)
    ensures LastFailure(log + Asks(instants)) == LastFailure(log)
  {
    if instants == [] {
      assert log + Asks(instants) == log;
    } else {
      var before := instants[..|instants| - 1];
      AsksRecordNothing(log, before);
      assert (log + Asks(instants))[..|log| + |before|] == log + Asks(before);
    }
  }

  /** A tripped breaker that records no further outcome lets the first cool request through
      and every one after it, whether cool or not, and none before. */
  lemma {:induction false} ProbesFromTheFirstOn(cfg: Config, log: seq<Event>, instants: seq<int>, now: int)
    requires log != [] && !log[|log| - 1].Ask? && TrailingFailures(log) >= cfg.Limit()
    ensures GrantedSinceRecord(cfg, log + Asks(instants)) <==> FirstCool(cfg, log, instants) < |instants|
    ensures Grants(cfg, log + Asks(instants), now)
       <==> FirstCool(cfg, log, instants) < |instants| || now - LastFailure(log) > cfg.cooldown
  {
    AsksRecordNothing(log, instants);
    if instants == [] {
      assert log + Asks(instants) == log;
    } else {
      var before, last := instants[..|instants| - 1], instants[|instants| - 1];
      ProbesFromTheFirstOn(cfg, log, before, last);
      assert (log + Asks(instants))[..|log| + |before|] == log + Asks(before);
      assert (log + Asks(instants))[|log| + |before|] == Ask(last);
    }
  }

  /** The requests, of those made since the last record, that the breaker has let through. */
  ghost function LetThrough(cfg: Config, log: seq<Event>, instants: seq<int>): set<nat> {
    set n: nat | n < |instants| && Replay(cfg, log + Asks(instants[..n])).Admits(cfg, instants[n])
  }

  lemma {:induction false} FirstCoolOfPrefix(cfg: Config, log: seq<Event>, instants: seq<int>, n: nat)
    requires n <= |instants|
    ensures FirstCool(cfg, log, instants[..n]) < n <==> FirstCool(cfg, log, instants) < n
  {
    var whole, part := FirstCool(cfg, log, instants), FirstCool(cfg, log, instants[..n]);
    if whole < n {
      assert instants[..n][whole] == instants[whole];
    }
    if part < n {
      assert instants[..n][part] == instants[part];
    }
  }

  lemma LetThroughFromTheFirstOn(cfg: Config, log: seq<Event>, instants: seq<int>, n: nat)
    requires log != [] && !log[|log| - 1].Ask? && TrailingFailures(log) >= cfg.Limit() && n < |instants|
    ensures Replay(cfg, log + Asks(instants[..n])).Admits(cfg, instants[n]) <==> FirstCool(cfg, log, instants) <= n
  {
    hide TrailingFailures, LastFailure, Grants, GrantedSinceRecord, FirstCool, Replay, Asks;
    BreakerIsItsLog(cfg, log + Asks(instants[..n]));
    ProbesFromTheFirstOn(cfg, log, instants[..n], instants[n]);
    FirstCoolOfPrefix(cfg, log, instants, n);
  }

  /** How many probes there are: of the requests since the last record, all from the first
      cool one on, so at most one exactly when no request follows that one. */
  lemma ProbeCount(cfg: Config, log: seq<Event>, instants: seq<int>)
    requires log != [] && !log[|log| - 1].Ask? && TrailingFailures(log) >= cfg.Limit()
    ensures var first, through := FirstCool(cfg, log, instants), LetThrough(cfg, log, instants);
            && (forall n: nat :: n in through <==> first <= n < |instants|)
            && |through| == |instants| - first
            && (|through| <= 1 <==> first + 1 >= |instants|)
  {
    hide TrailingFailures, LastFailure, FirstCool, Replay, Asks;
    var first, through := FirstCool(cfg, log, instants), LetThrough(cfg, log, instants);
    forall n: nat ensures n in through <==> first <= n < |instants| {
      if n < |instants| {
        LetThroughFromTheFirstOn(cfg, log, instants, n);
      }
    }
    hide LetThrough;
    Sets.Interval(first, |instants|, through);
  }

  /** The smallest case of a second probe: two requests are let through while HalfOpen. */
  lemma TwoProbesAdmitted()
    ensures var cfg := Config(1, 5);
            var log := [Failure(0), Ask(6)];
            && Replay(cfg, [Failure(0)]).Admits(cfg, 6)
            && Replay(cfg, log).state == HalfOpen
            && Replay(cfg, log).Admits(cfg, 6)
  {
    var cfg := Config(1, 5);
    var log := [Failure(0), Ask(6)];
    assert log[..1] == [Failure(0)] && [Failure(0)][..0] == [];
    BreakerIsItsLog(cfg, [Failure(0)]);
    assert Replay(cfg, log) == Apply(cfg, Replay(cfg, log[..1]), Ask(6));
  }

  // ------------------------------------------------------------ the object

  class CircuitBreaker {
    var state: State
    var failures: nat
    var lastFailure: int
    const config: Config
    var notified: seq<Transition>    // the callback's invocations so far
    ghost var log: seq<Event>

    ghost function Model(): Breaker
      reads this
    {
      Breaker(state, failures, lastFailure, notified)
    }

    ghost predicate Valid()
      reads this
    {
      Model() == Replay(config, log)
    }

    constructor (threshold: int, cooldown: int)
      ensures Valid() && Model() == FRESH && log == []
      ensures config == Config(threshold, cooldown)
    {
      state, failures, lastFailure := Closed, 0, 0;
      config := Config(threshold, cooldown);
      notified, log := [], [];
    }

    method Allow(now: int) returns (granted: bool)
      requires Valid()
      modifies this
      ensures Valid() && log == old(log) + [Ask(now)]
      ensures Model() == old(Model()).Asked(config, now)
      ensures granted == old(Model()).Admits(config, now) == Grants(config, old(log), now)
    {
      BreakerIsItsLog(config, log);
      log := log + [Ask(now)];
      assert log[..|log| - 1] == old(log);
      if state == Open {
        if now - lastFailure > config.cooldown {
          var before := state;
          state := HalfOpen;
          notified := notified + [Transition(before, state)];
          return true;
        }
        return false;
      }
      return true;
    }

    method RecordSuccess()
      requires Valid()
      modifies this
      ensures Valid() && log == old(log) + [Success]
      ensures Model() == old(Model()).Succeeded()
    {
      log := log + [Success];
      assert log[..|log| - 1] == old(log);
      if state == HalfOpen || state == Open {
        var before := state;
        state := Closed;
        failures := 0;
        notified := notified + [Transition(before, state)];
      } else {
        failures := 0;
      }
    }

    method RecordFailure(now: int)
      requires Valid()
      modifies this
      ensures Valid() && log == old(log) + [Failure(now)]
      ensures Model() == old(Model()).Failed(config, now)
    {
      log := log + [Failure(now)];
      assert log[..|log| - 1] == old(log);
      failures := failures + 1;
      lastFailure := now;
      if state == HalfOpen || failures >= config.threshold {
        if state != Open {
          var before := state;
          state := Open;
          notified := notified + [Transition(before, state)];
        }
      }
    }
  }
}
