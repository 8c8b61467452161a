/** The screening worker of pkg/domain/fraud/service.go as an object: each event is scored by
    the rules, saved, counted and published; the worker's loop does so in channel order. */
module FraudServices {
  import opened Events
  import opened FraudRules
  import opened FraudRuns
  import opened Screening
  import opened Broker
  import opened Repositories
  import opened Telemetry
  import Reasons

  /** What the clock shows to the limiter, to the geo rule and to the verdict of one event,
      and what the selects of its publication see. */
  datatype Moment = Moment(rateAt: int, geoAt: int, screenedAt: int, selects: nat -> Select)

  function Arrive(event: TrackingEvent, t: Moment): Arrival {
    Arrival(event, t.rateAt, t.geoAt)
  }

  // ------------------------------------------------------------ the worker's run

  /** What stays fixed while the worker runs without interruption. */
  datatype Setting = Setting(lower: string -> string, rules: seq<Rule>, cap: nat, closed: bool)

  /** What the worker changes: the rules' memory, the saves, the counters, the channels. */
  datatype Desk = Desk(memory: Memory, log: seq<EventOp>, meters: Meters, subs: seq<Channel<ScreenedEvent>>)

  function Metric(v: ScreenedEvent): string {
    if v.fraudulent then "fraudulent" else "legitimate"
  }

  function VerdictFrom(g: Setting, m: Memory, event: TrackingEvent, t: Moment): ScreenedEvent {
    Verdict(event, Fired(g.lower, g.rules, m, Arrive(event, t)), t.screenedAt)
  }

  function AfterScreening(g: Setting, d: Desk, event: TrackingEvent, t: Moment): Desk {
    var v := VerdictFrom(g, d.memory, event, t);
    Desk(AfterRules(g.rules, d.memory, Arrive(event, t)), d.log + [Saved(v)], Bumped(d.meters, Metric(v), 1),
         if g.closed then d.subs else Published(d.subs, g.cap, v, t.selects))
  }

  /** The first `n` events, one after the other. */
  ghost function AfterWork(g: Setting, d: Desk, events: seq<TrackingEvent>, env: nat -> Moment, n: nat): Desk
    requires n <= |events|
  {
    if n == 0 then d else AfterScreening(g, AfterWork(g, d, events, env, n - 1), events[n - 1], env(n - 1))
  }

  // ----------------------------------------------------- what a run leaves behind

  /** The verdict on event `i` of a run. */
  ghost function VerdictAt(g: Setting, d: Desk, events: seq<TrackingEvent>, env: nat -> Moment, i: nat): ScreenedEvent
    requires i < |events|
  {
    VerdictFrom(g, AfterWork(g, d, events, env, i).memory, events[i], env(i))
  }

  ghost function Saves(g: Setting, d: Desk, events: seq<TrackingEvent>, env: nat -> Moment, n: nat): seq<EventOp>
    requires n <= |events|
  {
    seq(n, i requires 0 <= i < n => Saved(VerdictAt(g, d, events, env, i)))
  }

  /** The events among the first `n` with the given flag. */
  ghost function Flagged(g: Setting, d: Desk, events: seq<TrackingEvent>, env: nat -> Moment, n: nat,
                         fraudulent: bool): set<nat>
    requires n <= |events|
  {
    set i: nat | i < n && VerdictAt(g, d, events, env, i).fraudulent == fraudulent
  }

  /** Every event taken is saved once, in the order taken, and in exactly one verdict counter,
      the one its flag names; no other counter moves, and a closed broker hands nothing on. */
  lemma {:induction false} WorkSavesAndCounts(g: Setting, d: Desk, events: seq<TrackingEvent>, env: nat -> Moment,
                                              n: nat)
    requires n <= |events|
    ensures var d' := AfterWork(g, d, events, env, n);
            && d'.log == d.log + Saves(g, d, events, env, n)
            && d'.meters == d.meters.(legitimate := d.meters.legitimate + |Flagged(g, d, events, env, n, false)|,
                                      fraudulent := d.meters.fraudulent + |Flagged(g, d, events, env, n, true)|)
            && |Flagged(g, d, events, env, n, false)| + |Flagged(g, d, events, env, n, true)| == n
            && (g.closed ==> d'.subs == d.subs)
  {
    hide VerdictFrom, AfterRules, Published, Bumped, Metric, Flagged;
    if n > 0 {
      WorkSavesAndCounts(g, d, events, env, n - 1);
      var v := VerdictAt(g, d, events, env, n - 1);
      FlaggedNext(g, d, events, env, n, v.fraudulent);
      OneCounter(AfterWork(g, d, events, env, n - 1).meters, v);
      assert Saves(g, d, events, env, n) == Saves(g, d, events, env, n - 1) + [Saved(v)];
    } else {
      NoneFlagged(g, d, events, env);
    }
  }

  lemma OneCounter(m: Meters, v: ScreenedEvent)
    ensures Bumped(m, Metric(v), 1) ==
              if v.fraudulent then m.(fraudulent := m.fraudulent + 1) else m.(legitimate := m.legitimate + 1)
  {
  }

  lemma NoneFlagged(g: Setting, d: Desk, events: seq<TrackingEvent>, env: nat -> Moment)
    ensures Flagged(g, d, events, env, 0, false) == {} && Flagged(g, d, events, env, 0, true) == {}
  {
  }

  lemma FlaggedNext(g: Setting, d: Desk, events: seq<TrackingEvent>, env: nat -> Moment, n: nat, flag: bool)
    requires 0 < n <= |events| && flag == VerdictAt(g, d, events, env, n - 1).fraudulent
    ensures |Flagged(g, d, events, env, n, flag)| == |Flagged(g, d, events, env, n - 1, flag)| + 1
    ensures |Flagged(g, d, events, env, n, !flag)| == |Flagged(g, d, events, env, n - 1, !flag)|
  {
    hide VerdictAt;
    var before := Flagged(g, d, events, env, n - 1, flag);
    assert Flagged(g, d, events, env, n, flag) == before + {n - 1};
    assert Flagged(g, d, events, env, n, !flag) == Flagged(g, d, events, env, n - 1, !flag);
  }

  // ----------------------------------------------------------- what goes downstream

  /** The publication of verdict `i` gets as far as subscriber `k`: no select up to there takes
      ctx.Done. */
  ghost predicate Reaches(g: Setting, d: Desk, events: seq<TrackingEvent>, env: nat -> Moment, i: nat, k: nat)
    requires i < |events|
  {
    var subs, selects := AfterWork(g, d, events, env, i).subs, env(i).selects;
    k < |subs| && forall m: nat :: m <= k ==> !Stops(subs[m], g.cap, selects(m))
  }

  /** The verdicts among the first `n` that subscriber `k` has got: those that reach it while
      its channel has room. */
  ghost function Landed(g: Setting, d: Desk, events: seq<TrackingEvent>, env: nat -> Moment, n: nat, k: nat): seq<nat>
    requires n <= |events|
  {
    if n == 0 then [] else
    var subs := AfterWork(g, d, events, env, n - 1).subs;
    Landed(g, d, events, env, n - 1, k)
    + if Reaches(g, d, events, env, n - 1, k) && |subs[k].queue| < g.cap then [n - 1] else []
  }

  ghost function VerdictsAt(g: Setting, d: Desk, events: seq<TrackingEvent>, env: nat -> Moment, at: seq<nat>)
    : seq<ScreenedEvent>
    requires forall x :: 0 <= x < |at| ==> at[x] < |events|
  {
    seq(|at|, x requires 0 <= x < |at| => VerdictAt(g, d, events, env, at[x]))
  }

  /** One publication on an open broker, subscriber by subscriber. */
  lemma OnePublication(subs: seq<Channel<ScreenedEvent>>, cap: nat, v: ScreenedEvent, selects: nat -> Select, k: nat)
    requires k < |subs|
    ensures var subs' := Published(subs, cap, v, selects);
            && |subs'| == |subs| && subs'[k].closed == subs[k].closed
            && subs'[k].queue == subs[k].queue
               + if (forall m: nat :: m <= k ==> !Stops(subs[m], cap, selects(m))) && |subs[k].queue| < cap
                 then [v] else []
  {
    PublishedIsFannedOut(subs, cap, v, selects);
    assert subs[k].queue + [] == subs[k].queue;
  }

  lemma {:induction false} LandedAreEarlier(g: Setting, d: Desk, events: seq<TrackingEvent>, env: nat -> Moment,
                                            n: nat, k: nat)
    requires n <= |events|
    ensures forall x :: 0 <= x < |Landed(g, d, events, env, n, k)| ==> Landed(g, d, events, env, n, k)[x] < n
    ensures |Landed(g, d, events, env, n, k)| <= n
    decreases n
  {
    hide Reaches, AfterWork;
    if n > 0 {
      LandedAreEarlier(g, d, events, env, n - 1, k);
    }
  }

  /** Verdict `i` goes to subscriber `k` exactly when it reaches it and there is room. */
  lemma OneVerdictGoesDownstream(g: Setting, d: Desk, events: seq<TrackingEvent>, env: nat -> Moment, i: nat, k: nat)
    requires i < |events| && !g.closed && k < |AfterWork(g, d, events, env, i).subs|
    ensures var subs, subs' := AfterWork(g, d, events, env, i).subs, AfterWork(g, d, events, env, i + 1).subs;
            && |subs'| == |subs| && subs'[k].closed == subs[k].closed
            && subs'[k].queue == subs[k].queue
               + if Reaches(g, d, events, env, i, k) && |subs[k].queue| < g.cap
                 then [VerdictAt(g, d, events, env, i)] else []
  {
    hide Published, VerdictFrom, AfterRules, Bumped, Metric;
    var before := AfterWork(g, d, events, env, i);
    OnePublication(before.subs, g.cap, VerdictFrom(g, before.memory, events[i], env(i)), env(i).selects, k);
  }

  lemma NoWork(g: Setting, d: Desk, events: seq<TrackingEvent>, env: nat -> Moment)
    ensures AfterWork(g, d, events, env, 0) == d
    ensures VerdictsAt(g, d, events, env, []) == [] && FirstVerdicts(g, d, events, env, 0) == []
  {
  }

  lemma OneMoreAt(g: Setting, d: Desk, events: seq<TrackingEvent>, env: nat -> Moment, at: seq<nat>, i: nat)
    requires i < |events| && forall x :: 0 <= x < |at| ==> at[x] < |events|
    ensures VerdictsAt(g, d, events, env, at + [i])
              == VerdictsAt(g, d, events, env, at) + [VerdictAt(g, d, events, env, i)]
    ensures at + [] == at
  {
    hide VerdictAt;
  }

  lemma OneMoreFirst(g: Setting, d: Desk, events: seq<TrackingEvent>, env: nat -> Moment, n: nat)
    requires 0 < n <= |events|
    ensures FirstVerdicts(g, d, events, env, n)
              == FirstVerdicts(g, d, events, env, n - 1) + [VerdictAt(g, d, events, env, n - 1)]
  {
    hide VerdictAt;
  }

  /** What subscriber `k` of an open broker holds after any number of events: what it held, and
      then, in order, every verdict that reached it while there was room. */
  lemma {:induction false} VerdictsGoDownstream(g: Setting, d: Desk, events: seq<TrackingEvent>, env: nat -> Moment,
                                                n: nat, k: nat)
    requires n <= |events| && !g.closed && k < |d.subs|
    ensures forall x :: 0 <= x < |Landed(g, d, events, env, n, k)| ==> Landed(g, d, events, env, n, k)[x] < |events|
    ensures var subs := AfterWork(g, d, events, env, n).subs;
            && |subs| == |d.subs| && subs[k].closed == d.subs[k].closed
            && subs[k].queue == d.subs[k].queue + VerdictsAt(g, d, events, env, Landed(g, d, events, env, n, k))
    decreases n
  {
    hide AfterWork, VerdictAt, VerdictsAt, Reaches;
    LandedAreEarlier(g, d, events, env, n, k);
    if n == 0 {
      NoWork(g, d, events, env);
    } else {
      VerdictsGoDownstream(g, d, events, env, n - 1, k);
      OneVerdictGoesDownstream(g, d, events, env, n - 1, k);
      LandedAreEarlier(g, d, events, env, n - 1, k);
      OneMoreAt(g, d, events, env, Landed(g, d, events, env, n - 1, k), n - 1);
    }
  }

  function Room(cap: nat, held: nat): nat {
    if held < cap then cap - held else 0
  }

  ghost function FirstVerdicts(g: Setting, d: Desk, events: seq<TrackingEvent>, env: nat -> Moment, n: nat)
    : (vs: seq<ScreenedEvent>)
    requires n <= |events|
    ensures |vs| == n
  {
    seq(n, i requires 0 <= i < n => VerdictAt(g, d, events, env, i))
  }

  /** With a context that is never done, a subscriber gets every verdict until its channel is
      full, in order, and none from then on. */
  lemma {:induction false} VerdictsFillTheChannel(g: Setting, d: Desk, events: seq<TrackingEvent>, env: nat -> Moment,
                                                  n: nat, k: nat)
    requires n <= |events| && !g.closed && k < |d.subs|
    requires forall i, m :: !env(i).selects(m).done
    ensures var subs, room := AfterWork(g, d, events, env, n).subs, Room(g.cap, |d.subs[k].queue|);
            && |subs| == |d.subs|
            && subs[k].queue == d.subs[k].queue + FirstVerdicts(g, d, events, env, if n < room then n else room)
    decreases n
  {
    hide AfterWork, VerdictAt, FirstVerdicts;
    NoWork(g, d, events, env);
    if n > 0 {
      VerdictsFillTheChannel(g, d, events, env, n - 1, k);
      OneVerdictGoesDownstream(g, d, events, env, n - 1, k);
      assert Reaches(g, d, events, env, n - 1, k);
      hide Reaches;
      OneMoreFirst(g, d, events, env, n);
    }
  }

  // ------------------------------------------- the default rules, from a fresh start

  /** The run that a worker's clock makes of the events. */
  ghost function Arrivals(events: seq<TrackingEvent>, env: nat -> Moment): seq<Arrival> {
    seq(|events|, i requires 0 <= i < |events| => Arrive(events[i], env(i)))
  }

  lemma {:induction false} WorkIsARun(g: Setting, d: Desk, events: seq<TrackingEvent>, env: nat -> Moment, n: nat)
    requires n <= |events| && g.rules == DEFAULT_RULES && d.memory == BLANK
    ensures AfterWork(g, d, events, env, n).memory == After(Arrivals(events, env)[..n])
  {
    hide AfterOne, AfterRules, VerdictFrom, Bumped, Published, Metric;
    hide Fired, Audible, BotFinding, RateFinding, GeoFinding;
    var run := Arrivals(events, env);
    if n > 0 {
      WorkIsARun(g, d, events, env, n - 1);
      assert run[..n][..n - 1] == run[..n - 1];
      DefaultRules(g.lower, After(run[..n - 1]), run[n - 1]);
    } else {
      assert run[..0] == [];
    }
  }

  /** A verdict of the worker is legitimate exactly when the run of arrivals says so. */
  lemma VerdictsAreTheRuns(g: Setting, d: Desk, events: seq<TrackingEvent>, env: nat -> Moment, i: nat)
    requires i < |events| && g.rules == DEFAULT_RULES && d.memory == BLANK
    ensures VerdictAt(g, d, events, env, i).fraudulent <==> !Legitimate(g.lower, Arrivals(events, env), i)
  {
    WorkIsARun(g, d, events, env, i);
    hide Fired, Reasons.Join;
  }

  /** However many events a worker gets through, at most ten from one address are counted
      legitimate for each 5 s window begun. */
  lemma WorkerThroughput(g: Setting, d: Desk, events: seq<TrackingEvent>, env: nat -> Moment, n: nat,
                         ip: Address, start: int, span: nat)
    requires n <= |events| && g.rules == DEFAULT_RULES && d.memory == BLANK && Clocked(Arrivals(events, env))
    ensures |set i | i in Flagged(g, d, events, env, n, false)
                     && events[i].ip == ip && start <= env(i).rateAt <= start + span|
              <= 10 * (span / 5_000_000_000 + 1)
  {
    hide VerdictAt, Legitimate;
    var picked := set i | i in Flagged(g, d, events, env, n, false)
                          && events[i].ip == ip && start <= env(i).rateAt <= start + span;
    var run := Arrivals(events, env);
    forall i | i in picked ensures i < |run| && Legitimate(g.lower, run, i) {
      VerdictsAreTheRuns(g, d, events, env, i);
    }
    LegitimateThroughput(g.lower, run, ip, picked, start, span);
  }

  class FraudService {
    const broker: InMemoryBroker
    const repo: MemoryFraudRepository
    const tracker: MemoryTelemetryTracker
    const state: RuleState
    const rules: seq<Rule>
    const lower: string -> string

    constructor (broker: InMemoryBroker, repo: MemoryFraudRepository, tracker: MemoryTelemetryTracker,
                 rules: seq<Rule>, lower: string -> string)
      ensures this.broker == broker && this.repo == repo && this.tracker == tracker
      ensures this.rules == rules && this.lower == lower && fresh(state) && state.Model() == BLANK
    {
      this.broker, this.repo, this.tracker := broker, repo, tracker;
      this.rules, this.lower := rules, lower;
      state := new RuleState();
    }

    method Consult(rule: Rule, event: TrackingEvent, t: Moment) returns (e: Evaluation)
      modifies state
      ensures e == Evaluate(lower, rule, old(state.Model()), Arrive(event, t))
      ensures state.Model() == AfterRule(rule, old(state.Model()), Arrive(event, t))
    {
      match rule
      case BotRule =>
        e := Found(BotFinding(lower, event.userAgent));
      case RateLimitRule =>
        var f := state.EvaluateRate(event, t.rateAt);
        e := Found(f);
      case GeoVelocityRule =>
        var f := state.EvaluateGeo(event, t.geoAt);
        e := Found(f);
      case BrokenRule =>
        e := Errored;
    }

    /** The rules in turn: a failing one is skipped, scores add up, and the sum is compared with
        the fraud threshold before it is capped. */
    method Judge(event: TrackingEvent, t: Moment) returns (screened: ScreenedEvent)
      modifies state
      ensures screened == Verdict(event, Fired(lower, rules, old(state.Model()), Arrive(event, t)), t.screenedAt)
      ensures state.Model() == AfterRules(rules, old(state.Model()), Arrive(event, t))
    {
      hide Evaluate, AfterRule, Reasons.Join, Fired, AfterRules, Total, ReasonsOf;
      ghost var m, a := state.Model(), Arrive(event, t);
      NoRules(lower, m, a);
      var fraudScore, reasons := 0, [];
      ghost var fired: seq<Finding> := [];
      var i := 0;
      while i < |rules|
        invariant 0 <= i <= |rules|
        invariant state.Model() == AfterRules(rules[..i], m, a)
        invariant fired == Fired(lower, rules[..i], m, a)
        invariant fraudScore == Total(fired) && reasons == ReasonsOf(fired)
      {
        assert rules[..i + 1] == rules[..i] + [rules[i]];
        NextRule(lower, rules[..i], rules[i], m, a);
        var e := Consult(rules[i], event, t);
        if e.Found? && e.finding.score > 0 {
          fraudScore := fraudScore + e.finding.score;
          reasons := reasons + [e.finding.reason];
          OneFinding(fired, e.finding);
          fired := fired + [e.finding];
        }
        assert fired == Fired(lower, rules[..i + 1], m, a);
        i := i + 1;
      }
      assert rules[..i] == rules;
      var isFraud := fraudScore >= FRAUD_FROM;
      if fraudScore > TOP_SCORE {
        fraudScore := TOP_SCORE;
      }
      screened := ScreenedEvent(event, isFraud, fraudScore, Reasons.Join(reasons), t.screenedAt);
    }

    ghost function Terms(): Setting
      reads broker
    {
      Setting(lower, rules, broker.bufferSize, broker.closed)
    }

    ghost function Model(): Desk
      reads state, repo, tracker, broker
    {
      Desk(state.Model(), repo.log, tracker.Model(), broker.screenedSubs)
    }

    /** One event: the verdict is saved and counted before it is published, and a publication
        that fails changes nothing else. */
    method ScreenEvent(event: TrackingEvent, t: Moment)
      requires broker.Valid() && repo.Valid()
      modifies state, repo, tracker, broker
      ensures broker.Valid() && repo.Valid()
      ensures Terms() == old(Terms()) && broker.rawSubs == old(broker.rawSubs)
      ensures Model() == AfterScreening(Terms(), old(Model()), event, t)
    {
      hide Verdict, Fired, AfterRules, Bumped, Published;
      var screened := Judge(event, t);
      repo.SaveEvent(screened);
      if screened.fraudulent {
        tracker.IncrementMetric("fraudulent", 1);
      } else {
        tracker.IncrementMetric("legitimate", 1);
      }
      var _ := broker.PublishScreened(screened, t.selects);
    }

    /** The loop of Start on channel `sub`, run for as long as it need not wait; `ctx` is what
        each of its own selects sees. The `n` events taken are the front of the queue, in
        order, and all of it unless the context is done. */
    method Work(sub: nat, ctx: nat -> Select, env: nat -> Moment) returns (n: nat, ending: Ending)
      requires broker.Valid() && repo.Valid() && sub < |broker.rawSubs|
      modifies state, repo, tracker, broker
      ensures broker.Valid() && repo.Valid() && Terms() == old(Terms())
      ensures |broker.rawSubs| == |old(broker.rawSubs)|
      ensures forall k :: 0 <= k < |broker.rawSubs| && k != sub ==> broker.rawSubs[k] == old(broker.rawSubs)[k]
      ensures n <= |old(broker.rawSubs)[sub].queue| && broker.rawSubs[sub].queue == old(broker.rawSubs)[sub].queue[n..]
      ensures match ending
              case ContextDone => ctx(n).done
              case ChannelClosed => broker.closed && broker.rawSubs[sub].queue == []
              case NothingToTake => !broker.closed && broker.rawSubs[sub].queue == [] && !ctx(n).done
              case _ => false
      ensures Model() == AfterWork(Terms(), old(Model()), old(broker.rawSubs)[sub].queue, env, n)
    {
      hide AfterScreening, AllClosed;
      n := 0;
      ghost var events := broker.rawSubs[sub].queue;
      while true
        invariant broker.Valid() && repo.Valid() && Terms() == old(Terms())
        invariant |broker.rawSubs| == |old(broker.rawSubs)|
        invariant forall k :: 0 <= k < |broker.rawSubs| && k != sub ==> broker.rawSubs[k] == old(broker.rawSubs)[k]
        invariant n <= |events| && broker.rawSubs[sub].queue == events[n..]
        invariant Model() == AfterWork(Terms(), old(Model()), events, env, n)
        decreases |broker.rawSubs[sub].queue|
      {
        var ready := broker.closed || broker.rawSubs[sub].queue != [];
        if ctx(n).done && (!ready || ctx(n).prefersDone) {
          return n, ContextDone;
        }
        var r := broker.ReceiveRaw(sub);
        match r
        case Drained => return n, ChannelClosed;
        case NothingYet => return n, NothingToTake;
        case Got(event) =>
          assert event == events[n];
          ScreenEvent(event, env(n));
          n := n + 1;
      }
    }

    /** On a closed broker there is no subscription and nothing happens; otherwise the worker
        starts on a channel of its own, at the end of the list, and finds it empty. */
    method Start(ctx: nat -> Select, env: nat -> Moment) returns (ending: Ending)
      requires broker.Valid() && repo.Valid()
      modifies state, repo, tracker, broker
      ensures broker.Valid() && repo.Valid() && Terms() == old(Terms()) && Model() == old(Model())
      ensures ending == NotSubscribed <==> old(broker.closed)
      ensures broker.rawSubs == old(broker.rawSubs) + if old(broker.closed) then [] else [Channel([], false)]
    {
      var ok, sub := broker.SubscribeRaw();
      if !ok {
        return NotSubscribed;
      }
      ghost var subs := broker.rawSubs;
      var n, e := Work(sub, ctx, env);
      ending := e;
      assert broker.rawSubs == subs;
    }
  }
}
