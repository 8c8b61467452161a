/** Shutdown by closing the broker, as the marketing worker sees it: it attempts exactly the
    qualifying events that its channel still held, and ends. */
module CrmDrains {
  import opened Events
  import opened Contacts
  import opened Pipeline
  import opened PipelineInv
  import opened Continuations
  import B = Bus
  import BusRuns
  import Shutdowns

  function CrmRank(st: CrmStage): nat {
    match st
    case Off => 6
    case Attempting => 5
    case Syncing => 4
    case Settling(_) => 3
    case Storing(_) => 2
    case Idle => 1
    case Stopped => 0
  }

  /** What is left to do before the marketing worker has ended. */
  ghost function CrmLeft(s: State): nat
    requires s.crm.seat.Seat? && s.crm.seat.k < |s.bus.screened.subs|
  {
    5 * |s.bus.screened.subs[s.crm.seat.k].queue| + CrmRank(s.crm.stage) + Shutdowns.ToClose(s.bus)
  }

  /** The steps of the worker and of the goroutine in Close. */
  function CrmCounts(a: Action): nat {
    if a.Crm? || a == World(CloseNext) || a == World(EndClose) then 1 else 0
  }

  /** A closed broker, and a worker that, if it has ended without cancellation, has left nothing. */
  ghost predicate Draining(s: State) {
    && s.bus.closed && s.crm.seat.Seat? && s.crm.seat.k < |s.bus.screened.subs| && s.crm.stage != Off
    && (s.crm.stage == Stopped && !s.cancelled ==> s.bus.screened.subs[s.crm.seat.k].queue == [])
  }

  /** What the worker can rely on for its next step. */
  ghost predicate Movable(s: State) {
    && Draining(s) && s.crm.stage != Stopped
    && (s.bus.closer.Closing? ==> s.bus.closer.k <= |s.bus.raw.subs| + |s.bus.screened.subs|)
    && (s.bus.closer == B.NotClosing ==> s.bus.screened.subs[s.crm.seat.k].closed)
    && (CrmInHand(s.crm.stage) ==> s.crm.current < |s.bus.screened.calls|)
    && (var q := s.bus.screened.subs[s.crm.seat.k].queue; q != [] ==> q[0] < |s.bus.screened.calls|)
  }

  lemma ClosedChannelFacts(b: TheBus, k: nat)
    requires B.Inv(b) && b.closed && k < |b.screened.subs|
    ensures b.closer.Closing? ==> b.closer.k <= |b.raw.subs| + |b.screened.subs|
    ensures b.closer == B.NotClosing ==> b.screened.subs[k].closed
    ensures var q := b.screened.subs[k].queue; q != [] ==> q[0] < |b.screened.calls|
  {
    assert b.closer == B.NotClosing ==> B.Shuts(b) == |b.raw.subs| + |b.screened.subs|;
    BusRuns.Delivery(b.screened, b.cap, k);
    hide B.TopicInv;
    var sub := b.screened.subs[k];
    assert sub.queue != [] ==> sub.queue[0] in sub.received + sub.queue;
  }

  lemma DrainingIsMovable(s: State)
    requires Inv(s) && Draining(s) && s.crm.stage != Stopped
    ensures Movable(s)
  {
    hide B.Inv, FraudInv, IngestInv, StoreInv, ContactInv, PurgesInv;
    ClosedChannelFacts(s.bus, s.crm.seat.k);
    assert CrmInHand(s.crm.stage) ==> s.crm.current in Qualified(s.crm, s.bus.screened);
  }

  /** The worker's next step, at the given instant and with the given outcome of a sync, or
      that of the goroutine in Close when there is one. */
  ghost function NextCrmMove(s: State, at: int, ok: bool): Action
    requires s.crm.seat.Seat? && s.crm.seat.k < |s.bus.screened.subs|
  {
    var channels := |s.bus.raw.subs| + |s.bus.screened.subs|;
    if s.bus.closer.Closing? then World(if s.bus.closer.k < channels then CloseNext else EndClose)
    else match s.crm.stage
      case Attempting => Crm(Attempt)
      case Syncing => Crm(Sync(ok))
      case Settling(_) => Crm(Settle)
      case Storing(_) => Crm(File)
      case _ => if s.bus.screened.subs[s.crm.seat.k].queue == [] then Crm(EndCrm) else Crm(TakeScreened(at))
  }

  lemma NextCrmMoveIsEnabled(s: State, at: int, ok: bool)
    requires Movable(s)
    ensures Enabled(s, NextCrmMove(s, at, ok)) && CrmCounts(NextCrmMove(s, at, ok)) == 1
    ensures CrmLeft(s) > 0
  {
  }

  lemma CrmStepsPay(s: State, c: CrmAction)
    requires Movable(s) && Enabled(s, Crm(c))
    ensures var s', k := Next(s, Crm(c)), s.crm.seat.k;
            && s'.crm.seat == s.crm.seat && s'.crm.stage != Off && k < |s'.bus.screened.subs|
            && 5 * |s'.bus.screened.subs[k].queue| + CrmRank(s'.crm.stage) <
                5 * |s.bus.screened.subs[k].queue| + CrmRank(s.crm.stage)
            && (s'.crm.stage == Stopped && !s'.cancelled ==> s'.bus.screened.subs[k].queue == [])
  {
  }

  lemma StoppedTakesNoStep(s: State, c: CrmAction)
    requires s.crm.stage == Stopped
    ensures !Enabled(s, Crm(c))
  {
    hide B.Enabled, BusPartOf;
  }

  lemma CloseStepsArePaid(s: State, a: Action)
    requires Enabled(s, a) && (a == World(CloseNext) || a == World(EndClose))
    ensures Shutdowns.ToClose(Next(s, a).bus) < Shutdowns.ToClose(s.bus)
  {
    Shutdowns.CloseStepsPay(s.bus, BusPartOf(s, a).a);
    hide B.Enabled, B.Apply;
  }

  lemma ClosingGoesOn(b: TheBus, a: BusAction)
    requires B.Inv(b) && b.closed && B.Enabled(b, a)
    ensures Shutdowns.ToClose(B.Apply(b, a)) <= Shutdowns.ToClose(b)
  {
    BusRuns.ClosedStep(b, a);
    hide B.TopicInv;
  }

  /** What any step leaves of a closed broker. */
  lemma ChannelOnlyDrains(s: State, a: Action)
    requires Inv(s) && Draining(s) && Enabled(s, a)
    ensures BusRuns.OnlyDrains(s.bus, Next(s, a).bus)
    ensures s.crm.seat.k < |Next(s, a).bus.screened.subs|
    ensures var k := s.crm.seat.k; |Next(s, a).bus.screened.subs[k].queue| <= |s.bus.screened.subs[k].queue|
    ensures Shutdowns.ToClose(Next(s, a).bus) <= Shutdowns.ToClose(s.bus)
  {
    Shutdowns.BusOnlyDrains(s, a);
    SeatsAreFixed(s, a);
    hide Inv, B.Apply, B.Enabled, Next, Enabled;
    var sub, sub' := s.bus.screened.subs[s.crm.seat.k], Next(s, a).bus.screened.subs[s.crm.seat.k];
    assert sub'.received + sub'.queue == sub.received + sub.queue;
    if BusPartOf(s, a).Part? {
      ClosingGoesOn(s.bus, BusPartOf(s, a).a);
    }
  }

  /** Cancellation is for good, and nobody else moves the worker. */
  lemma WorkerStays(s: State, a: Action)
    requires Enabled(s, a)
    ensures !a.Crm? ==> Next(s, a).crm == s.crm
    ensures s.cancelled ==> Next(s, a).cancelled
  {
    hide B.Apply, B.Enabled, BusPartOf, BusAfter;
  }

  /** Whoever moves, the drain goes on, what is left does not grow, and each step of the worker
      and of the goroutine in Close takes at least one off it. */
  lemma CrmDrainStep(s: State, a: Action)
    requires Inv(s) && Draining(s) && Enabled(s, a)
    ensures Inv(Next(s, a)) && Draining(Next(s, a)) && Next(s, a).crm.seat == s.crm.seat
    ensures BusRuns.OnlyDrains(s.bus, Next(s, a).bus)
    ensures CrmLeft(Next(s, a)) + CrmCounts(a) <= CrmLeft(s)
  {
    Step(s, a);
    hide Inv, B.Apply, B.Enabled, Next, Enabled, Movable;
    ChannelOnlyDrains(s, a);
    WorkerStays(s, a);
    if a.Crm? {
      if s.crm.stage == Stopped {
        StoppedTakesNoStep(s, a.c);
      } else {
        DrainingIsMovable(s);
        CrmStepsPay(s, a.c);
      }
    } else if CrmCounts(a) == 1 {
      CloseStepsArePaid(s, a);
    }
  }

  /** How many of the steps the worker and the goroutine in Close have taken. */
  function CrmSteps(acts: seq<Action>): nat {
    if acts == [] then 0 else CrmCounts(acts[0]) + CrmSteps(acts[1..])
  }

  lemma {:induction false} CrmDrainRun(s: State, acts: seq<Action>)
    requires Inv(s) && Draining(s) && Runs(s, acts)
    ensures var s' := Exec(s, acts);
            && Inv(s') && Draining(s') && s'.crm.seat == s.crm.seat
            && BusRuns.OnlyDrains(s.bus, s'.bus)
            && CrmSteps(acts) + CrmLeft(s') <= CrmLeft(s)
    decreases |acts|
  {
    hide Inv, Next, Enabled, Runs, Exec, CrmCounts, CrmLeft;
    if acts == [] {
      NoneYet(s);
      assert BusRuns.OnlyDrains(s.bus, s.bus);
    } else {
      FirstOff(s, acts);
      var mid := Next(s, acts[0]);
      CrmDrainStep(s, acts[0]);
      CrmDrainRun(mid, acts[1..]);
      Shutdowns.DrainsChain(s.bus, mid.bus, Exec(s, acts).bus);
    }
  }

  /** The screened events that the marketing worker syncs. */
  predicate IsDue(e: ScreenedEvent) {
    !e.fraudulent && e.event.eventType in {"signup", "checkout_completed", "cart_abandoned"}
  }

  lemma DueMeansQualifies(e: ScreenedEvent)
    ensures Qualifies(e) <==> IsDue(e)
  {
    WorkflowsByType(e.event.eventType);
    hide Workflow;
  }

  /** Ended, the worker has attempted what it received of the right kind. */
  lemma AllReceivedAttempted(s: State, j: nat)
    requires Inv(s) && s.crm.seat.Seat? && s.crm.stage == Stopped
    ensures s.crm.seat.k < |s.bus.screened.subs|
    ensures j in s.crm.attempted <==>
              && j in s.bus.screened.subs[s.crm.seat.k].received && j < |s.bus.screened.calls|
              && IsDue(s.bus.screened.calls[j].event)
    ensures s.meters.attempts == |s.crm.attempted| == s.meters.successes + s.meters.failures
  {
    assert CrmInv(s.crm, s.bus.screened, s.meters);
    hide Inv, Qualifies, IsDue;
    if j < |s.bus.screened.calls| {
      DueMeansQualifies(s.bus.screened.calls[j].event);
    }
  }

  /** From a closed broker, in every run: the marketing worker and the goroutine in Close take
      a bounded number of steps; as long as the worker has not ended, one of them can go on,
      whatever the outcome of a sync; and once it has, without cancellation, it has taken all
      that its channel held and attempted exactly the legitimate events of the three types. */
  lemma CrmDrainIsExact(s: State, acts: seq<Action>, at: int, ok: bool)
    requires Inv(s) && Draining(s) && Runs(s, acts)
    ensures s.crm.seat.k < |Exec(s, acts).bus.screened.subs| && Exec(s, acts).crm.seat == s.crm.seat
    ensures CrmSteps(acts) <= CrmLeft(s)
    ensures var s', k := Exec(s, acts), s.crm.seat.k;
            && (s'.crm.stage != Stopped ==>
                  && CrmSteps(acts) < CrmLeft(s)
                  && CrmCounts(NextCrmMove(s', at, ok)) == 1 && Enabled(s', NextCrmMove(s', at, ok)))
            && (s'.crm.stage == Stopped && !s'.cancelled ==>
                  && s'.bus.screened.subs[k].received
                       == s.bus.screened.subs[k].received + s.bus.screened.subs[k].queue
                  && (forall j: nat :: j in s'.crm.attempted <==>
                        && j in s.bus.screened.subs[k].received + s.bus.screened.subs[k].queue
                        && j < |s'.bus.screened.calls| && IsDue(s'.bus.screened.calls[j].event))
                  && s'.meters.successes + s'.meters.failures == |s'.crm.attempted|)
  {
    var s', k := Exec(s, acts), s.crm.seat.k;
    CrmDrainRun(s, acts);
    hide Inv, Runs, Exec, Enabled, CrmLeft, IsDue;
    if s'.crm.stage != Stopped {
      DrainingIsMovable(s');
      NextCrmMoveIsEnabled(s', at, ok);
    } else if !s'.cancelled {
      var sub' := s'.bus.screened.subs[k];
      assert sub'.received + sub'.queue == s.bus.screened.subs[k].received + s.bus.screened.subs[k].queue;
      assert sub'.received + [] == sub'.received;
      forall j: nat ensures j in s'.crm.attempted <==>
                              && j in sub'.received && j < |s'.bus.screened.calls|
                              && IsDue(s'.bus.screened.calls[j].event)
      {
        AllReceivedAttempted(s', j);
      }
      AllReceivedAttempted(s', 0);
    }
  }
}
