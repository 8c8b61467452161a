/** Shutdown by closing the broker: the fraud worker drains exactly what was queued. */
module Shutdowns {
  import opened Events
  import opened Pipeline
  import opened PipelineInv
  import B = Bus
  import BusRuns

  function Calls(log: seq<Item>): seq<nat> {
    seq(|log|, i requires 0 <= i < |log| => log[i].call)
  }

  /** What the worker has taken or can still take, in order. */
  ghost function Backlog(s: State): seq<nat>
    requires s.fraud.seat.Seat? && s.fraud.seat.k < |s.bus.raw.subs|
  {
    Calls(s.fraud.log) + s.bus.raw.subs[s.fraud.seat.k].queue
  }

  lemma BacklogFollowsTheLog(s: State)
    requires LogInv(s.fraud, s.bus.raw) && s.fraud.seat.Seat?
    ensures s.fraud.seat.k < |s.bus.raw.subs|
    ensures var sub := s.bus.raw.subs[s.fraud.seat.k]; Backlog(s) == sub.received + sub.queue
  {
    assert Calls(s.fraud.log) == s.bus.raw.subs[s.fraud.seat.k].received;
  }

  lemma BacklogIsDelivered(s: State)
    requires Inv(s) && s.fraud.seat.Seat?
    ensures s.fraud.seat.k < |s.bus.raw.subs|
    ensures var sub := s.bus.raw.subs[s.fraud.seat.k]; Backlog(s) == sub.received + sub.queue
  {
    hide B.Inv, LogInv, OutInv, TallyInv, IngestInv, CrmInv, StoreInv, ContactInv, PurgesInv;
    assert FraudInv(s);
    BacklogFollowsTheLog(s);
  }

  lemma VerdictsAreCounted(s: State)
    requires Inv(s)
    ensures s.meters.legitimate == |Verdicts(s.fraud, false)| && s.meters.fraudulent == |Verdicts(s.fraud, true)|
  {
    hide B.Inv, LogInv, OutInv, IngestInv, CrmInv, StoreInv, ContactInv, PurgesInv;
    assert FraudInv(s);
  }

  // ------------------------------------------------------------------- safety

  lemma BusOnlyDrains(s: State, a: Action)
    requires B.Inv(s.bus) && s.bus.closed && Enabled(s, a)
    ensures BusRuns.OnlyDrains(s.bus, Next(s, a).bus)
  {
    if BusPartOf(s, a).Part? {
      BusRuns.ClosedStep(s.bus, BusPartOf(s, a).a);
    }
    hide B.Inv, B.Apply;
  }

  /** The worker ends only when its channel is empty, unless the context is cancelled, and
      ended, it has nothing in hand. */
  ghost predicate EndedDry(s: State) {
    s.fraud.stage == Ended && s.fraud.seat.Seat? && s.fraud.seat.k < |s.bus.raw.subs| && !s.cancelled ==>
      s.bus.raw.subs[s.fraud.seat.k].queue == []
  }

  /** How far the worker has come: its log grows, its seat stays. */
  ghost predicate Advanced(s: State, s': State) {
    && s.fraud.log <= s'.fraud.log
    && (s.fraud.seat.Seat? ==> s'.fraud.seat == s.fraud.seat)
    && (s.cancelled ==> s'.cancelled)
  }

  lemma WorkerAdvances(s: State, a: Action)
    requires Enabled(s, a) && (s.fraud.stage == Unsubscribed ==> s.fraud.seat == NoSeat)
    ensures Advanced(s, Next(s, a))
  {
    if !a.Fraud? {
      OwnWorkerOnly(s, a);
    }
    hide B.Apply, B.Enabled;
  }

  lemma StaysDry(s: State, a: Action)
    requires Enabled(s, a) && EndedDry(s) && s.fraud.seat.Seat? && s.fraud.seat.k < |s.bus.raw.subs|
    requires s.fraud.stage != Unsubscribed
    requires BusRuns.Frozen(s.bus.raw, Next(s, a).bus.raw)
    ensures EndedDry(Next(s, a))
  {
    WorkerAdvances(s, a);
    var k, s' := s.fraud.seat.k, Next(s, a);
    assert s'.bus.raw.subs[k].received + s'.bus.raw.subs[k].queue ==
        s.bus.raw.subs[k].received + s.bus.raw.subs[k].queue;
    assert |s'.bus.raw.subs[k].queue| <= |s.bus.raw.subs[k].queue|;
    if !a.Fraud? {
      OwnWorkerOnly(s, a);
    }
    hide B.Apply, B.Enabled;
  }

  lemma DrainsChain(b0: TheBus, b1: TheBus, b2: TheBus)
    requires BusRuns.OnlyDrains(b0, b1) && BusRuns.OnlyDrains(b1, b2)
    ensures BusRuns.OnlyDrains(b0, b2)
  {
    BusRuns.FrozenChains(b0.raw, b1.raw, b2.raw);
    BusRuns.FrozenChains(b0.screened, b1.screened, b2.screened);
  }

  lemma OneClosedStep(s: State, a: Action)
    requires Inv(s) && s.bus.closed && s.fraud.seat.Seat? && EndedDry(s) && Enabled(s, a)
    ensures var s' := Next(s, a);
            && Inv(s') && s'.bus.closed && s'.fraud.seat.Seat?
            && BusRuns.OnlyDrains(s.bus, s'.bus) && Advanced(s, s') && EndedDry(s')
  {
    assert s.fraud.seat.k < |s.bus.raw.subs| && s.fraud.stage != Unsubscribed;
    assert s.fraud.stage == Unsubscribed ==> s.fraud.seat == NoSeat;
    Step(s, a);
    BusOnlyDrains(s, a);
    hide Inv, Next, Enabled;
    WorkerAdvances(s, a);
    StaysDry(s, a);
  }

  lemma {:induction false} ClosedRun(s: State, acts: seq<Action>)
    requires Inv(s) && s.bus.closed && s.fraud.seat.Seat? && EndedDry(s) && Runs(s, acts)
    ensures var s' := Exec(s, acts);
            Inv(s') && BusRuns.OnlyDrains(s.bus, s'.bus) && Advanced(s, s') && EndedDry(s')
    decreases |acts|
  {
    hide Inv, Next, Enabled, EndedDry;
    if acts != [] {
      var mid := Next(s, acts[0]);
      OneClosedStep(s, acts[0]);
      ClosedRun(mid, acts[1..]);
      DrainsChain(s.bus, mid.bus, Exec(mid, acts[1..]).bus);
    } else {
      assert BusRuns.OnlyDrains(s.bus, s.bus);
    }
  }

  lemma BacklogStays(s: State, s': State)
    requires BusRuns.OnlyDrains(s.bus, s'.bus) && Advanced(s, s')
    requires s.fraud.seat.Seat? && s.fraud.seat.k < |s.bus.raw.subs|
    ensures s'.fraud.seat == s.fraud.seat && s.fraud.log <= s'.fraud.log && s.fraud.seat.k < |s'.bus.raw.subs|
    ensures var sub, sub' := s.bus.raw.subs[s.fraud.seat.k], s'.bus.raw.subs[s.fraud.seat.k];
            sub'.received + sub'.queue == sub.received + sub.queue
    ensures forall i :: |s.bus.screened.calls| <= i < |s'.bus.screened.calls| ==>
              s'.bus.screened.calls[i].status == B.Refused
  {
  }

  /** From a closed broker, in every continuation without cancellation: the worker takes
      exactly the backlog, in order; once it has ended, all of it is taken, saved and counted,
      and nothing screened since the close has reached a subscriber. */
  lemma DrainIsExact(s: State, acts: seq<Action>)
    requires Inv(s) && s.bus.closed && s.fraud.seat.Seat? && s.fraud.stage != Ended && Runs(s, acts)
    requires !Exec(s, acts).cancelled
    ensures s.fraud.seat.k < |s.bus.raw.subs| && s.fraud.seat.k < |Exec(s, acts).bus.raw.subs|
    ensures var s', k := Exec(s, acts), s.fraud.seat.k;
            && s'.fraud.seat == s.fraud.seat && s.fraud.log <= s'.fraud.log
            && Backlog(s') == Backlog(s)
            && (forall i :: |s.bus.screened.calls| <= i < |s'.bus.screened.calls| ==>
                s'.bus.screened.calls[i].status == B.Refused)
            && (s'.fraud.stage == Ended ==>
                  && Calls(s'.fraud.log) == Calls(s.fraud.log) + s.bus.raw.subs[k].queue
                  && SavedN(s'.fraud) == |s'.fraud.log|
                  && s'.meters.legitimate == |Verdicts(s'.fraud, false)|
                  && s'.meters.fraudulent == |Verdicts(s'.fraud, true)|
                  && CountedN(s'.fraud) == |s'.fraud.log| == |s.fraud.log| + |s.bus.raw.subs[k].queue|)
  {
    var s' := Exec(s, acts);
    hide Inv, Runs, Exec, Verdicts, BusRuns.OnlyDrains, Advanced;
    ClosedRun(s, acts);
    BacklogIsDelivered(s);
    BacklogIsDelivered(s');
    BacklogStays(s, s');
    VerdictsAreCounted(s');
    if s'.fraud.stage == Ended {
      assert Backlog(s') == Calls(s'.fraud.log);
    }
  }

  // ----------------------------------------------------------------- progress

  function StageRank(st: FraudStage): nat {
    match st
    case Unsubscribed => 6
    case Saving => 5
    case Counting => 4
    case Publishing => 3
    case Sending => 2
    case Waiting => 1
    case Ended => 0
  }

  /** Channels that Close has still to close. */
  function ToClose(b: TheBus): nat {
    var channels := |b.raw.subs| + |b.screened.subs|;
    if b.closer.Closing? && b.closer.k <= channels then 1 + channels - b.closer.k else 0
  }

  /** What is left to do before the worker has ended. */
  ghost function Left(s: State): nat
    requires s.fraud.seat.Seat? && s.fraud.seat.k < |s.bus.raw.subs|
  {
    5 * |s.bus.raw.subs[s.fraud.seat.k].queue| + StageRank(s.fraud.stage) + ToClose(s.bus)
  }

  /** What the rules say of an event: any verdict on it. */
  ghost predicate Judges(judge: TrackingEvent -> ScreenedEvent) {
    forall e :: judge(e).event == e
  }

  /** The worker's next step under the given rules, or that of the goroutine in Close when
      there is one. */
  ghost function NextMove(s: State, judge: TrackingEvent -> ScreenedEvent): Action
    requires s.fraud.seat.Seat? && s.fraud.seat.k < |s.bus.raw.subs|
  {
    var channels := |s.bus.raw.subs| + |s.bus.screened.subs|;
    if s.bus.closer.Closing? then World(if s.bus.closer.k < channels then CloseNext else EndClose)
    else match s.fraud.stage
      case Saving => Fraud(Save)
      case Counting => Fraud(Tally)
      case Publishing => Fraud(Publish)
      case Sending => Fraud(Release)
      case _ =>
        var q := s.bus.raw.subs[s.fraud.seat.k].queue;
        if q == [] || q[0] >= |s.bus.raw.calls| then Fraud(EndFraud)
        else Fraud(TakeRaw(judge(s.bus.raw.calls[q[0]].event)))
  }

  lemma ClosedFacts(s: State)
    requires Inv(s) && s.bus.closed && s.fraud.seat.Seat? && s.fraud.stage != Ended
    ensures s.fraud.seat.k < |s.bus.raw.subs| && s.fraud.stage != Unsubscribed
    ensures s.bus.closer.Closing? ==> s.bus.closer.k <= |s.bus.raw.subs| + |s.bus.screened.subs|
    ensures s.bus.closer == B.NotClosing ==> s.bus.raw.subs[s.fraud.seat.k].closed
    ensures InHand(s.fraud.stage) ==> s.fraud.log != []
    ensures s.fraud.stage == Sending ==>
        s.bus.screened.calls != [] && s.bus.screened.calls[|s.bus.screened.calls| - 1].status != B.Active
    ensures var q := s.bus.raw.subs[s.fraud.seat.k].queue; q != [] ==> q[0] < |s.bus.raw.calls|
  {
    var k := s.fraud.seat.k;
    assert s.bus.closer == B.NotClosing ==> B.Shuts(s.bus) == |s.bus.raw.subs| + |s.bus.screened.subs|;
    assert !B.Busy(s.bus.screened);
    assert s.fraud.stage == Sending ==> |s.bus.screened.calls| == |s.fraud.log|;
    BusRuns.Delivery(s.bus.raw, s.bus.cap, k);
    var sub := s.bus.raw.subs[k];
    assert sub.queue != [] ==> sub.queue[0] in sub.received + sub.queue;
  }

  /** The facts above, for a state given by its parts. */
  ghost predicate Drainable(s: State) {
    && s.fraud.seat.Seat? && s.fraud.seat.k < |s.bus.raw.subs|
    && s.fraud.stage !in {Unsubscribed, Ended} && s.bus.closed
    && (s.bus.closer.Closing? ==> s.bus.closer.k <= |s.bus.raw.subs| + |s.bus.screened.subs|)
    && (s.bus.closer == B.NotClosing ==> s.bus.raw.subs[s.fraud.seat.k].closed)
    && (InHand(s.fraud.stage) ==> s.fraud.log != [])
    && (s.fraud.stage == Sending ==>
        s.bus.screened.calls != [] && s.bus.screened.calls[|s.bus.screened.calls| - 1].status != B.Active)
    && (var q := s.bus.raw.subs[s.fraud.seat.k].queue; q != [] ==> q[0] < |s.bus.raw.calls|)
  }

  lemma NextMoveIsEnabled(s: State, judge: TrackingEvent -> ScreenedEvent)
    requires Drainable(s) && Judges(judge)
    ensures Enabled(s, NextMove(s, judge))
  {
  }

  lemma ClosedBusShrinks(b: TheBus, a: BusAction, k: nat)
    requires B.Inv(b) && b.closed && B.Enabled(b, a) && k < |b.raw.subs|
    ensures k < |B.Apply(b, a).raw.subs| && |B.Apply(b, a).raw.subs[k].queue| <= |b.raw.subs[k].queue|
    ensures ToClose(B.Apply(b, a)) <= ToClose(b)
  {
    BusRuns.ClosedStep(b, a);
    assert B.Apply(b, a).raw.subs[k].received + B.Apply(b, a).raw.subs[k].queue ==
        b.raw.subs[k].received + b.raw.subs[k].queue;
    hide B.TopicInv;
  }

  /** The steps of the worker and of the goroutine in Close. */
  function Counts(a: Action): nat {
    if a.Fraud? || a == World(CloseNext) || a == World(EndClose) then 1 else 0
  }

  lemma FraudStepsPay(s: State, f: FraudAction)
    requires Drainable(s) && Enabled(s, Fraud(f)) && s.fraud.seat.k < |Next(s, Fraud(f)).bus.raw.subs|
    ensures var s', k := Next(s, Fraud(f)), s.fraud.seat.k;
            && s'.fraud.seat == s.fraud.seat
            && 5 * |s'.bus.raw.subs[k].queue| + StageRank(s'.fraud.stage) <
                5 * |s.bus.raw.subs[k].queue| + StageRank(s.fraud.stage)
  {
  }

  lemma CloseStepsPay(b: TheBus, a: BusAction)
    requires B.Enabled(b, a) && (a.CloseNext? || a.EndClose?)
    ensures ToClose(B.Apply(b, a)) < ToClose(b)
  {
  }

  lemma EndedTakesNoStep(s: State, f: FraudAction)
    requires s.fraud.stage == Ended
    ensures !Enabled(s, Fraud(f))
  {
    hide B.Enabled, BusPartOf;
  }

  /** Whoever moves, what is left to do does not grow, and each step of the worker, whatever
      the verdict, and of the goroutine in Close takes at least one off it. */
  lemma StepsPay(s: State, a: Action)
    requires Inv(s) && s.bus.closed && s.fraud.seat.Seat? && Enabled(s, a)
    ensures s.fraud.seat.k < |s.bus.raw.subs| && s.fraud.seat.k < |Next(s, a).bus.raw.subs|
    ensures Next(s, a).bus.closed && Next(s, a).fraud.seat == s.fraud.seat
    ensures Left(Next(s, a)) + Counts(a) <= Left(s)
  {
    hide Inv, B.Apply, B.Enabled, Next, Enabled, Drainable;
    ClosedStaysClosed(s, a);
    if a.Fraud? {
      if s.fraud.stage == Ended {
        EndedTakesNoStep(s, a.f);
      } else {
        ClosedIsDrainable(s);
        FraudStepsPay(s, a.f);
      }
    } else {
      OwnWorkerOnly(s, a);
      if Counts(a) == 1 {
        CloseMovesAreTheBus(s, a);
        CloseStepsPay(s.bus, BusPartOf(s, a).a);
      }
    }
  }

  lemma ClosedIsDrainable(s: State)
    requires Inv(s) && s.bus.closed && s.fraud.seat.Seat? && s.fraud.stage != Ended
    ensures Drainable(s)
  {
    hide Inv;
    ClosedFacts(s);
  }

  /** What any step leaves of a closed broker and of the worker's seat. */
  lemma ClosedStaysClosed(s: State, a: Action)
    requires Inv(s) && s.bus.closed && s.fraud.seat.Seat? && Enabled(s, a)
    ensures Next(s, a).bus == BusAfter(s, a) && Next(s, a).bus.closed && Next(s, a).fraud.seat == s.fraud.seat
    ensures s.fraud.seat.k < |s.bus.raw.subs| && s.fraud.seat.k < |Next(s, a).bus.raw.subs|
    ensures var k := s.fraud.seat.k; |Next(s, a).bus.raw.subs[k].queue| <= |s.bus.raw.subs[k].queue|
    ensures ToClose(Next(s, a).bus) <= ToClose(s.bus)
  {
    assert s.fraud.seat.k < |s.bus.raw.subs|;
    SeatsAreFixed(s, a);
    BusOnlyDrains(s, a);
    hide Inv, B.Apply, B.Enabled, Next, Enabled;
    if BusPartOf(s, a).Part? {
      ClosedBusShrinks(s.bus, BusPartOf(s, a).a, s.fraud.seat.k);
    }
  }

  lemma CloseMovesAreTheBus(s: State, a: Action)
    requires Enabled(s, a) && !a.Fraud? && Counts(a) == 1
    ensures BusPartOf(s, a).Part? && B.Enabled(s.bus, BusPartOf(s, a).a)
    ensures BusPartOf(s, a).a.CloseNext? || BusPartOf(s, a).a.EndClose?
  {
    hide B.Enabled;
  }

  /** How many of the steps the worker and the goroutine in Close have taken. */
  function DrainSteps(acts: seq<Action>): nat {
    if acts == [] then 0 else Counts(acts[0]) + DrainSteps(acts[1..])
  }

  lemma {:induction false} DrainStepsAreBounded(s: State, acts: seq<Action>)
    requires Inv(s) && s.bus.closed && s.fraud.seat.Seat? && Runs(s, acts)
    ensures s.fraud.seat.k < |s.bus.raw.subs| && s.fraud.seat.k < |Exec(s, acts).bus.raw.subs|
    ensures var s' := Exec(s, acts);
            && Inv(s') && s'.bus.closed && s'.fraud.seat == s.fraud.seat
            && DrainSteps(acts) + Left(s') <= Left(s)
    decreases |acts|
  {
    assert s.fraud.seat.k < |s.bus.raw.subs|;
    hide Inv, Next, Enabled, Left, Counts;
    if acts != [] {
      StepsPay(s, acts[0]);
      Step(s, acts[0]);
      DrainStepsAreBounded(Next(s, acts[0]), acts[1..]);
    }
  }

  lemma NotEndedMeansWorkLeft(s: State)
    requires s.fraud.seat.Seat? && s.fraud.seat.k < |s.bus.raw.subs| && s.fraud.stage != Ended
    ensures Left(s) > 0
  {
  }

  /** From a closed broker the drain ends. In every run, whatever the verdicts and whoever else
      moves, the worker and the goroutine in Close take at most `Left(s)` steps; and as long
      as the worker has not ended they have taken fewer, and one of them can go on, whatever
      the rules say of the next event. */
  lemma DrainTerminates(s: State, acts: seq<Action>, judge: TrackingEvent -> ScreenedEvent)
    requires Inv(s) && s.bus.closed && s.fraud.seat.Seat? && Runs(s, acts) && Judges(judge)
    ensures s.fraud.seat.k < |s.bus.raw.subs| && s.fraud.seat.k < |Exec(s, acts).bus.raw.subs|
    ensures Exec(s, acts).fraud.seat == s.fraud.seat && DrainSteps(acts) <= Left(s)
    ensures var s' := Exec(s, acts);
            s'.fraud.stage != Ended ==>
              && DrainSteps(acts) < Left(s)
              && Counts(NextMove(s', judge)) == 1 && Enabled(s', NextMove(s', judge))
  {
    hide Inv, Runs, Exec, Left, Enabled;
    var s' := Exec(s, acts);
    DrainStepsAreBounded(s, acts);
    if s'.fraud.stage != Ended {
      ClosedFacts(s');
      NotEndedMeansWorkLeft(s');
      NextMoveIsEnabled(s', judge);
    }
  }

  // ---------------------------------------------------------- workers that come late

  /** The fraud worker, or the marketing worker, is late: it has no subscription, on a broker
      that takes no more. */
  ghost predicate FraudIsLate(s: State) {
    s.bus.closed && s.fraud.seat == NoSeat && s.fraud.stage in {Unsubscribed, Ended}
  }

  ghost predicate CrmIsLate(s: State) {
    s.bus.closed && s.crm.seat == NoSeat && s.crm.stage in {Off, Stopped}
  }

  lemma LateStep(s: State, a: Action)
    requires Enabled(s, a)
    ensures FraudIsLate(s) ==>
        && FraudIsLate(Next(s, a)) && Next(s, a).fraud.log == s.fraud.log
        && (Next(s, a).fraud.stage == Ended <==> s.fraud.stage == Ended || a.Fraud?)
    ensures CrmIsLate(s) ==>
        && CrmIsLate(Next(s, a)) && Next(s, a).crm.attempted == s.crm.attempted
        && (Next(s, a).crm.stage == Stopped <==> s.crm.stage == Stopped || a.Crm?)
  {
    OwnWorkerOnly(s, a);
    if BusPartOf(s, a).Part? {
      StaysClosed(s.bus, BusPartOf(s, a).a);
    }
    hide B.Apply, B.Enabled;
  }

  lemma StaysClosed(b: TheBus, a: BusAction)
    requires B.Enabled(b, a)
    ensures b.closed ==> B.Apply(b, a).closed
  {
    hide B.ApplyTopic, B.Shut;
  }

  /** A worker that has no subscription when the broker closes never gets one: its first step is
      its last, and it takes, saves and syncs nothing. */
  lemma {:induction false} LateWorkersEnd(s: State, acts: seq<Action>)
    requires Runs(s, acts)
    ensures FraudIsLate(s) ==>
        && Exec(s, acts).fraud.log == s.fraud.log
        && (Exec(s, acts).fraud.stage == Ended <==>
              s.fraud.stage == Ended || exists i :: 0 <= i < |acts| && acts[i].Fraud?)
    ensures CrmIsLate(s) ==>
        && Exec(s, acts).crm.attempted == s.crm.attempted
        && (Exec(s, acts).crm.stage == Stopped <==>
              s.crm.stage == Stopped || exists i :: 0 <= i < |acts| && acts[i].Crm?)
    decreases |acts|
  {
    hide Next, Enabled, FraudIsLate, CrmIsLate;
    if acts != [] {
      LateStep(s, acts[0]);
      LateWorkersEnd(Next(s, acts[0]), acts[1..]);
      var rest := acts[1..];
      assert forall i :: 0 <= i < |rest| ==> rest[i] == acts[i + 1];
      assert (exists i :: 0 <= i < |acts| && acts[i].Fraud?) <==>
             acts[0].Fraud? || exists i :: 0 <= i < |rest| && rest[i].Fraud?;
      assert (exists i :: 0 <= i < |acts| && acts[i].Crm?) <==>
             acts[0].Crm? || exists i :: 0 <= i < |rest| && rest[i].Crm?;
    }
  }
}
