/** Exactly when a purged user's events can come back without being ingested again. */
module Resurrections {
  import opened Events
  import opened Pipeline
  import opened PipelineInv
  import opened Continuations
  import opened Contacts
  import B = Bus
  import BusRuns

  // ------------------------------------------------------------- the condition

  /** The events of interest: the user's, and when `workflow` is set only those that trigger
      a CRM workflow. */
  predicate Concerns(e: TrackingEvent, user: string, workflow: bool) {
    e.userId == user && (workflow ==> Workflow(e.eventType) != "")
  }

  /** No running publish of such an event is still to reach subscriber `k`, and none of them
      waits in its channel. */
  ghost predicate ChannelClear(t: B.Topic<TrackingEvent>, k: nat, user: string, workflow: bool) {
    forall i: nat :: i < |t.calls| && Concerns(t.calls[i].event, user, workflow) ==>
      && !(t.calls[i].status == B.Active && t.calls[i].next <= k < t.calls[i].width)
      && (k < |t.subs| ==> i !in t.subs[k].queue)
  }

  /** Nothing of the user is on its way into the event store: the worker has ended, or its
      channel is clear and it does not hold an event of the user that it is about to save. */
  ghost predicate StoreClear(s: State, user: string) {
    || s.fraud.stage == Ended
    || ((s.fraud.seat.Seat? ==> ChannelClear(s.bus.raw, s.fraud.seat.k, user, false))
        && (s.fraud.stage == Saving && s.fraud.log != [] ==> Hand(s).verdict.event.userId != user))
  }

  /** Some continuation that ingests nothing for the user stores an event of the user. */
  ghost predicate CanReturn(s: State, user: string) {
    exists acts :: Runs(s, acts) && NoIngestOf(acts, user) && EventsOf(Exec(s, acts).store, user) != []
  }

  // ---------------------------------------------------- clear means gone for good

  lemma ChannelStaysClear(t: B.Topic<TrackingEvent>, cap: nat, closed: bool, a: B.TopicAction<TrackingEvent>, k: nat,
                          user: string, workflow: bool)
    requires B.TopicEnabled(t, cap, a) && ChannelClear(t, k, user, workflow) && k < |t.subs|
    requires a.Begin? ==> a.event.userId != user
    ensures ChannelClear(B.ApplyTopic(t, cap, closed, a), k, user, workflow)
  {
    var t' := B.ApplyTopic(t, cap, closed, a);
    forall i: nat | i < |t'.calls| && Concerns(t'.calls[i].event, user, workflow)
      ensures !(t'.calls[i].status == B.Active && t'.calls[i].next <= k < t'.calls[i].width) && i !in t'.subs[k].queue
    {
      assert i < |t.calls| && Concerns(t.calls[i].event, user, workflow);
    }
  }

  lemma NewChannelIsClear(t: B.Topic<TrackingEvent>, cap: nat, user: string, workflow: bool)
    requires !B.Busy(t)
    ensures ChannelClear(B.ApplyTopic(t, cap, false, B.Subscribe), |t.subs|, user, workflow)
  {
    forall i: nat | i < |t.calls| ensures t.calls[i].status != B.Active {
    }
  }

  lemma ShutChannelStaysClear(t: B.Topic<TrackingEvent>, j: nat, k: nat, user: string, workflow: bool)
    requires j < |t.subs| && ChannelClear(t, k, user, workflow)
    ensures ChannelClear(B.Shut(t, j), k, user, workflow)
  {
  }

  lemma RawStaysClear(b: TheBus, a: BusAction, k: nat, user: string, workflow: bool)
    requires B.Enabled(b, a) && k < |b.raw.subs| && ChannelClear(b.raw, k, user, workflow)
    requires a.Raw? && a.a.Begin? ==> a.a.event.userId != user
    ensures ChannelClear(B.Apply(b, a).raw, k, user, workflow)
  {
    match a
    case Raw(x) => ChannelStaysClear(b.raw, b.cap, b.closed, x, k, user, workflow);
    case CloseNext =>
      if b.closer.k < |b.raw.subs| {
        ShutChannelStaysClear(b.raw, b.closer.k, k, user, workflow);
      }
    case _ =>
  }

  lemma BusStaysClear(s: State, a: Action, user: string, workflow: bool)
    requires Enabled(s, a) && !Admits(a, user)
    requires s.fraud.seat.Seat? ==>
        s.fraud.seat.k < |s.bus.raw.subs| && ChannelClear(s.bus.raw, s.fraud.seat.k, user, workflow)
    ensures var s' := Next(s, a); s'.fraud.seat.Seat? ==> ChannelClear(s'.bus.raw, s'.fraud.seat.k, user, workflow)
  {
    SeatsAreFixed(s, a);
    if s.fraud.seat.Seat? && BusPartOf(s, a).Part? {
      assert var b := BusPartOf(s, a).a; b.Raw? && b.a.Begin? ==> b.a.event.userId != user;
      RawStaysClear(s.bus, BusPartOf(s, a).a, s.fraud.seat.k, user, workflow);
    }
    if BusPartOf(s, a) == Part(B.Raw(B.Subscribe)) {
      NewChannelIsClear(s.bus.raw, s.bus.cap, user, workflow);
    }
    hide B.Apply, ChannelClear;
  }

  lemma WorkerStaysClear(s: State, a: Action, user: string)
    requires Enabled(s, a) && StoreClear(s, user)
    ensures Next(s, a).fraud.stage == Saving && Next(s, a).fraud.log != [] ==>
        Hand(Next(s, a)).verdict.event.userId != user
    ensures s.fraud.stage == Ended ==> Next(s, a).fraud.stage == Ended
  {
    hide B.Apply, B.Enabled;
    OwnWorkerOnly(s, a);
    match a {
      case Fraud(TakeRaw(v)) =>
        var i := s.bus.raw.subs[s.fraud.seat.k].queue[0];
        assert i in s.bus.raw.subs[s.fraud.seat.k].queue;
      case Fraud(_) =>
      case _ =>
    }
  }

  lemma StaysStoreClear(s: State, a: Action, user: string)
    requires Inv(s) && Enabled(s, a) && StoreClear(s, user) && !Admits(a, user)
    ensures StoreClear(Next(s, a), user)
  {
    WorkerStaysClear(s, a, user);
    if s.fraud.stage != Ended {
      assert s.fraud.seat.Seat? ==> s.fraud.seat.k < |s.bus.raw.subs|;
      BusStaysClear(s, a, user, false);
    }
    hide Next, Inv, ChannelClear;
  }

  lemma ClearStoreStaysEmpty(s: State, a: Action, user: string)
    requires HandsAreReal(s) && Enabled(s, a) && StoreClear(s, user) && EventsOf(s.store, user) == []
    ensures EventsOf(Next(s, a).store, user) == []
  {
    hide B.Apply, B.Enabled, ChannelClear;
    match a {
      case Fraud(Save) =>
      case Crm(File) =>
      case Privacy(_) =>
      case _ => OwnStoreOnly(s, a);
    }
  }

  lemma {:induction false} ClearMeansGone(s: State, acts: seq<Action>, user: string)
    requires Inv(s) && StoreClear(s, user) && EventsOf(s.store, user) == []
    requires Runs(s, acts) && NoIngestOf(acts, user)
    ensures EventsOf(Exec(s, acts).store, user) == []
    decreases |acts|
  {
    if acts != [] {
      var rest := acts[1..];
      assert !Admits(acts[0], user);
      SoundHandsAreReal(s);
      ClearStoreStaysEmpty(s, acts[0], user);
      StaysStoreClear(s, acts[0], user);
      Step(s, acts[0]);
      forall j | 0 <= j < |rest| ensures !Admits(rest[j], user) {
        assert rest[j] == acts[j + 1];
      }
      ClearMeansGone(Next(s, acts[0]), rest, user);
    }
  }

  // ------------------------------------------------ not clear means it can return

  /** A run that ingests nothing at all. */
  ghost predicate Path(s: State, acts: seq<Action>) {
    Runs(s, acts) && forall i :: 0 <= i < |acts| ==> !(acts[i].Ingest? && acts[i].i.Accept?)
  }

  /** The marketing worker, the seats and the number of channels are as they were. */
  ghost predicate Beside(s: State, s': State) {
    && s'.crm == s.crm && s'.fraud.seat == s.fraud.seat
    && s'.bus.closed == s.bus.closed && s'.bus.cap == s.bus.cap
    && |s'.bus.raw.subs| == |s.bus.raw.subs| && |s'.bus.screened.subs| == |s.bus.screened.subs|
  }

  /** And so are the publishers and what waits in the raw channels. */
  ghost predicate RawAsBefore(s: State, s': State) {
    && Beside(s, s') && s'.bus.raw.calls == s.bus.raw.calls
    && forall k :: 0 <= k < |s.bus.raw.subs| ==> s'.bus.raw.subs[k].queue == s.bus.raw.subs[k].queue
  }

  lemma Stay(s: State)
    ensures Path(s, []) && Exec(s, []) == s
  {
  }

  lemma First(s: State, a: Action, rest: seq<Action>)
    requires Enabled(s, a) && !(a.Ingest? && a.i.Accept?) && Path(Next(s, a), rest)
    ensures Path(s, [a] + rest) && Exec(s, [a] + rest) == Exec(Next(s, a), rest)
  {
    assert ([a] + rest)[1..] == rest;
  }

  lemma Chain(s: State, one: seq<Action>, two: seq<Action>)
    requires Path(s, one) && Path(Exec(s, one), two)
    ensures Path(s, one + two) && Exec(s, one + two) == Exec(Exec(s, one), two)
  {
    RunsSplit(s, one, two);
  }

  function CloseMove(s: State): Action {
    var channels := |s.bus.raw.subs| + |s.bus.screened.subs|;
    World(if s.bus.closer.Closing? && s.bus.closer.k < channels then CloseNext else EndClose)
  }

  lemma CloseMoves(s: State)
    requires s.bus.closer.Closing? && s.bus.closer.k <= |s.bus.raw.subs| + |s.bus.screened.subs|
    ensures var a := CloseMove(s);
            && Enabled(s, a)
            && var s' := Next(s, a);
               && RawAsBefore(s, s') && s'.fraud == s.fraud && s'.store == s.store
               && (a.w.EndClose? ==> s'.bus.closer == B.NotClosing)
               && (a.w.CloseNext? ==> s'.bus.closer == B.Closing(s.bus.closer.k + 1)
                                      && |s'.bus.screened.subs| == |s.bus.screened.subs|)
  {
  }

  lemma RawAsBeforeChains(s: State, s': State, s'': State)
    requires RawAsBefore(s, s') && RawAsBefore(s', s'')
    ensures RawAsBefore(s, s'')
  {
  }

  /** A Close that is under way can run to its end. */
  lemma {:induction false} FinishClose(s: State) returns (acts: seq<Action>)
    requires Inv(s)
    ensures Path(s, acts)
    ensures var s' := Exec(s, acts);
            && Inv(s') && RawAsBefore(s, s') && s'.fraud == s.fraud && s'.store == s.store
            && s'.bus.closer == B.NotClosing
    decreases if s.bus.closer.Closing? then |s.bus.raw.subs| + |s.bus.screened.subs| - s.bus.closer.k else -1
  {
    if s.bus.closer == B.NotClosing {
      Stay(s);
      return [];
    }
    assert s.bus.closer.k <= |s.bus.raw.subs| + |s.bus.screened.subs|;
    CloseMoves(s);
    var a := CloseMove(s);
    Step(s, a);
    hide Inv, Next, Enabled, Path, Exec;
    var rest := [];
    if a.w.EndClose? {
      Stay(Next(s, a));
    } else {
      rest := FinishClose(Next(s, a));
      RawAsBeforeChains(s, Next(s, a), Exec(Next(s, a), rest));
    }
    First(s, a, rest);
    acts := [a] + rest;
  }

  /** The next move of the last screened publish. */
  function SendMove(s: State): Action
    requires s.bus.screened.calls != []
  {
    var c := s.bus.screened.calls[|s.bus.screened.calls| - 1];
    if c.status != B.Active then Fraud(Release)
    else Fraud(MoveScreened(if c.next >= c.width then Return else if c.expired then Cancel else Offer))
  }

  function SendLeft(s: State): nat {
    if s.bus.screened.calls == [] then 0 else
    var c := s.bus.screened.calls[|s.bus.screened.calls| - 1];
    if c.status == B.Active && c.next <= c.width then 2 + c.width - c.next else 1
  }

  /** While a publish runs, the broker is not closed, and neither is any channel. */
  lemma BusyMeansOpen(b: TheBus)
    requires B.Inv(b)
    ensures B.Busy(b.screened) ==> forall k :: 0 <= k < |b.screened.subs| ==> !b.screened.subs[k].closed
    ensures B.Busy(b.raw) ==> forall k :: 0 <= k < |b.raw.subs| ==> !b.raw.subs[k].closed
  {
    hide B.TopicInv;
  }

  lemma SendFacts(s: State)
    requires B.Inv(s.bus) && s.bus.screened.calls != []
    ensures var c := s.bus.screened.calls[|s.bus.screened.calls| - 1];
            && c.next <= c.width
            && (c.status == B.Active ==>
                c.width == |s.bus.screened.subs| && forall k :: 0 <= k < c.width ==> !s.bus.screened.subs[k].closed)
  {
    var n := |s.bus.screened.calls| - 1;
    assert B.CallInv(s.bus.screened, n);
    BusyMeansOpen(s.bus);
    if s.bus.screened.calls[n].status == B.Active {
      assert B.Busy(s.bus.screened);
    }
    hide B.Inv;
  }

  lemma SendMoves(s: State)
    requires s.fraud.stage == Sending && s.bus.screened.calls != []
    requires var c := s.bus.screened.calls[|s.bus.screened.calls| - 1];
             && c.next <= c.width
             && (c.status == B.Active ==>
                 c.width == |s.bus.screened.subs| && forall k :: 0 <= k < c.width ==> !s.bus.screened.subs[k].closed)
    ensures var a := SendMove(s);
            && Enabled(s, a)
            && var s' := Next(s, a);
               && RawAsBefore(s, s') && s'.store == s.store
               && s'.fraud == (if a == Fraud(Release) then s.fraud.(stage := Waiting) else s.fraud)
               && (a != Fraud(Release) ==> SendLeft(s') < SendLeft(s))
  {
  }

  /** The worker can get a publish out of its hands: by selects, or by its context. */
  lemma {:induction false} FinishSend(s: State) returns (acts: seq<Action>)
    requires Inv(s) && s.fraud.stage == Sending
    ensures Path(s, acts)
    ensures var s' := Exec(s, acts);
            Inv(s') && RawAsBefore(s, s') && s'.fraud == s.fraud.(stage := Waiting) && s'.store == s.store
    decreases SendLeft(s)
  {
    assert |s.bus.screened.calls| == |s.fraud.log| > 0;
    SendFacts(s);
    SendMoves(s);
    var a := SendMove(s);
    Step(s, a);
    hide Inv, Next, Enabled, Path, Exec, SendMove, SendLeft;
    var rest := [];
    if a == Fraud(Release) {
      Stay(Next(s, a));
    } else {
      rest := FinishSend(Next(s, a));
      RawAsBeforeChains(s, Next(s, a), Exec(Next(s, a), rest));
    }
    First(s, a, rest);
    acts := [a] + rest;
  }

  function HandMove(st: FraudStage): FraudAction {
    match st
    case Saving => Save
    case Counting => Tally
    case _ => Publish
  }

  function HandLeft(st: FraudStage): nat {
    match st
    case Saving => 3
    case Counting => 2
    case Publishing => 1
    case _ => 0
  }

  lemma HandMoves(s: State)
    requires s.fraud.stage in {Saving, Counting, Publishing} && s.fraud.log != []
    requires s.bus.closer == B.NotClosing
    ensures var a := Fraud(HandMove(s.fraud.stage));
            && Enabled(s, a)
            && var s' := Next(s, a);
               && RawAsBefore(s, s') && InHand(s'.fraud.stage) && s'.fraud.log == s.fraud.log
               && HandLeft(s'.fraud.stage) < HandLeft(s.fraud.stage)
               && (s.fraud.stage == Saving ==> EventsOf(s'.store, Hand(s).verdict.event.userId) != [])
  {
  }

  /** Whatever the worker holds, it can be done with it and wait for the next event. */
  lemma {:induction false} FinishHand(s: State) returns (acts: seq<Action>)
    requires Inv(s) && InHand(s.fraud.stage)
    ensures Path(s, acts)
    ensures var s' := Exec(s, acts); Inv(s') && RawAsBefore(s, s') && s'.fraud.stage == Waiting
    decreases HandLeft(s.fraud.stage)
  {
    if s.fraud.stage == Sending {
      acts := FinishSend(s);
      return;
    }
    assert s.fraud.log != [];
    var close := FinishClose(s);
    var s1 := Exec(s, close);
    HandMoves(s1);
    var a := Fraud(HandMove(s1.fraud.stage));
    Step(s1, a);
    hide Inv, Next, Enabled, Path, Exec, HandMove, HandLeft;
    var rest := FinishHand(Next(s1, a));
    RawAsBeforeChains(s1, Next(s1, a), Exec(Next(s1, a), rest));
    RawAsBeforeChains(s, s1, Exec(Next(s1, a), rest));
    First(s1, a, rest);
    Chain(s, close, [a] + rest);
    acts := close + ([a] + rest);
  }

  /** Take the head of the worker's channel, whatever the verdict. */
  function Take(s: State): Action
    requires s.fraud.seat.Seat? && s.fraud.seat.k < |s.bus.raw.subs| && s.bus.raw.subs[s.fraud.seat.k].queue != []
    requires s.bus.raw.subs[s.fraud.seat.k].queue[0] < |s.bus.raw.calls|
  {
    Fraud(TakeRaw(ScreenedEvent(s.bus.raw.calls[s.bus.raw.subs[s.fraud.seat.k].queue[0]].event, false, 0, "", 0)))
  }

  lemma QueuedAreCalls(s: State, k: nat)
    requires Inv(s) && k < |s.bus.raw.subs|
    ensures forall i :: 0 <= i < |s.bus.raw.subs[k].queue| ==> s.bus.raw.subs[k].queue[i] < |s.bus.raw.calls|
  {
    var q := s.bus.raw.subs[k];
    BusRuns.Delivery(s.bus.raw, s.bus.cap, k);
    forall i | 0 <= i < |q.queue| ensures q.queue[i] < |s.bus.raw.calls| {
      assert q.queue[i] in q.received + q.queue;
    }
  }

  lemma TakeMoves(s: State)
    requires s.fraud.stage == Waiting && s.fraud.seat.Seat? && s.fraud.seat.k < |s.bus.raw.subs|
    requires var q := s.bus.raw.subs[s.fraud.seat.k].queue; q != [] && q[0] < |s.bus.raw.calls|
    ensures var a, k := Take(s), s.fraud.seat.k;
            && Enabled(s, a)
            && var s' := Next(s, a);
               && s'.fraud.stage == Saving && s'.fraud.log != [] && Hand(s').verdict == a.f.verdict
               && Hand(s').verdict.event == s.bus.raw.calls[s.bus.raw.subs[k].queue[0]].event
               && !Hand(s').verdict.fraudulent
               && Beside(s, s') && s'.bus.raw.calls == s.bus.raw.calls
               && s'.bus.raw.subs[k].queue == s.bus.raw.subs[k].queue[1..]
  {
  }

  /** An event of the user in the worker's hand can be saved. */
  lemma HandLands(s: State, user: string) returns (acts: seq<Action>)
    requires Inv(s) && s.fraud.stage == Saving && Hand(s).verdict.event.userId == user
    ensures Path(s, acts) && EventsOf(Exec(s, acts).store, user) != []
  {
    var close := FinishClose(s);
    var s1 := Exec(s, close);
    HandMoves(s1);
    var a := Fraud(Save);
    Stay(Next(s1, a));
    First(s1, a, []);
    hide Inv, Next, Enabled, Path, Exec;
    Chain(s, close, [a] + []);
    acts := close + ([a] + []);
  }

  /** The worker takes the head of its channel and is done with it. */
  lemma TakeOne(s: State) returns (acts: seq<Action>)
    requires Inv(s) && s.fraud.stage == Waiting && s.fraud.seat.Seat? && s.fraud.seat.k < |s.bus.raw.subs|
    requires s.bus.raw.subs[s.fraud.seat.k].queue != []
    ensures Path(s, acts)
    ensures var s', k := Exec(s, acts), s.fraud.seat.k;
            && Inv(s') && s'.fraud.stage == Waiting && Beside(s, s') && s'.bus.raw.calls == s.bus.raw.calls
            && s'.bus.raw.subs[k].queue == s.bus.raw.subs[k].queue[1..]
  {
    QueuedAreCalls(s, s.fraud.seat.k);
    TakeMoves(s);
    var a := Take(s);
    Step(s, a);
    hide Inv, Next, Enabled, Path, Exec, Take;
    var rest := FinishHand(Next(s, a));
    First(s, a, rest);
    acts := [a] + rest;
  }

  lemma HeadLands(s: State, user: string) returns (acts: seq<Action>)
    requires Inv(s) && s.fraud.stage == Waiting && s.fraud.seat.Seat? && s.fraud.seat.k < |s.bus.raw.subs|
    requires var q := s.bus.raw.subs[s.fraud.seat.k].queue;
             q != [] && q[0] < |s.bus.raw.calls| && s.bus.raw.calls[q[0]].event.userId == user
    ensures Path(s, acts) && EventsOf(Exec(s, acts).store, user) != []
  {
    TakeMoves(s);
    var a := Take(s);
    Step(s, a);
    hide Inv, Next, Enabled, Path, Exec, Take;
    var rest := HandLands(Next(s, a), user);
    First(s, a, rest);
    acts := [a] + rest;
  }

  /** An event of the user in the worker's channel can be reached and saved. */
  lemma {:induction false} QueueLands(s: State, user: string, p: nat) returns (acts: seq<Action>)
    requires Inv(s) && s.fraud.stage == Waiting && s.fraud.seat.Seat? && s.fraud.seat.k < |s.bus.raw.subs|
    requires var q := s.bus.raw.subs[s.fraud.seat.k].queue;
             p < |q| && q[p] < |s.bus.raw.calls| && s.bus.raw.calls[q[p]].event.userId == user
    ensures Path(s, acts) && EventsOf(Exec(s, acts).store, user) != []
    decreases p
  {
    hide Inv, Next, Enabled, Exec, Runs;
    if p == 0 {
      acts := HeadLands(s, user);
    } else {
      var one := TakeOne(s);
      var more := QueueLands(Exec(s, one), user, p - 1);
      Chain(s, one, more);
      acts := one + more;
    }
  }

  /** What the select due does when it sends. */
  lemma OfferMoves(s: State, i: nat)
    requires B.CanOffer(s.bus.raw, s.bus.cap, i) && !s.bus.raw.subs[s.bus.raw.calls[i].next].closed
    ensures var a, n := Ingest(Move(i, Offer)), s.bus.raw.calls[i].next;
            && Enabled(s, a)
            && var s' := Next(s, a);
               && s'.fraud == s.fraud && Beside(s, s') && |s'.bus.raw.calls| == |s.bus.raw.calls|
               && s'.bus.raw.calls[i] == s.bus.raw.calls[i].(next := n + 1)
               && (|s.bus.raw.subs[n].queue| < s.bus.cap ==> s'.bus.raw.subs[n].queue == s.bus.raw.subs[n].queue + [i])
  {
  }

  lemma DrainMoves(s: State, k: nat)
    requires k < |s.bus.raw.subs| && s.bus.raw.subs[k].queue != [] && s.fraud.seat != Seat(k)
    ensures var a := World(DrainRaw(k));
            && Enabled(s, a)
            && var s' := Next(s, a);
               && s'.fraud == s.fraud && Beside(s, s') && s'.bus.raw.calls == s.bus.raw.calls
               && s'.bus.raw.subs[k].queue == s.bus.raw.subs[k].queue[1..]
  {
  }

  lemma ActiveFacts(s: State, i: nat)
    requires B.Inv(s.bus) && B.IsActive(s.bus.raw, i)
    ensures var c := s.bus.raw.calls[i];
            && c.width == |s.bus.raw.subs|
            && forall k :: 0 <= k < |s.bus.raw.subs| ==>
                !s.bus.raw.subs[k].closed && |s.bus.raw.subs[k].queue| <= s.bus.cap
  {
    assert B.CallInv(s.bus.raw, i);
    assert B.Busy(s.bus.raw);
    BusyMeansOpen(s.bus);
    forall k | 0 <= k < |s.bus.raw.subs| ensures |s.bus.raw.subs[k].queue| <= s.bus.cap {
      assert B.SubInv(s.bus.raw.subs[k], s.bus.cap);
    }
    hide B.Inv;
  }

  /** A publish that is still to reach the worker's channel can reach it: other subscribers
      and the worker make room where a buffer is full. */
  lemma {:induction false} CallQueues(s: State, i: nat) returns (acts: seq<Action>)
    requires Inv(s) && s.bus.cap > 0 && s.fraud.stage == Waiting && s.fraud.seat.Seat? && B.IsActive(s.bus.raw, i)
    requires s.bus.raw.calls[i].next <= s.fraud.seat.k < s.bus.raw.calls[i].width == |s.bus.raw.subs|
    ensures Path(s, acts)
    ensures var s' := Exec(s, acts);
            && Inv(s') && s'.fraud.stage == Waiting && Beside(s, s') && i in s'.bus.raw.subs[s.fraud.seat.k].queue
            && |s'.bus.raw.calls| == |s.bus.raw.calls| && s'.bus.raw.calls[i].event == s.bus.raw.calls[i].event
    decreases s.fraud.seat.k - s.bus.raw.calls[i].next, |s.bus.raw.subs[s.bus.raw.calls[i].next].queue|
  {
    ActiveFacts(s, i);
    var n, k := s.bus.raw.calls[i].next, s.fraud.seat.k;
    if |s.bus.raw.subs[n].queue| < s.bus.cap {
      OfferMoves(s, i);
      var a := Ingest(Move(i, Offer));
      Step(s, a);
      hide Inv, Next, Enabled, Path, Exec;
      var rest := [];
      if n == k {
        Stay(Next(s, a));
      } else {
        rest := CallQueues(Next(s, a), i);
      }
      First(s, a, rest);
      acts := [a] + rest;
    } else if n < k {
      DrainMoves(s, n);
      var a := World(DrainRaw(n));
      Step(s, a);
      hide Inv, Next, Enabled, Path, Exec;
      var rest := CallQueues(Next(s, a), i);
      First(s, a, rest);
      acts := [a] + rest;
    } else {
      hide Inv, Next, Enabled, Exec, Runs;
      var one := TakeOne(s);
      var more := CallQueues(Exec(s, one), i);
      Chain(s, one, more);
      acts := one + more;
    }
  }

  /** Whatever keeps the channel from being clear can be brought into the queue. */
  lemma UnclearQueues(s: State, user: string, workflow: bool) returns (acts: seq<Action>, i: nat)
    requires Inv(s) && s.bus.cap > 0 && s.fraud.stage == Waiting && s.fraud.seat.Seat?
    requires !ChannelClear(s.bus.raw, s.fraud.seat.k, user, workflow)
    ensures s.fraud.seat.k < |s.bus.raw.subs| && Path(s, acts)
    ensures var s' := Exec(s, acts);
            && Inv(s') && s'.fraud.stage == Waiting && Beside(s, s') && i in s'.bus.raw.subs[s.fraud.seat.k].queue
            && i < |s'.bus.raw.calls| && Concerns(s'.bus.raw.calls[i].event, user, workflow)
  {
    var t, k := s.bus.raw, s.fraud.seat.k;
    assert k < |t.subs|;
    i :| i < |t.calls| && Concerns(t.calls[i].event, user, workflow) &&
      ((t.calls[i].status == B.Active && t.calls[i].next <= k < t.calls[i].width) || i in t.subs[k].queue);
    if i in t.subs[k].queue {
      acts := [];
      Stay(s);
    } else {
      ActiveFacts(s, i);
      hide Inv, Exec, Path;
      acts := CallQueues(s, i);
    }
  }

  lemma WaitingLands(s: State, user: string) returns (acts: seq<Action>)
    requires Inv(s) && s.bus.cap > 0 && s.fraud.stage == Waiting && s.fraud.seat.Seat?
    requires !ChannelClear(s.bus.raw, s.fraud.seat.k, user, false)
    ensures Path(s, acts) && EventsOf(Exec(s, acts).store, user) != []
  {
    hide Inv, Next, Enabled, Exec, Runs, ChannelClear;
    var i;
    acts, i := UnclearQueues(s, user, false);
    var s' := Exec(s, acts);
    var q := s'.bus.raw.subs[s.fraud.seat.k].queue;
    var p :| 0 <= p < |q| && q[p] == i;
    var rest := QueueLands(s', user, p);
    Chain(s, acts, rest);
    acts := acts + rest;
  }

  lemma SeatedUnlessOff(s: State)
    requires Inv(s) && s.fraud.stage !in {Unsubscribed, Ended}
    ensures s.fraud.seat.Seat? && (s.fraud.stage == Waiting || InHand(s.fraud.stage))
  {
  }

  lemma ClearIsAboutTheRawSide(s: State, s': State, k: nat, user: string, workflow: bool)
    requires RawAsBefore(s, s') && k < |s.bus.raw.subs|
    ensures ChannelClear(s.bus.raw, k, user, workflow) <==> ChannelClear(s'.bus.raw, k, user, workflow)
  {
  }

  lemma UnclearCanLand(s: State, user: string) returns (acts: seq<Action>)
    requires Inv(s) && s.bus.cap > 0 && !StoreClear(s, user)
    ensures Path(s, acts) && EventsOf(Exec(s, acts).store, user) != []
  {
    assert s.fraud.seat.Seat? ==> s.fraud.seat.k < |s.bus.raw.subs|;
    if s.fraud.stage != Unsubscribed {
      SeatedUnlessOff(s);
    }
    hide Inv, Next, Enabled, Exec, Runs, ChannelClear;
    if s.fraud.stage == Saving && s.fraud.log != [] && Hand(s).verdict.event.userId == user {
      acts := HandLands(s, user);
    } else if s.fraud.stage == Waiting {
      acts := WaitingLands(s, user);
    } else {
      var done := FinishHand(s);
      ClearIsAboutTheRawSide(s, Exec(s, done), s.fraud.seat.k, user, false);
      var rest := WaitingLands(Exec(s, done), user);
      Chain(s, done, rest);
      acts := done + rest;
    }
  }

  /** A user wiped from the event store can come back without being ingested again if and
      only if something of the user is on its way into the store: a publish that has yet to
      reach the fraud worker's channel, an event queued there, or one about to be saved. */
  lemma ReturnsExactlyWhenInFlight(s: State, user: string)
    requires Inv(s) && s.bus.cap > 0 && EventsOf(s.store, user) == []
    ensures CanReturn(s, user) <==> !StoreClear(s, user)
  {
    if StoreClear(s, user) {
      forall acts | Runs(s, acts) && NoIngestOf(acts, user) ensures EventsOf(Exec(s, acts).store, user) == [] {
        ClearMeansGone(s, acts, user);
      }
    } else {
      var acts := UnclearCanLand(s, user);
      assert NoIngestOf(acts, user);
    }
  }

  /** Every broker has room for at least one event. */
  lemma {:induction false} CapacityIsPositive(s: State, acts: seq<Action>)
    requires s.bus.cap > 0 && Runs(s, acts)
    ensures Exec(s, acts).bus.cap > 0
    decreases |acts|
  {
    if acts != [] {
      assert Next(s, acts[0]).bus.cap == s.bus.cap;
      CapacityIsPositive(Next(s, acts[0]), acts[1..]);
    }
  }
}
