/** Exactly when a purged user can come back into the contact store, and so exactly when a
    purge is final. */
module ContactReturns {
  import opened Events
  import opened Contacts
  import opened Pipeline
  import opened PipelineInv
  import opened Continuations
  import opened Resurrections
  import B = Bus
  import BusRuns

  // ------------------------------------------------------------- the condition

  /** A verdict that the marketing worker would file for the user. */
  predicate Bound(v: ScreenedEvent, user: string) {
    Qualifies(v) && v.event.userId == user
  }

  predicate Unpublished(st: FraudStage) {
    st in {Saving, Counting, Publishing}
  }

  /** The marketing worker holds nothing of the user. */
  ghost predicate InHandClear(s: State, user: string) {
    CrmInHand(s.crm.stage) && s.crm.current < |s.bus.screened.calls| ==>
      s.bus.screened.calls[s.crm.current].event.event.userId != user
  }

  /** Nothing bound for the user waits in channel `k`. */
  ghost predicate QueueClear(t: B.Topic<ScreenedEvent>, k: nat, user: string) {
    forall i: nat :: i < |t.calls| && Bound(t.calls[i].event, user) && k < |t.subs| ==> i !in t.subs[k].queue
  }

  /** The last publish runs and is still to reach channel `k` with an event bound for the user. */
  ghost predicate Approaches(t: B.Topic<ScreenedEvent>, k: nat, user: string) {
    t.calls != [] &&
    var c := t.calls[|t.calls| - 1];
    c.status == B.Active && c.next <= k < c.width && Bound(c.event, user)
  }

  ghost predicate SendClear(s: State, user: string) {
    s.fraud.stage == Sending && s.crm.seat.Seat? ==> !Approaches(s.bus.screened, s.crm.seat.k, user)
  }

  /** The fraud worker has nothing to publish that is bound for the user, and nothing is on its
      way to it that might be; a closed broker takes no publish in. */
  ghost predicate UpstreamClear(s: State, user: string) {
    || s.bus.closed
    || ((Unpublished(s.fraud.stage) && s.fraud.log != [] ==> !Bound(Hand(s).verdict, user))
        && (s.fraud.stage != Ended && s.fraud.seat.Seat? ==> ChannelClear(s.bus.raw, s.fraud.seat.k, user, true)))
  }

  /** Nothing of the user is on its way into the contact store. */
  ghost predicate ContactClear(s: State, user: string) {
    || s.crm.stage == Stopped
    || (InHandClear(s, user) && (s.crm.seat.Seat? ==> QueueClear(s.bus.screened, s.crm.seat.k, user))
        && SendClear(s, user) && UpstreamClear(s, user))
  }

  // ---------------------------------------------------- clear means gone for good

  lemma HandStaysClear(s: State, a: Action, user: string)
    requires Enabled(s, a) && HandsAreReal(s) && InHandClear(s, user)
    requires s.crm.seat.Seat? ==> QueueClear(s.bus.screened, s.crm.seat.k, user)
    ensures InHandClear(Next(s, a), user)
  {
    BusIsKept(s, a);
    OwnWorkerOnly(s, a);
    hide B.Apply, B.Enabled, Qualifies;
    if a.Crm? && a.c.TakeScreened? {
      var i := s.bus.screened.subs[s.crm.seat.k].queue[0];
      assert i in s.bus.screened.subs[s.crm.seat.k].queue;
    }
  }

  ghost predicate QueueNamesCalls(t: B.Topic<ScreenedEvent>, k: nat) {
    k < |t.subs| && forall x :: x in t.subs[k].queue ==> x < |t.calls|
  }

  lemma TopicStaysQueueClear(t: B.Topic<ScreenedEvent>, cap: nat, closed: bool, a: B.TopicAction<ScreenedEvent>,
                             k: nat, user: string)
    requires B.TopicEnabled(t, cap, a) && QueueClear(t, k, user) && QueueNamesCalls(t, k)
    requires a.Offer? && t.calls[a.call].next == k ==> !Bound(t.calls[a.call].event, user)
    ensures QueueClear(B.ApplyTopic(t, cap, closed, a), k, user)
    ensures a.Subscribe? ==> QueueClear(B.ApplyTopic(t, cap, closed, a), |t.subs|, user)
  {
    hide Bound;
    var t' := B.ApplyTopic(t, cap, closed, a);
    forall i: nat | i < |t'.calls| && Bound(t'.calls[i].event, user) ensures i !in t'.subs[k].queue {
      assert i < |t.calls| ==> t'.calls[i].event == t.calls[i].event;
    }
  }

  lemma QueuedScreenedAreCalls(s: State, k: nat)
    requires B.Inv(s.bus) && k < |s.bus.screened.subs|
    ensures QueueNamesCalls(s.bus.screened, k)
  {
    var sub := s.bus.screened.subs[k];
    BusRuns.Delivery(s.bus.screened, s.bus.cap, k);
    forall x | x in sub.queue ensures x < |s.bus.screened.calls| {
      assert x in sub.received + sub.queue;
    }
  }

  /** Whoever offers an event to the worker's channel, it is the last publish, under way. */
  lemma OffersAreTheLast(s: State, a: Action, user: string)
    requires Enabled(s, a) && SendClear(s, user) && s.crm.seat.Seat? && BusPartOf(s, a).Part?
    ensures var b := BusPartOf(s, a).a;
            b.Screened? && b.b.Offer? && s.bus.screened.calls[b.b.call].next == s.crm.seat.k ==>
              !Bound(s.bus.screened.calls[b.b.call].event, user)
  {
    hide Bound;
  }

  lemma ShutKeepsQueueClear(t: B.Topic<ScreenedEvent>, j: nat, k: nat, user: string)
    requires j < |t.subs| && QueueClear(t, k, user)
    ensures QueueClear(B.Shut(t, j), k, user)
  {
    hide Bound;
  }

  lemma BusStaysQueueClear(b: TheBus, a: BusAction, k: nat, user: string)
    requires B.Enabled(b, a) && QueueClear(b.screened, k, user) && QueueNamesCalls(b.screened, k)
    requires a.Screened? && a.b.Offer? && b.screened.calls[a.b.call].next == k ==>
        !Bound(b.screened.calls[a.b.call].event, user)
    ensures QueueClear(B.Apply(b, a).screened, k, user)
  {
    match a
    case Screened(x) => TopicStaysQueueClear(b.screened, b.cap, b.closed, x, k, user);
    case CloseNext =>
      if b.closer.k >= |b.raw.subs| {
        ShutKeepsQueueClear(b.screened, b.closer.k - |b.raw.subs|, k, user);
      }
    case _ =>
  }

  lemma NewQueueIsClear(t: B.Topic<ScreenedEvent>, cap: nat, user: string)
    ensures QueueClear(B.ApplyTopic(t, cap, false, B.Subscribe), |t.subs|, user)
  {
    hide Bound;
  }

  lemma QueueStaysClear(s: State, a: Action, user: string)
    requires B.Inv(s.bus) && Enabled(s, a) && SendClear(s, user)
    requires s.crm.seat.Seat? ==> s.crm.seat.k < |s.bus.screened.subs| && QueueClear(s.bus.screened, s.crm.seat.k, user)
    ensures var s' := Next(s, a); s'.crm.seat.Seat? ==> QueueClear(s'.bus.screened, s'.crm.seat.k, user)
  {
    SeatsAreFixed(s, a);
    hide B.Inv, B.Apply, QueueClear, Next, QueueNamesCalls;
    if s.crm.seat.Seat? && BusPartOf(s, a).Part? {
      QueuedScreenedAreCalls(s, s.crm.seat.k);
      OffersAreTheLast(s, a, user);
      BusStaysQueueClear(s.bus, BusPartOf(s, a).a, s.crm.seat.k, user);
    }
    if BusPartOf(s, a) == Part(B.Screened(B.Subscribe)) {
      NewQueueIsClear(s.bus.screened, s.bus.cap, user);
      assert Next(s, a).crm.seat == Seat(|s.bus.screened.subs|) ==>
        Next(s, a).bus.screened == B.ApplyTopic(s.bus.screened, s.bus.cap, false, B.Subscribe) by {
        SubscribesOpen(s, a);
      }
    }
  }

  lemma SubscribesOpen(s: State, a: Action)
    requires Enabled(s, a) && BusPartOf(s, a) == Part(B.Screened(B.Subscribe))
    ensures !s.bus.closed && !B.Busy(s.bus.screened)
    ensures Next(s, a).bus.screened == B.ApplyTopic(s.bus.screened, s.bus.cap, false, B.Subscribe)
  {
  }

  // The last publish.

  lemma MoveStaysClear(t: B.Topic<ScreenedEvent>, cap: nat, m: CallMove, k: nat, user: string)
    requires t.calls != [] && B.TopicEnabled(t, cap, TopicMove(|t.calls| - 1, m)) && !Approaches(t, k, user)
    ensures !Approaches(B.ApplyTopic(t, cap, false, TopicMove(|t.calls| - 1, m)), k, user)
    ensures !Approaches(B.ApplyTopic(t, cap, true, TopicMove(|t.calls| - 1, m)), k, user)
  {
    hide Bound;
  }

  lemma MovesComeFromSending(s: State, m: CallMove, user: string)
    requires Enabled(s, Fraud(MoveScreened(m))) && SendClear(s, user)
    ensures SendClear(Next(s, Fraud(MoveScreened(m))), user)
  {
    if s.crm.seat.Seat? {
      MoveStaysClear(s.bus.screened, s.bus.cap, m, s.crm.seat.k, user);
    }
    hide Approaches;
  }

  lemma PublishesNothingBound(s: State, user: string)
    requires Enabled(s, Fraud(Publish)) && UpstreamClear(s, user)
    ensures SendClear(Next(s, Fraud(Publish)), user)
  {
    hide Bound, ChannelClear;
  }

  lemma OtherStepsKeepCalls(s: State, a: Action)
    requires Enabled(s, a) && a != Fraud(Publish) && !(a.Fraud? && a.f.MoveScreened?)
    ensures Next(s, a).bus.screened.calls == s.bus.screened.calls
  {
  }

  lemma NewSeatsSeeNoPublish(s: State, a: Action)
    requires Enabled(s, a) && s.bus.screened.calls != [] && Next(s, a).crm.seat != s.crm.seat
    ensures s.bus.screened.calls[|s.bus.screened.calls| - 1].status != B.Active
  {
    SeatsAreFixed(s, a);
    SubscribesOpen(s, a);
    var n: nat := |s.bus.screened.calls| - 1;
    assert n < |s.bus.screened.calls|;
  }

  lemma OnlyPublishStartsSending(s: State, a: Action)
    requires Enabled(s, a) && a != Fraud(Publish) && Next(s, a).fraud.stage == Sending
    ensures s.fraud.stage == Sending
  {
    if !a.Fraud? {
      OwnWorkerOnly(s, a);
    }
    hide B.Apply, B.Enabled;
  }

  lemma SendStaysClear(s: State, a: Action, user: string)
    requires Enabled(s, a) && SendClear(s, user) && UpstreamClear(s, user)
    ensures SendClear(Next(s, a), user)
  {
    hide Next, Enabled, UpstreamClear;
    if a == Fraud(Publish) {
      PublishesNothingBound(s, user);
    } else if a.Fraud? && a.f.MoveScreened? {
      MovesComeFromSending(s, a.f.move, user);
    } else if Next(s, a).fraud.stage == Sending {
      OtherStepsKeepCalls(s, a);
      OnlyPublishStartsSending(s, a);
      if s.bus.screened.calls != [] && Next(s, a).crm.seat != s.crm.seat {
        NewSeatsSeeNoPublish(s, a);
      }
    }
  }

  // Upstream.

  lemma TakeStaysClear(s: State, v: ScreenedEvent, user: string)
    requires Enabled(s, Fraud(TakeRaw(v))) && ChannelClear(s.bus.raw, s.fraud.seat.k, user, true)
    ensures !Bound(v, user)
  {
    var i := s.bus.raw.subs[s.fraud.seat.k].queue[0];
    assert i in s.bus.raw.subs[s.fraud.seat.k].queue;
  }

  lemma UnpublishedStaysClear(s: State, a: Action, user: string)
    requires Enabled(s, a) && UpstreamClear(s, user) && !s.bus.closed && HandsAreReal(s)
    ensures var s' := Next(s, a); Unpublished(s'.fraud.stage) && s'.fraud.log != [] ==> !Bound(Hand(s').verdict, user)
    ensures s.fraud.stage == Ended ==> Next(s, a).fraud.stage == Ended
  {
    hide B.Apply, B.Enabled, Bound, ChannelClear;
    if !a.Fraud? {
      OwnWorkerOnly(s, a);
    } else if a.f.TakeRaw? {
      TakeStaysClear(s, a.f.verdict, user);
    }
  }

  lemma ClosedStaysClosed(s: State, a: Action)
    requires Enabled(s, a) && s.bus.closed
    ensures Next(s, a).bus.closed
  {
  }

  lemma UpstreamStaysClear(s: State, a: Action, user: string)
    requires Enabled(s, a) && UpstreamClear(s, user) && HandsAreReal(s) && !Admits(a, user)
    requires s.fraud.seat.Seat? ==> s.fraud.seat.k < |s.bus.raw.subs|
    ensures UpstreamClear(Next(s, a), user)
  {
    if s.bus.closed {
      ClosedStaysClosed(s, a);
    } else {
      UnpublishedStaysClear(s, a, user);
      if s.fraud.stage != Ended {
        BusStaysClear(s, a, user, true);
      }
    }
    hide Next, Enabled, ChannelClear, Bound;
  }

  // All of it.

  lemma StoppedStaysStopped(s: State, a: Action)
    requires Enabled(s, a) && s.crm.stage == Stopped
    ensures Next(s, a).crm.stage == Stopped
  {
    if !a.Crm? {
      OwnWorkerOnly(s, a);
    }
  }

  lemma StaysContactClear(s: State, a: Action, user: string)
    requires Inv(s) && Enabled(s, a) && ContactClear(s, user) && !Admits(a, user)
    ensures ContactClear(Next(s, a), user)
  {
    SoundHandsAreReal(s);
    assert s.fraud.seat.Seat? ==> s.fraud.seat.k < |s.bus.raw.subs|;
    assert s.crm.seat.Seat? ==> s.crm.seat.k < |s.bus.screened.subs|;
    hide Inv, Next, Enabled, InHandClear, QueueClear, SendClear, UpstreamClear, HandsAreReal;
    if s.crm.stage == Stopped {
      StoppedStaysStopped(s, a);
    } else {
      HandStaysClear(s, a, user);
      QueueStaysClear(s, a, user);
      SendStaysClear(s, a, user);
      UpstreamStaysClear(s, a, user);
    }
  }

  lemma ClearContactsStayEmpty(s: State, a: Action, user: string)
    requires HandsAreReal(s) && Enabled(s, a) && ContactClear(s, user) && user !in s.store.contacts
    ensures user !in Next(s, a).store.contacts
  {
    hide B.Apply, B.Enabled, QueueClear, SendClear, UpstreamClear, Workflow, EmailOf;
    match a {
      case Fraud(Save) =>
      case Crm(File) =>
      case Privacy(_) =>
      case _ => OwnStoreOnly(s, a);
    }
  }

  lemma {:induction false} ClearMeansNoContact(s: State, acts: seq<Action>, user: string)
    requires Inv(s) && ContactClear(s, user) && user !in s.store.contacts
    requires Runs(s, acts) && NoIngestOf(acts, user)
    ensures user !in Exec(s, acts).store.contacts
    decreases |acts|
  {
    if acts != [] {
      var rest := acts[1..];
      assert !Admits(acts[0], user);
      SoundHandsAreReal(s);
      hide Inv, Next, Enabled, ContactClear;
      ClearContactsStayEmpty(s, acts[0], user);
      StaysContactClear(s, acts[0], user);
      Step(s, acts[0]);
      forall j | 0 <= j < |rest| ensures !Admits(rest[j], user) {
        assert rest[j] == acts[j + 1];
      }
      ClearMeansNoContact(Next(s, acts[0]), rest, user);
    }
  }

  // ------------------------------------------------ not clear means it can return

  /** Only the marketing worker moved, and what waits in its channel. */
  ghost predicate CrmOnly(s: State, s': State) {
    && s'.fraud == s.fraud && s'.crm.seat == s.crm.seat && s'.bus.raw == s.bus.raw
    && s'.bus.closed == s.bus.closed && s'.bus.cap == s.bus.cap
    && s'.bus.screened.calls == s.bus.screened.calls && |s'.bus.screened.subs| == |s.bus.screened.subs|
  }

  function SyncMove(st: CrmStage): CrmAction {
    match st
    case Attempting => Attempt
    case Syncing => Sync(true)
    case Settling(_) => Settle
    case _ => File
  }

  function SyncLeft(st: CrmStage): nat {
    match st
    case Attempting => 4
    case Syncing => 3
    case Settling(_) => 2
    case Storing(_) => 1
    case _ => 0
  }

  lemma SyncMoves(s: State)
    requires CrmInHand(s.crm.stage) && s.crm.current < |s.bus.screened.calls|
    ensures var a := Crm(SyncMove(s.crm.stage));
            && Enabled(s, a)
            && var s' := Next(s, a);
               && s'.bus == s.bus && s'.fraud == s.fraud && s'.crm.seat == s.crm.seat && s'.crm.current == s.crm.current
               && SyncLeft(s'.crm.stage) < SyncLeft(s.crm.stage)
               && (if a == Crm(File)
                   then s'.crm.stage == Idle
                        && s.bus.screened.calls[s.crm.current].event.event.userId in s'.store.contacts
                   else CrmInHand(s'.crm.stage))
  {
    hide Workflow, EmailOf;
  }

  /** What the marketing worker holds is filed in the end. */
  lemma {:induction false} FinishSync(s: State) returns (acts: seq<Action>)
    requires Inv(s) && CrmInHand(s.crm.stage)
    ensures s.crm.current < |s.bus.screened.calls| && Path(s, acts)
    ensures var s' := Exec(s, acts);
            && Inv(s') && s'.bus == s.bus && s'.fraud == s.fraud && s'.crm.seat == s.crm.seat && s'.crm.stage == Idle
            && s.bus.screened.calls[s.crm.current].event.event.userId in s'.store.contacts
    decreases SyncLeft(s.crm.stage)
  {
    SoundHandsAreReal(s);
    SyncMoves(s);
    var a := Crm(SyncMove(s.crm.stage));
    Step(s, a);
    hide Inv, Next, Enabled, Path, Exec, SyncMove, SyncLeft;
    var rest := [];
    if a == Crm(File) {
      Stay(Next(s, a));
    } else {
      rest := FinishSync(Next(s, a));
    }
    First(s, a, rest);
    acts := [a] + rest;
  }

  lemma GetIdle(s: State) returns (acts: seq<Action>)
    requires Inv(s) && s.crm.seat.Seat? && s.crm.stage != Stopped
    ensures Path(s, acts)
    ensures var s' := Exec(s, acts);
            Inv(s') && s'.bus == s.bus && s'.fraud == s.fraud && s'.crm.seat == s.crm.seat && s'.crm.stage == Idle
  {
    assert s.crm.stage == Idle || CrmInHand(s.crm.stage);
    if s.crm.stage == Idle {
      acts := [];
      Stay(s);
    } else {
      hide Inv, Exec, Path;
      acts := FinishSync(s);
    }
  }

  lemma TakeScreenedMoves(s: State)
    requires s.crm.stage == Idle && s.crm.seat.Seat? && s.crm.seat.k < |s.bus.screened.subs|
    requires var q := s.bus.screened.subs[s.crm.seat.k].queue; q != [] && q[0] < |s.bus.screened.calls|
    ensures var a, k := Crm(TakeScreened(0)), s.crm.seat.k;
            var head := s.bus.screened.subs[k].queue[0];
            && Enabled(s, a)
            && var s' := Next(s, a);
               && CrmOnly(s, s') && s'.bus.screened.subs[k].queue == s.bus.screened.subs[k].queue[1..]
               && (if Qualifies(s.bus.screened.calls[head].event)
                   then s'.crm.stage == Attempting && s'.crm.current == head else s'.crm.stage == Idle)
  {
    hide Qualifies;
  }

  /** The marketing worker takes the head of its channel and is done with it. */
  lemma SyncOne(s: State) returns (acts: seq<Action>)
    requires Inv(s) && s.crm.stage == Idle && s.crm.seat.Seat? && s.crm.seat.k < |s.bus.screened.subs|
    requires s.bus.screened.subs[s.crm.seat.k].queue != []
    ensures Path(s, acts)
    ensures var s', k := Exec(s, acts), s.crm.seat.k;
            && Inv(s') && s'.crm.stage == Idle && CrmOnly(s, s')
            && s'.bus.screened.subs[k].queue == s.bus.screened.subs[k].queue[1..]
  {
    QueuedScreenedAreCalls(s, s.crm.seat.k);
    assert s.bus.screened.subs[s.crm.seat.k].queue[0] in s.bus.screened.subs[s.crm.seat.k].queue;
    TakeScreenedMoves(s);
    var a := Crm(TakeScreened(0));
    Step(s, a);
    hide Inv, Next, Enabled, Path, Exec, Qualifies;
    var rest := GetIdle(Next(s, a));
    First(s, a, rest);
    acts := [a] + rest;
  }

  lemma HeadFiles(s: State, user: string) returns (acts: seq<Action>)
    requires Inv(s) && s.crm.stage == Idle && s.crm.seat.Seat? && s.crm.seat.k < |s.bus.screened.subs|
    requires var q := s.bus.screened.subs[s.crm.seat.k].queue;
             q != [] && q[0] < |s.bus.screened.calls| && Bound(s.bus.screened.calls[q[0]].event, user)
    ensures Path(s, acts) && user in Exec(s, acts).store.contacts
  {
    TakeScreenedMoves(s);
    var a := Crm(TakeScreened(0));
    Step(s, a);
    hide Inv, Next, Enabled, Path, Exec, Qualifies;
    var rest := FinishSync(Next(s, a));
    First(s, a, rest);
    acts := [a] + rest;
  }

  /** An event bound for the user in the worker's channel can be reached and filed. */
  lemma {:induction false} QueueFiles(s: State, user: string, p: nat) returns (acts: seq<Action>)
    requires Inv(s) && s.crm.stage == Idle && s.crm.seat.Seat? && s.crm.seat.k < |s.bus.screened.subs|
    requires var q := s.bus.screened.subs[s.crm.seat.k].queue;
             p < |q| && q[p] < |s.bus.screened.calls| && Bound(s.bus.screened.calls[q[p]].event, user)
    ensures Path(s, acts) && user in Exec(s, acts).store.contacts
    decreases p
  {
    hide Inv, Next, Enabled, Exec, Runs, Bound;
    if p == 0 {
      acts := HeadFiles(s, user);
    } else {
      var one := SyncOne(s);
      var more := QueueFiles(Exec(s, one), user, p - 1);
      Chain(s, one, more);
      acts := one + more;
    }
  }

  // The last publish can reach the worker's channel.

  lemma OfferScreenedMoves(s: State)
    requires s.fraud.stage == Sending && s.bus.screened.calls != []
    requires var t := s.bus.screened; var c := t.calls[|t.calls| - 1];
             && c.status == B.Active && c.next < c.width == |t.subs|
             && !t.subs[c.next].closed && |t.subs[c.next].queue| < s.bus.cap
    ensures var a, t := Fraud(MoveScreened(Offer)), s.bus.screened;
            var i: nat := |t.calls| - 1;
            var n := t.calls[i].next;
            && Enabled(s, a)
            && var s' := Next(s, a);
               && s'.fraud == s.fraud && s'.crm == s.crm && s'.bus.cap == s.bus.cap
               && |s'.bus.screened.subs| == |t.subs| && |s'.bus.screened.calls| == |t.calls|
               && s'.bus.screened.calls[i] == t.calls[i].(next := n + 1)
               && s'.bus.screened.subs[n].queue == t.subs[n].queue + [i]
  {
  }

  lemma DrainScreenedMoves(s: State, k: nat)
    requires k < |s.bus.screened.subs| && s.bus.screened.subs[k].queue != [] && s.crm.seat != Seat(k)
    ensures var a := World(DrainScreened(k));
            && Enabled(s, a)
            && var s' := Next(s, a);
               && s'.crm == s.crm && CrmOnly(s, s')
               && s'.bus.screened.subs[k].queue == s.bus.screened.subs[k].queue[1..]
  {
  }

  /** The subscriber that the last publish is to reach next. */
  function NextInLine(t: B.Topic<ScreenedEvent>): nat
    requires t.calls != []
  {
    t.calls[|t.calls| - 1].next
  }

  function Waiters(t: B.Topic<ScreenedEvent>): nat {
    if t.calls != [] && NextInLine(t) < |t.subs| then |t.subs[NextInLine(t)].queue| else 0
  }

  /** The last publish ranges over all subscribers, and finds their channels open. */
  ghost predicate Sendable(t: B.Topic<ScreenedEvent>) {
    t.calls != [] &&
    var c := t.calls[|t.calls| - 1];
    c.status == B.Active ==> c.width == |t.subs| && forall k :: 0 <= k < c.width ==> !t.subs[k].closed
  }

  lemma SoundIsSendable(s: State)
    requires Inv(s) && s.bus.screened.calls != []
    ensures Sendable(s.bus.screened)
  {
    hide FraudInv, IngestInv, CrmInv, StoreInv, ContactInv, PurgesInv, B.Inv;
    SendFacts(s);
  }

  lemma OfferApproaches(s: State, user: string)
    requires Sendable(s.bus.screened) && s.fraud.stage == Sending
    requires s.crm.seat.Seat? && Approaches(s.bus.screened, s.crm.seat.k, user)
    requires Waiters(s.bus.screened) < s.bus.cap
    ensures var a := Fraud(MoveScreened(Offer));
            && Enabled(s, a)
            && var t, t', s' := s.bus.screened, Next(s, a).bus.screened, Next(s, a);
               && s'.fraud == s.fraud && s'.crm == s.crm && s'.bus.cap == s.bus.cap
               && s.crm.seat.k < |t.subs| == |t'.subs|
               && t'.calls != [] && NextInLine(t') == NextInLine(t) + 1
               && (NextInLine(t) < s.crm.seat.k ==> Approaches(t', s.crm.seat.k, user))
               && (NextInLine(t) == s.crm.seat.k ==>
                     var q, p := t'.subs[s.crm.seat.k].queue, |t.subs[s.crm.seat.k].queue|;
                     p < |q| && q[p] < |t'.calls| && Bound(t'.calls[q[p]].event, user))
  {
    hide Next, Enabled, Bound;
    OfferScreenedMoves(s);
  }

  lemma DrainApproaches(s: State, user: string)
    requires Sendable(s.bus.screened) && s.crm.seat.Seat? && Approaches(s.bus.screened, s.crm.seat.k, user)
    requires Waiters(s.bus.screened) > 0 && NextInLine(s.bus.screened) < s.crm.seat.k
    ensures var a := World(DrainScreened(NextInLine(s.bus.screened)));
            && Enabled(s, a)
            && var t, t', s' := s.bus.screened, Next(s, a).bus.screened, Next(s, a);
               && s'.fraud == s.fraud && s'.crm == s.crm && s'.bus.cap == s.bus.cap
               && Approaches(t', s.crm.seat.k, user) && NextInLine(t') == NextInLine(t) && Waiters(t') < Waiters(t)
  {
    hide Next, Enabled, Bound;
    DrainScreenedMoves(s, NextInLine(s.bus.screened));
  }

  lemma SyncApproaches(s: State, user: string) returns (acts: seq<Action>)
    requires Inv(s) && s.crm.stage == Idle && s.crm.seat.Seat? && Approaches(s.bus.screened, s.crm.seat.k, user)
    requires Waiters(s.bus.screened) > 0 && NextInLine(s.bus.screened) == s.crm.seat.k
    ensures Path(s, acts)
    ensures var s' := Exec(s, acts);
            var t, t' := s.bus.screened, s'.bus.screened;
            && Inv(s') && s'.crm.stage == Idle && s'.crm.seat == s.crm.seat
            && s'.fraud == s.fraud && s'.bus.cap == s.bus.cap
            && Approaches(t', s.crm.seat.k, user) && NextInLine(t') == NextInLine(t) && Waiters(t') < Waiters(t)
  {
    hide Inv, Path, Exec, Bound;
    SoundIsSendable(s);
    acts := SyncOne(s);
  }

  lemma {:induction false} SendFiles(s: State, user: string) returns (acts: seq<Action>)
    requires Inv(s) && s.bus.cap > 0 && s.crm.stage == Idle && s.crm.seat.Seat? && s.fraud.stage == Sending
    requires Approaches(s.bus.screened, s.crm.seat.k, user)
    ensures Path(s, acts) && user in Exec(s, acts).store.contacts
    decreases s.crm.seat.k - NextInLine(s.bus.screened), Waiters(s.bus.screened)
  {
    hide Inv, Next, Enabled, Exec, Runs, Bound, Waiters;
    var n, k := NextInLine(s.bus.screened), s.crm.seat.k;
    assert n <= k;
    SoundIsSendable(s);
    if Waiters(s.bus.screened) < s.bus.cap {
      var a := Fraud(MoveScreened(Offer));
      OfferApproaches(s, user);
      hide Approaches, NextInLine;
      Step(s, a);
      var rest;
      if n == k {
        rest := QueueFiles(Next(s, a), user, |s.bus.screened.subs[k].queue|);
      } else {
        rest := SendFiles(Next(s, a), user);
      }
      First(s, a, rest);
      acts := [a] + rest;
    } else if n < k {
      var a := World(DrainScreened(n));
      DrainApproaches(s, user);
      hide Approaches, NextInLine;
      Step(s, a);
      var rest := SendFiles(Next(s, a), user);
      First(s, a, rest);
      acts := [a] + rest;
    } else {
      var one := SyncApproaches(s, user);
      hide Approaches, NextInLine;
      var more := SendFiles(Exec(s, one), user);
      Chain(s, one, more);
      acts := one + more;
    }
  }

  // What the fraud worker holds can be published.

  lemma PublishMoves(s: State)
    requires s.fraud.stage == Publishing && s.fraud.log != [] && s.bus.closer == B.NotClosing && !s.bus.closed
    ensures var a := Fraud(Publish);
            && Enabled(s, a)
            && var s' := Next(s, a);
               && s'.fraud == s.fraud.(stage := Sending) && s'.crm == s.crm && s'.bus.cap == s.bus.cap
               && s'.bus.screened.calls != []
               && var c := s'.bus.screened.calls[|s'.bus.screened.calls| - 1];
                  c.status == B.Active && c.next == 0 && c.width == |s.bus.screened.subs| && c.event == Hand(s).verdict
  {
  }

  lemma PublishApproaches(s: State, user: string)
    requires s.fraud.stage == Publishing && s.fraud.log != [] && s.bus.closer == B.NotClosing && !s.bus.closed
    requires s.crm.seat.Seat? && s.crm.seat.k < |s.bus.screened.subs| && Bound(Hand(s).verdict, user)
    ensures Enabled(s, Fraud(Publish))
    ensures var s' := Next(s, Fraud(Publish));
            && s'.fraud.stage == Sending && s'.crm == s.crm && s'.bus.cap == s.bus.cap
            && Approaches(s'.bus.screened, s.crm.seat.k, user)
  {
    hide Next, Enabled, Bound;
    PublishMoves(s);
  }

  lemma OpenMeansNotClosing(b: TheBus)
    requires B.Inv(b) && !b.closed
    ensures b.closer == B.NotClosing
  {
    hide B.TopicInv;
  }

  lemma PublishFiles(s: State, user: string) returns (acts: seq<Action>)
    requires Inv(s) && s.bus.cap > 0 && !s.bus.closed && s.crm.stage == Idle && s.crm.seat.Seat?
    requires s.fraud.stage == Publishing && s.fraud.log != [] && Bound(Hand(s).verdict, user)
    ensures Path(s, acts) && user in Exec(s, acts).store.contacts
  {
    assert s.crm.seat.k < |s.bus.screened.subs|;
    OpenMeansNotClosing(s.bus);
    hide Inv, Next, Enabled, Path, Exec, Bound, Approaches;
    PublishApproaches(s, user);
    var a := Fraud(Publish);
    Step(s, a);
    var rest := SendFiles(Next(s, a), user);
    First(s, a, rest);
    acts := [a] + rest;
  }

  lemma {:induction false} HandFiles(s: State, user: string) returns (acts: seq<Action>)
    requires Inv(s) && s.bus.cap > 0 && !s.bus.closed && s.crm.stage == Idle && s.crm.seat.Seat?
    requires Unpublished(s.fraud.stage) && s.fraud.log != [] && Bound(Hand(s).verdict, user)
    ensures Path(s, acts) && user in Exec(s, acts).store.contacts
    decreases HandLeft(s.fraud.stage)
  {
    if s.fraud.stage == Publishing {
      acts := PublishFiles(s, user);
      return;
    }
    OpenMeansNotClosing(s.bus);
    hide Inv, Next, Enabled, Path, Exec, Bound, HandLeft;
    HandMoves(s);
    StageAfterHandMove(s);
    var a := Fraud(HandMove(s.fraud.stage));
    Step(s, a);
    var rest := HandFiles(Next(s, a), user);
    First(s, a, rest);
    acts := [a] + rest;
  }

  lemma StageAfterHandMove(s: State)
    requires Unpublished(s.fraud.stage) && s.fraud.log != [] && Enabled(s, Fraud(HandMove(s.fraud.stage)))
    ensures Next(s, Fraud(HandMove(s.fraud.stage))).fraud.stage
              == match s.fraud.stage case Saving => Counting case Counting => Publishing case _ => Sending
  {
    hide B.Apply, B.Enabled;
  }

  lemma FirstFiles(s: State, user: string) returns (acts: seq<Action>)
    requires Inv(s) && s.bus.cap > 0 && !s.bus.closed && s.crm.stage == Idle && s.crm.seat.Seat?
    requires s.fraud.stage == Waiting && s.fraud.seat.Seat? && s.fraud.seat.k < |s.bus.raw.subs|
    requires var q := s.bus.raw.subs[s.fraud.seat.k].queue;
             q != [] && q[0] < |s.bus.raw.calls| && Concerns(s.bus.raw.calls[q[0]].event, user, true)
    ensures Path(s, acts) && user in Exec(s, acts).store.contacts
  {
    TakeMoves(s);
    var a := Take(s);
    Step(s, a);
    assert Bound(Hand(Next(s, a)).verdict, user);
    hide Inv, Next, Enabled, Path, Exec, Take, Bound;
    var rest := HandFiles(Next(s, a), user);
    First(s, a, rest);
    acts := [a] + rest;
  }

  /** An event in the fraud worker's channel can be screened as legitimate and filed. */
  lemma {:induction false} RawQueueFiles(s: State, user: string, p: nat) returns (acts: seq<Action>)
    requires Inv(s) && s.bus.cap > 0 && !s.bus.closed && s.crm.stage == Idle && s.crm.seat.Seat?
    requires s.fraud.stage == Waiting && s.fraud.seat.Seat? && s.fraud.seat.k < |s.bus.raw.subs|
    requires var q := s.bus.raw.subs[s.fraud.seat.k].queue;
             p < |q| && q[p] < |s.bus.raw.calls| && Concerns(s.bus.raw.calls[q[p]].event, user, true)
    ensures Path(s, acts) && user in Exec(s, acts).store.contacts
    decreases p
  {
    hide Inv, Next, Enabled, Exec, Runs, Concerns;
    if p == 0 {
      acts := FirstFiles(s, user);
    } else {
      var one := TakeOne(s);
      var more := RawQueueFiles(Exec(s, one), user, p - 1);
      Chain(s, one, more);
      acts := one + more;
    }
  }

  // A marketing worker that has not subscribed can do so.

  /** The fraud worker is the only one to publish screened events, one at a time. */
  ghost predicate OneSend(s: State) {
    forall i: nat :: i < |s.bus.screened.calls| && s.bus.screened.calls[i].status == B.Active ==>
      i == |s.bus.screened.calls| - 1 && s.fraud.stage == Sending
  }

  lemma OneSendStep(s: State, a: Action)
    requires Enabled(s, a) && OneSend(s)
    ensures OneSend(Next(s, a))
  {
    BusIsKept(s, a);
    OwnWorkerOnly(s, a);
    StagesAroundSending(s, a);
    hide Next, Enabled;
  }

  lemma StagesAroundSending(s: State, a: Action)
    requires Enabled(s, a)
    ensures a == Fraud(Publish) ==> s.fraud.stage != Sending && Next(s, a).fraud.stage == Sending
    ensures s.fraud.stage == Sending && Next(s, a).fraud.stage != Sending ==>
              && a == Fraud(Release) && s.bus.screened.calls != []
              && s.bus.screened.calls[|s.bus.screened.calls| - 1].status != B.Active
  {
    if !a.Fraud? {
      OwnWorkerOnly(s, a);
    }
    hide B.Apply, B.Enabled;
  }

  lemma {:induction false} OneSendAlways(s: State, acts: seq<Action>)
    requires OneSend(s) && Runs(s, acts)
    ensures OneSend(Exec(s, acts))
    decreases |acts|
  {
    hide OneSend, Next, Enabled;
    if acts != [] {
      OneSendStep(s, acts[0]);
      OneSendAlways(Next(s, acts[0]), acts[1..]);
    }
  }

  /** Only publishers of raw events moved, and none of them sent anything. */
  ghost predicate Quieted(s: State, s': State) {
    && s'.fraud == s.fraud && s'.crm == s.crm && s'.bus.screened == s.bus.screened
    && s'.bus.closed == s.bus.closed && s'.bus.cap == s.bus.cap
    && s'.bus.raw.subs == s.bus.raw.subs && |s'.bus.raw.calls| == |s.bus.raw.calls|
    && forall i :: 0 <= i < |s.bus.raw.calls| ==> s'.bus.raw.calls[i].event == s.bus.raw.calls[i].event
  }

  lemma QuietedChains(s: State, s': State, s'': State)
    requires Quieted(s, s') && Quieted(s', s'')
    ensures Quieted(s, s'')
  {
  }

  function GiveUp(c: B.Call<TrackingEvent>): CallMove {
    if c.next == c.width then Return else if c.expired then Cancel else Expire
  }

  lemma GiveUpOnTopic(t: B.Topic<TrackingEvent>, cap: nat, closed: bool, i: nat)
    requires B.IsActive(t, i) && t.calls[i].next <= t.calls[i].width
    ensures var c, a := t.calls[i], TopicMove(i, GiveUp(t.calls[i]));
            && B.TopicEnabled(t, cap, a)
            && var t' := B.ApplyTopic(t, cap, closed, a);
               && t'.subs == t.subs && |t'.calls| == |t.calls|
               && (forall j :: 0 <= j < |t.calls| && j != i ==> t'.calls[j] == t.calls[j])
               && t'.calls[i].event == c.event
               && (GiveUp(c) == Expire ==> t'.calls[i] == c.(expired := true))
               && (GiveUp(c) != Expire ==> t'.calls[i].status != B.Active)
  {
  }

  lemma GiveUpMoves(s: State, i: nat)
    requires B.IsActive(s.bus.raw, i) && s.bus.raw.calls[i].next <= s.bus.raw.calls[i].width
    ensures var c := s.bus.raw.calls[i];
            var a := Ingest(Move(i, GiveUp(c)));
            && Enabled(s, a)
            && Quieted(s, Next(s, a))
            && (forall j :: 0 <= j < |s.bus.raw.calls| && j != i ==> Next(s, a).bus.raw.calls[j] == s.bus.raw.calls[j])
            && (GiveUp(c) == Expire ==> Next(s, a).bus.raw.calls[i] == c.(expired := true))
            && (GiveUp(c) != Expire ==> Next(s, a).bus.raw.calls[i].status != B.Active)
  {
    hide B.TopicEnabled, B.ApplyTopic, GiveUp;
    GiveUpOnTopic(s.bus.raw, s.bus.cap, s.bus.closed, i);
  }

  ghost predicate IdleFrom(t: B.Topic<TrackingEvent>, n: nat) {
    forall i: nat :: n <= i < |t.calls| ==> t.calls[i].status != B.Active
  }

  function Efforts(t: B.Topic<TrackingEvent>, n: nat): nat {
    if n == 0 || n > |t.calls| || t.calls[n - 1].status != B.Active then 0 else if t.calls[n - 1].expired then 1 else 2
  }

  lemma GiveUpProgresses(s: State, n: nat) returns (a: Action, m: nat)
    requires 0 < n <= |s.bus.raw.calls| && IdleFrom(s.bus.raw, n)
    requires B.IsActive(s.bus.raw, n - 1) && s.bus.raw.calls[n - 1].next <= s.bus.raw.calls[n - 1].width
    ensures a == Ingest(Move(n - 1, GiveUp(s.bus.raw.calls[n - 1]))) && Enabled(s, a)
    ensures m <= |Next(s, a).bus.raw.calls| && IdleFrom(Next(s, a).bus.raw, m)
    ensures m < n || (m == n && Efforts(Next(s, a).bus.raw, m) < Efforts(s.bus.raw, n))
  {
    hide Next, Enabled;
    GiveUpMoves(s, n - 1);
    var c := s.bus.raw.calls[n - 1];
    a, m := Ingest(Move(n - 1, GiveUp(c))), if GiveUp(c) == Expire then n else n - 1;
  }

  lemma RunningCallsAreWithin(s: State, i: nat)
    requires Inv(s) && i < |s.bus.raw.calls|
    ensures s.bus.raw.calls[i].next <= s.bus.raw.calls[i].width
  {
    assert B.CallInv(s.bus.raw, i);
  }

  /** Every running publish of a raw event can come to an end. */
  lemma {:induction false} QuietRaw(s: State, n: nat) returns (acts: seq<Action>)
    requires Inv(s) && n <= |s.bus.raw.calls| && IdleFrom(s.bus.raw, n)
    ensures Path(s, acts)
    ensures var s' := Exec(s, acts); Inv(s') && Quieted(s, s') && !B.Busy(s'.bus.raw)
    decreases n, Efforts(s.bus.raw, n)
  {
    hide Inv, Next, Enabled, Runs, Exec;
    if n == 0 {
      acts := [];
      Stay(s);
    } else if s.bus.raw.calls[n - 1].status != B.Active {
      acts := QuietRaw(s, n - 1);
    } else {
      RunningCallsAreWithin(s, n - 1);
      GiveUpMoves(s, n - 1);
      var a, m := GiveUpProgresses(s, n);
      hide IdleFrom, Efforts;
      Step(s, a);
      var rest := QuietRaw(Next(s, a), m);
      First(s, a, rest);
      QuietedChains(s, Next(s, a), Exec(Next(s, a), rest));
      acts := [a] + rest;
    }
  }

  lemma SubscribeMoves(s: State)
    requires s.crm.stage == Off && B.Unlocked(s.bus) && !s.bus.closed
    ensures var a := Crm(SubscribeScreened);
            && Enabled(s, a)
            && var s' := Next(s, a);
               && s'.crm.stage == Idle && s'.crm.seat.Seat? && s'.fraud == s.fraud && s'.bus.raw == s.bus.raw
               && s'.bus.closed == s.bus.closed && s'.bus.cap == s.bus.cap
  {
  }

  /** What a marketing worker needs to have when an event is to be published to it. */
  ghost predicate Listening(s: State, s': State) {
    && s'.crm.stage == Idle && s'.crm.seat.Seat? && s'.fraud == s.fraud
    && s'.bus.closed == s.bus.closed && s'.bus.cap == s.bus.cap
    && s'.bus.raw.subs == s.bus.raw.subs && |s'.bus.raw.calls| == |s.bus.raw.calls|
    && forall i :: 0 <= i < |s.bus.raw.calls| ==> s'.bus.raw.calls[i].event == s.bus.raw.calls[i].event
  }

  lemma NobodySends(s: State)
    requires OneSend(s) && s.fraud.stage != Sending
    ensures !B.Busy(s.bus.screened)
  {
  }

  lemma Listen(s: State) returns (acts: seq<Action>)
    requires Inv(s) && OneSend(s) && s.fraud.stage != Sending && !s.bus.closed && s.crm.stage != Stopped
    ensures Path(s, acts)
    ensures var s' := Exec(s, acts); Inv(s') && Listening(s, s')
  {
    assert s.crm.seat.Seat? <==> s.crm.stage != Off;
    if s.crm.stage != Off {
      hide Inv, Path, Exec;
      acts := GetIdle(s);
      return;
    }
    hide Inv, Next, Enabled, Exec, Runs;
    var quiet := QuietRaw(s, |s.bus.raw.calls|);
    var s1 := Exec(s, quiet);
    var a := Crm(SubscribeScreened);
    OpenIsUnlocked(s1);
    SubscribeMoves(s1);
    Step(s1, a);
    Stay(Next(s1, a));
    First(s1, a, []);
    Chain(s, quiet, [a] + []);
    acts := quiet + ([a] + []);
  }

  lemma OpenIsUnlocked(s: State)
    requires Inv(s) && OneSend(s) && s.fraud.stage != Sending && !s.bus.closed && !B.Busy(s.bus.raw)
    ensures B.Unlocked(s.bus)
  {
    NobodySends(s);
    OpenMeansNotClosing(s.bus);
    hide Inv, B.Inv;
  }

  // ----------------------------------------------------------------- the theorem

  lemma UnpublishedFiles(s: State, user: string) returns (acts: seq<Action>)
    requires Inv(s) && OneSend(s) && s.bus.cap > 0 && s.crm.stage != Stopped && !s.bus.closed
    requires Unpublished(s.fraud.stage) && s.fraud.log != [] && Bound(Hand(s).verdict, user)
    ensures Path(s, acts) && user in Exec(s, acts).store.contacts
  {
    hide Inv, Next, Enabled, Exec, Runs, Bound, OneSend;
    var ready := Listen(s);
    var rest := HandFiles(Exec(s, ready), user);
    Chain(s, ready, rest);
    acts := ready + rest;
  }

  lemma WaitingFiles(s: State, user: string) returns (acts: seq<Action>)
    requires Inv(s) && OneSend(s) && s.bus.cap > 0 && s.crm.stage != Stopped && !s.bus.closed
    requires s.fraud.stage == Waiting && s.fraud.seat.Seat? && !ChannelClear(s.bus.raw, s.fraud.seat.k, user, true)
    ensures Path(s, acts) && user in Exec(s, acts).store.contacts
  {
    hide Inv, Next, Enabled, Exec, Runs, ChannelClear, OneSend, Concerns;
    var queue, i := UnclearQueues(s, user, true);
    var s1 := Exec(s, queue);
    OneSendAlways(s, queue);
    var ready := Listen(s1);
    var s2 := Exec(s1, ready);
    var q := s2.bus.raw.subs[s.fraud.seat.k].queue;
    var p :| 0 <= p < |q| && q[p] == i;
    var rest := RawQueueFiles(s2, user, p);
    Chain(s1, ready, rest);
    Chain(s, queue, ready + rest);
    acts := queue + (ready + rest);
  }

  lemma UpstreamFiles(s: State, user: string) returns (acts: seq<Action>)
    requires Inv(s) && OneSend(s) && s.bus.cap > 0 && s.crm.stage != Stopped && !UpstreamClear(s, user)
    ensures Path(s, acts) && user in Exec(s, acts).store.contacts
  {
    if Unpublished(s.fraud.stage) && s.fraud.log != [] && Bound(Hand(s).verdict, user) {
      hide Inv, Exec, Path;
      acts := UnpublishedFiles(s, user);
    } else {
      assert s.fraud.stage != Unsubscribed && s.fraud.seat.k < |s.bus.raw.subs|;
      SeatedUnlessOff(s);
      hide Inv, Next, Enabled, Exec, Runs, ChannelClear, OneSend, Bound;
      if s.fraud.stage == Waiting {
        acts := WaitingFiles(s, user);
      } else {
        var done := FinishHand(s);
        var s1 := Exec(s, done);
        OneSendAlways(s, done);
        ClearIsAboutTheRawSide(s, s1, s.fraud.seat.k, user, true);
        var rest := WaitingFiles(s1, user);
        Chain(s, done, rest);
        acts := done + rest;
      }
    }
  }

  lemma SeatFiles(s: State, user: string) returns (acts: seq<Action>)
    requires Inv(s) && s.bus.cap > 0 && s.crm.seat.Seat? && s.crm.stage != Stopped
    requires !QueueClear(s.bus.screened, s.crm.seat.k, user) || !SendClear(s, user)
    ensures Path(s, acts) && user in Exec(s, acts).store.contacts
  {
    hide Inv, Next, Enabled, Exec, Runs, Bound, Approaches;
    var idle := GetIdle(s);
    var s1 := Exec(s, idle);
    var t, k := s1.bus.screened, s1.crm.seat.k;
    var rest;
    if !QueueClear(t, k, user) {
      var i: nat :| i < |t.calls| && Bound(t.calls[i].event, user) && k < |t.subs| && i in t.subs[k].queue;
      var p :| 0 <= p < |t.subs[k].queue| && t.subs[k].queue[p] == i;
      rest := QueueFiles(s1, user, p);
    } else {
      rest := SendFiles(s1, user);
    }
    Chain(s, idle, rest);
    acts := idle + rest;
  }

  lemma UnclearCanFile(s: State, user: string) returns (acts: seq<Action>)
    requires Inv(s) && OneSend(s) && s.bus.cap > 0 && !ContactClear(s, user)
    ensures Path(s, acts) && user in Exec(s, acts).store.contacts
  {
    hide Inv, Path, Exec, QueueClear, Approaches, UpstreamClear, OneSend;
    if !InHandClear(s, user) {
      acts := FinishSync(s);
    } else if s.crm.seat.Seat? && (!QueueClear(s.bus.screened, s.crm.seat.k, user) || !SendClear(s, user)) {
      acts := SeatFiles(s, user);
    } else {
      acts := UpstreamFiles(s, user);
    }
  }

  /** Some continuation that ingests nothing for the user files a contact of the user. */
  ghost predicate CanBeFiled(s: State, user: string) {
    exists acts :: Runs(s, acts) && NoIngestOf(acts, user) && user in Exec(s, acts).store.contacts
  }

  /** A user without a contact can get one back without being ingested again if and only if
      something is on its way into the contact store: a sync in hand, a screened event queued
      for the marketing worker or about to reach it, or, while the broker is open, an event
      that the fraud worker has yet to publish or to take and that triggers a workflow. */
  lemma FiledExactlyWhenInFlight(s: State, user: string)
    requires Inv(s) && OneSend(s) && s.bus.cap > 0 && user !in s.store.contacts
    ensures CanBeFiled(s, user) <==> !ContactClear(s, user)
  {
    hide Inv, OneSend, ContactClear, Exec, Runs;
    if ContactClear(s, user) {
      forall acts | Runs(s, acts) && NoIngestOf(acts, user) ensures user !in Exec(s, acts).store.contacts {
        ClearMeansNoContact(s, acts, user);
      }
    } else {
      var acts := UnclearCanFile(s, user);
      assert NoIngestOf(acts, user);
    }
  }

  /** In every later state the user is in neither store, unless ingested again. */
  ghost predicate GoneForGood(s: State, user: string) {
    forall acts :: Runs(s, acts) && NoIngestOf(acts, user) ==>
      EventsOf(Exec(s, acts).store, user) == [] && user !in Exec(s, acts).store.contacts
  }

  lemma StartIsSound(bufferSize: int)
    ensures Inv(Initial(bufferSize)) && OneSend(Initial(bufferSize)) && Initial(bufferSize).bus.cap > 0
  {
    InitialInv(bufferSize);
    hide Inv;
  }

  /** What the theorems ask of a state holds of every state the system can reach. */
  lemma ReachableStatesAreSound(bufferSize: int, acts: seq<Action>)
    requires Runs(Initial(bufferSize), acts)
    ensures var s := Exec(Initial(bufferSize), acts); Inv(s) && OneSend(s) && s.bus.cap > 0
  {
    StartIsSound(bufferSize);
    hide Inv, OneSend, Exec, Runs, Initial;
    InvAlways(Initial(bufferSize), acts);
    OneSendAlways(Initial(bufferSize), acts);
    CapacityIsPositive(Initial(bufferSize), acts);
  }

  /** A purged user is gone for good exactly when both stores are clear of the user, in every
      state the system can reach. */
  lemma GoneExactlyWhenClear(bufferSize: int, before: seq<Action>, s: State, user: string)
    requires Runs(Initial(bufferSize), before) && s == Exec(Initial(bufferSize), before)
    requires EventsOf(s.store, user) == [] && user !in s.store.contacts
    ensures GoneForGood(s, user) <==> StoreClear(s, user) && ContactClear(s, user)
  {
    hide Inv, OneSend, ContactClear, StoreClear, Exec, Runs, CanReturn, CanBeFiled, GoneForGood;
    ReachableStatesAreSound(bufferSize, before);
    ReturnsExactlyWhenInFlight(s, user);
    FiledExactlyWhenInFlight(s, user);
    GoneMeansNeither(s, user);
  }

  lemma GoneMeansNeither(s: State, user: string)
    ensures GoneForGood(s, user) <==> !CanReturn(s, user) && !CanBeFiled(s, user)
  {
    hide NoIngestOf, EventsOf;
  }
}
