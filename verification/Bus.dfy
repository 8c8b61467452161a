/** The in-memory broker of pkg/broker/broker.go as an interleaving state machine.

    Publishers hold the read lock for the whole of their loop, so any number of them
    interleave select by select; Subscribe and Close hold the write lock; receivers take no
    lock. A call is named by its position in `calls`, and channels hold these names, as the
    program's channels hold event pointers. No step depends on a field marked as history. */
module Bus {

  datatype Status = Active | Accepted | Cancelled | Refused

  /** One Publish call. `width` is the length of the subscriber list it ranges over, `next`
      the subscriber whose select is due, `expired` whether its context is done, and `after`
      (history) the calls that had returned when this one began. */
  datatype Call<E> = Call(event: E, width: nat, next: nat, expired: bool, status: Status, after: set<nat>)

  /** One subscriber's channel; `offered`, `received` and `dropped` are history. */
  datatype Sub = Sub(queue: seq<nat>, closed: bool, offered: seq<nat>, received: seq<nat>, dropped: set<nat>)

  /** One of the two topics. Sending on or closing a closed channel panics. */
  datatype Topic<E> = Topic(subs: seq<Sub>, calls: seq<Call<E>>, panicked: bool)

  datatype TopicAction<E> =
    | Begin(event: E)      // take the read lock and look at the closed flag
    | Expire(call: nat)    // the caller's context is done
    | Offer(call: nat)     // one select that sends or, on a full buffer, drops
    | Cancel(call: nat)    // one select that takes ctx.Done
    | Return(call: nat)    // release the read lock after the loop
    | Receive(sub: nat)
    | Subscribe

  function EmptySub(): Sub {
    Sub([], false, [], [], {})
  }

  function Finished<E>(t: Topic<E>): set<nat> {
    set i: nat | i < |t.calls| && t.calls[i].status != Active
  }

  predicate Busy<E>(t: Topic<E>) {
    exists i: nat :: i < |t.calls| && t.calls[i].status == Active
  }

  predicate IsActive<E>(t: Topic<E>, call: nat) {
    call < |t.calls| && t.calls[call].status == Active
  }

  /** Whether the select due can take the sending or dropping branch: `default` is taken only
      when neither the channel nor the context is ready. */
  predicate CanOffer<E>(t: Topic<E>, cap: nat, call: nat) {
    && IsActive(t, call) && t.calls[call].next < t.calls[call].width
    && t.calls[call].next < |t.subs|
    && (t.subs[t.calls[call].next].closed || |t.subs[t.calls[call].next].queue| < cap || !t.calls[call].expired)
  }

  predicate TopicEnabled<E>(t: Topic<E>, cap: nat, a: TopicAction<E>) {
    match a
    case Begin(_) => true
    case Expire(call) => IsActive(t, call)
    case Offer(call) => CanOffer(t, cap, call)
    case Cancel(call) => IsActive(t, call) && t.calls[call].next < t.calls[call].width && t.calls[call].expired
    case Return(call) => IsActive(t, call) && t.calls[call].next == t.calls[call].width
    case Receive(sub) => sub < |t.subs| && t.subs[sub].queue != []
    case Subscribe => true
  }

  function Offered(s: Sub, cap: nat, call: nat): Sub {
    var s' := s.(offered := s.offered + [call]);
    if |s.queue| < cap then s'.(queue := s.queue + [call]) else s'.(dropped := s.dropped + {call})
  }

  function Popped(s: Sub): Sub
    requires s.queue != []
  {
    s.(queue := s.queue[1..], received := s.received + [s.queue[0]])
  }

  function Opened<E>(t: Topic<E>, event: E, closed: bool): Call<E> {
    if closed then Call(event, 0, 0, false, Refused, Finished(t))
    else Call(event, |t.subs|, 0, false, Active, Finished(t))
  }

  function AfterOffer<E>(t: Topic<E>, cap: nat, call: nat): Topic<E>
    requires CanOffer(t, cap, call)
  {
    var c := t.calls[call];
    if t.subs[c.next].closed then t.(panicked := true)
    else t.(subs := t.subs[c.next := Offered(t.subs[c.next], cap, call)],
            calls := t.calls[call := c.(next := c.next + 1)])
  }

  function ApplyTopic<E>(t: Topic<E>, cap: nat, closed: bool, a: TopicAction<E>): Topic<E>
    requires TopicEnabled(t, cap, a)
  {
    match a
    case Begin(event) => t.(calls := t.calls + [Opened(t, event, closed)])
    case Expire(call) => t.(calls := t.calls[call := t.calls[call].(expired := true)])
    case Offer(call) => AfterOffer(t, cap, call)
    case Cancel(call) => t.(calls := t.calls[call := t.calls[call].(status := Cancelled)])
    case Return(call) => t.(calls := t.calls[call := t.calls[call].(status := Accepted)])
    case Receive(sub) => t.(subs := t.subs[sub := Popped(t.subs[sub])])
    case Subscribe => t.(subs := t.subs + [EmptySub()])
  }

  /** close(ch) on subscriber `k`. */
  function Shut<E>(t: Topic<E>, k: nat): Topic<E>
    requires k < |t.subs|
  {
    if t.subs[k].closed then t.(panicked := true) else t.(subs := t.subs[k := t.subs[k].(closed := true)])
  }

  // -------------------------------------------------------- the whole broker

  datatype Closer = NotClosing | Closing(k: nat)

  /** `closer` is the goroutine inside Close, holding the write lock, with `k` channels closed. */
  datatype Bus<A, B> = Bus(raw: Topic<A>, screened: Topic<B>, cap: nat, closed: bool, closer: Closer)

  datatype Action<A, B> = Raw(a: TopicAction<A>) | Screened(b: TopicAction<B>) | BeginClose | CloseNext | EndClose

  const DEFAULT_BUFFER: nat := 10000

  function NewBus<A, B>(bufferSize: int): Bus<A, B> {
    var cap := if bufferSize <= 0 then DEFAULT_BUFFER else bufferSize;
    Bus(Topic([], [], false), Topic([], [], false), cap, false, NotClosing)
  }

  /** Nobody holds the lock, for reading or for writing. */
  predicate Unlocked<A, B>(b: Bus<A, B>) {
    !Busy(b.raw) && !Busy(b.screened) && b.closer == NotClosing
  }

  /** The lock lets a topic action through. */
  predicate LockAllows<A, B, E>(b: Bus<A, B>, a: TopicAction<E>) {
    (a.Begin? ==> b.closer == NotClosing) && (a.Subscribe? ==> Unlocked(b) && !b.closed)
  }

  predicate Enabled<A, B>(b: Bus<A, B>, a: Action<A, B>) {
    match a
    case Raw(a) => LockAllows(b, a) && TopicEnabled(b.raw, b.cap, a)
    case Screened(a) => LockAllows(b, a) && TopicEnabled(b.screened, b.cap, a)
    case BeginClose => Unlocked(b) && !b.closed
    case CloseNext => b.closer.Closing? && b.closer.k < |b.raw.subs| + |b.screened.subs|
    case EndClose => b.closer == Closing(|b.raw.subs| + |b.screened.subs|)
  }

  function Apply<A, B>(b: Bus<A, B>, a: Action<A, B>): Bus<A, B>
    requires Enabled(b, a)
  {
    match a
    case Raw(a) => b.(raw := ApplyTopic(b.raw, b.cap, b.closed, a))
    case Screened(a) => b.(screened := ApplyTopic(b.screened, b.cap, b.closed, a))
    case BeginClose => b.(closed := true, closer := Closing(0))
    case CloseNext =>
      var k := b.closer.k;
      if k < |b.raw.subs| then b.(raw := Shut(b.raw, k), closer := Closing(k + 1))
      else b.(screened := Shut(b.screened, k - |b.raw.subs|), closer := Closing(k + 1))
    case EndClose => b.(closer := NotClosing)
  }

  // ------------------------------------------------------------- the invariant

  /** The calls of `offered` that were not dropped, in order. */
  function Kept(offered: seq<nat>, dropped: set<nat>): seq<nat> {
    if offered == [] then [] else
    var rest, x := Kept(offered[..|offered| - 1], dropped), offered[|offered| - 1];
    if x in dropped then rest else rest + [x]
  }

  ghost predicate Distinct(s: seq<nat>) {
    forall p, q :: 0 <= p < q < |s| ==> s[p] != s[q]
  }

  ghost predicate CallInv<E>(t: Topic<E>, i: nat)
    requires i < |t.calls|
  {
    var c := t.calls[i];
    && c.next <= c.width <= |t.subs|
    && (c.status == Active ==> c.width == |t.subs|)
    && (c.status == Accepted ==> c.next == c.width)
    && (c.status == Cancelled ==> c.next < c.width)
    && (c.status == Refused ==> c.width == 0)
    && forall j :: j in c.after ==> j < i && t.calls[j].status != Active
  }

  /** Exactly the calls that got past subscriber `k` were offered to it. */
  ghost predicate OfferedExactly<E>(t: Topic<E>, k: nat)
    requires k < |t.subs|
  {
    forall j: nat :: j in t.subs[k].offered <==> j < |t.calls| && k < t.calls[j].next
  }

  /** No call was offered ahead of one that had returned before it began. */
  ghost predicate InRealTimeOrder<E>(t: Topic<E>, s: seq<nat>) {
    && (forall p :: 0 <= p < |s| ==> s[p] < |t.calls|)
    && forall p, q :: 0 <= p < q < |s| ==> s[q] !in t.calls[s[p]].after
  }

  ghost predicate SubInv(s: Sub, cap: nat) {
    && Distinct(s.offered)
    && s.received + s.queue == Kept(s.offered, s.dropped)
    && (forall j :: j in s.dropped ==> j in s.offered)
    && |s.queue| <= cap
    && DropsWereForced(s, cap)
  }

  /** A drop had at least a full buffer of kept calls before it. */
  ghost predicate DropsWereForced(s: Sub, cap: nat) {
    forall p :: 0 <= p < |s.offered| && s.offered[p] in s.dropped ==> |Kept(s.offered[..p], s.dropped)| >= cap
  }

  ghost predicate TopicInv<E>(t: Topic<E>, cap: nat) {
    && (forall i :: 0 <= i < |t.calls| ==> CallInv(t, i))
    && (forall k :: 0 <= k < |t.subs| ==>
        SubInv(t.subs[k], cap) && OfferedExactly(t, k) && InRealTimeOrder(t, t.subs[k].offered))
  }

  /** Of the channels of `t`, the first `n` are closed. */
  ghost predicate ClosedUpTo<E>(t: Topic<E>, n: int) {
    !t.panicked && forall k :: 0 <= k < |t.subs| ==> (t.subs[k].closed <==> k < n)
  }

  /** How many of the channels, raw ones first, have been closed. */
  function Shuts<A, B>(b: Bus<A, B>): nat {
    if !b.closed then 0
    else if b.closer.Closing? then b.closer.k
    else |b.raw.subs| + |b.screened.subs|
  }

  ghost predicate Inv<A, B>(b: Bus<A, B>) {
    && TopicInv(b.raw, b.cap) && TopicInv(b.screened, b.cap)
    && (b.closed ==> !Busy(b.raw) && !Busy(b.screened))
    && (b.closer.Closing? ==> b.closed && b.closer.k <= |b.raw.subs| + |b.screened.subs|)
    && ClosedUpTo(b.raw, Shuts(b)) && ClosedUpTo(b.screened, Shuts(b) - |b.raw.subs|)
  }

  // ------------------------------------------------------------- preservation

  lemma {:induction false} KeptOfDistinct(offered: seq<nat>, dropped: set<nat>, x: nat)
    requires x !in offered
    ensures Kept(offered, dropped + {x}) == Kept(offered, dropped)
  {
    if offered != [] {
      KeptOfDistinct(offered[..|offered| - 1], dropped, x);
    }
  }

  lemma KeptOfOneMore(offered: seq<nat>, dropped: set<nat>, x: nat)
    ensures Kept(offered + [x], dropped) == Kept(offered, dropped) + if x in dropped then [] else [x]
  {
    assert (offered + [x])[..|offered|] == offered;
  }

  lemma OfferKeepsDropsForced(s: Sub, cap: nat, call: nat)
    requires SubInv(s, cap) && call !in s.offered
    ensures DropsWereForced(Offered(s, cap, call), cap)
  {
    var s' := Offered(s, cap, call);
    forall p | 0 <= p < |s'.offered| && s'.offered[p] in s'.dropped
      ensures |Kept(s'.offered[..p], s'.dropped)| >= cap
    {
      assert s'.offered[..p] == s.offered[..p];
      KeptOfDistinct(s.offered[..p], s.dropped, call);
      if p == |s.offered| {
        assert s.offered[..p] == s.offered;
      }
    }
  }

  lemma OfferKeepsSubInv(s: Sub, cap: nat, call: nat)
    requires SubInv(s, cap) && call !in s.offered
    ensures SubInv(Offered(s, cap, call), cap)
  {
    hide DropsWereForced, Kept;
    OfferKeepsDropsForced(s, cap, call);
    var s' := Offered(s, cap, call);
    KeptOfOneMore(s.offered, s'.dropped, call);
    KeptOfDistinct(s.offered, s.dropped, call);
    assert s'.received + s'.queue == s.received + s.queue + if call in s'.dropped then [] else [call];
  }

  lemma PopKeepsSubInv(s: Sub, cap: nat)
    requires SubInv(s, cap) && s.queue != []
    ensures SubInv(Popped(s), cap)
  {
    assert Popped(s).received + Popped(s).queue == s.received + s.queue;
  }

  lemma StepKeepsCalls<E>(t: Topic<E>, cap: nat, closed: bool, a: TopicAction<E>, i: nat)
    requires TopicInv(t, cap) && TopicEnabled(t, cap, a) && (a.Subscribe? ==> !Busy(t))
    requires i < |ApplyTopic(t, cap, closed, a).calls|
    ensures CallInv(ApplyTopic(t, cap, closed, a), i)
  {
    if i < |t.calls| {
      assert CallInv(t, i);
    }
  }

  lemma StepKeepsSub<E>(t: Topic<E>, cap: nat, closed: bool, a: TopicAction<E>, k: nat)
    requires TopicInv(t, cap) && TopicEnabled(t, cap, a)
    requires k < |ApplyTopic(t, cap, closed, a).subs|
    ensures SubInv(ApplyTopic(t, cap, closed, a).subs[k], cap)
  {
    if k < |t.subs| {
      if a == Receive(k) {
        PopKeepsSubInv(t.subs[k], cap);
      } else if a.Offer? && t.calls[a.call].next == k {
        assert OfferedExactly(t, k);
        OfferKeepsSubInv(t.subs[k], cap, a.call);
      }
    }
  }

  lemma StepKeepsExact<E>(t: Topic<E>, cap: nat, closed: bool, a: TopicAction<E>, k: nat)
    requires TopicInv(t, cap) && TopicEnabled(t, cap, a)
    requires k < |ApplyTopic(t, cap, closed, a).subs|
    ensures OfferedExactly(ApplyTopic(t, cap, closed, a), k)
  {
    if k < |t.subs| {
      assert OfferedExactly(t, k);
    } else {
      forall j | 0 <= j < |t.calls| ensures t.calls[j].next <= k {
        assert CallInv(t, j);
      }
    }
  }

  /** The order of a list of calls only depends on when they began. */
  lemma OrderCarriesOver<E>(t: Topic<E>, t': Topic<E>, s: seq<nat>)
    requires InRealTimeOrder(t, s) && |t.calls| <= |t'.calls|
    requires forall i :: 0 <= i < |t.calls| ==> t'.calls[i].after == t.calls[i].after
    ensures InRealTimeOrder(t', s)
  {
  }

  /** A call still running can be appended: nobody that began earlier waited for it. */
  lemma OrderExtends<E>(t: Topic<E>, s: seq<nat>, call: nat)
    requires InRealTimeOrder(t, s) && IsActive(t, call)
    requires forall i :: 0 <= i < |t.calls| ==> CallInv(t, i)
    ensures InRealTimeOrder(t, s + [call])
  {
    forall p | 0 <= p < |s| ensures call !in t.calls[s[p]].after {
      assert CallInv(t, s[p]);
    }
  }

  lemma StepKeepsOrder<E>(t: Topic<E>, cap: nat, closed: bool, a: TopicAction<E>, k: nat)
    requires TopicInv(t, cap) && TopicEnabled(t, cap, a)
    requires k < |ApplyTopic(t, cap, closed, a).subs|
    ensures var t' := ApplyTopic(t, cap, closed, a); InRealTimeOrder(t', t'.subs[k].offered)
  {
    var t' := ApplyTopic(t, cap, closed, a);
    if k < |t.subs| {
      if a.Offer? && t.calls[a.call].next == k {
        OrderExtends(t, t.subs[k].offered, a.call);
      }
      OrderCarriesOver(t, t', t'.subs[k].offered);
    }
  }

  lemma TopicStep<E>(t: Topic<E>, cap: nat, closed: bool, a: TopicAction<E>)
    requires TopicInv(t, cap) && TopicEnabled(t, cap, a) && (a.Subscribe? ==> !Busy(t))
    ensures TopicInv(ApplyTopic(t, cap, closed, a), cap)
  {
    var t' := ApplyTopic(t, cap, closed, a);
    forall i | 0 <= i < |t'.calls| ensures CallInv(t', i) {
      StepKeepsCalls(t, cap, closed, a, i);
    }
    forall k | 0 <= k < |t'.subs|
      ensures SubInv(t'.subs[k], cap) && OfferedExactly(t', k) && InRealTimeOrder(t', t'.subs[k].offered)
    {
      StepKeepsSub(t, cap, closed, a, k);
      StepKeepsExact(t, cap, closed, a, k);
      StepKeepsOrder(t, cap, closed, a, k);
    }
  }

  lemma ShutStep<E>(t: Topic<E>, cap: nat, k: nat)
    requires TopicInv(t, cap) && k < |t.subs|
    ensures TopicInv(Shut(t, k), cap)
  {
    var t' := Shut(t, k);
    forall i | 0 <= i < |t'.calls| ensures CallInv(t', i) {
      assert CallInv(t, i);
    }
    forall k' | 0 <= k' < |t'.subs|
      ensures SubInv(t'.subs[k'], cap) && OfferedExactly(t', k') && InRealTimeOrder(t', t'.subs[k'].offered)
    {
      assert OfferedExactly(t, k');
      OrderCarriesOver(t, t', t'.subs[k'].offered);
    }
  }

  /** Closed channels stay as they are under every topic action that the lock lets through. */
  lemma TopicStepKeepsClosing<E>(t: Topic<E>, cap: nat, closed: bool, a: TopicAction<E>, n: int)
    requires TopicInv(t, cap) && TopicEnabled(t, cap, a) && ClosedUpTo(t, n)
    requires closed ==> !Busy(t) && !a.Subscribe?
    requires !closed ==> n <= 0
    ensures ClosedUpTo(ApplyTopic(t, cap, closed, a), n)
    ensures closed ==> !Busy(ApplyTopic(t, cap, closed, a))
    ensures |t.subs| <= |ApplyTopic(t, cap, closed, a).subs|
    ensures closed ==> |t.subs| == |ApplyTopic(t, cap, closed, a).subs|
  {
    var t' := ApplyTopic(t, cap, closed, a);
    if closed {
      assert forall i: nat :: i < |t.calls| ==> t.calls[i].status != Active;
      assert forall i: nat :: i < |t'.calls| ==> t'.calls[i].status != Active;
    }
  }

  lemma RawStep<A, B>(b: Bus<A, B>, a: TopicAction<A>)
    requires Inv(b) && Enabled(b, Raw(a))
    ensures Inv(Apply(b, Raw(a)))
  {
    TopicStep(b.raw, b.cap, b.closed, a);
    TopicStepKeepsClosing(b.raw, b.cap, b.closed, a, Shuts(b));
    hide TopicInv, ApplyTopic, TopicEnabled;
  }

  lemma ScreenedStep<A, B>(b: Bus<A, B>, a: TopicAction<B>)
    requires Inv(b) && Enabled(b, Screened(a))
    ensures Inv(Apply(b, Screened(a)))
  {
    TopicStep(b.screened, b.cap, b.closed, a);
    TopicStepKeepsClosing(b.screened, b.cap, b.closed, a, Shuts(b) - |b.raw.subs|);
    hide TopicInv, ApplyTopic, TopicEnabled;
  }

  lemma CloserStep<A, B>(b: Bus<A, B>, a: Action<A, B>)
    requires Inv(b) && Enabled(b, a) && !a.Raw? && !a.Screened?
    ensures Inv(Apply(b, a))
  {
    hide TopicInv;
    if a.CloseNext? {
      var k := b.closer.k;
      if k < |b.raw.subs| {
        ShutStep(b.raw, b.cap, k);
      } else {
        ShutStep(b.screened, b.cap, k - |b.raw.subs|);
      }
    }
  }

  lemma Step<A, B>(b: Bus<A, B>, a: Action<A, B>)
    requires Inv(b) && Enabled(b, a)
    ensures Inv(Apply(b, a))
  {
    match a
    case Raw(x) => RawStep(b, x);
    case Screened(x) => ScreenedStep(b, x);
    case _ => CloserStep(b, a);
  }
}
