/** What the broker guarantees over every run: close safety, delivery and order. */
module BusRuns {
  import opened Bus

  /** The actions can be taken one after the other, from `b` on. */
  ghost predicate Runs<A, B>(b: Bus<A, B>, acts: seq<Action<A, B>>)
    decreases |acts|
  {
    acts == [] || (Enabled(b, acts[0]) && Runs(Apply(b, acts[0]), acts[1..]))
  }

  ghost function Exec<A, B>(b: Bus<A, B>, acts: seq<Action<A, B>>): Bus<A, B>
    requires Runs(b, acts)
    decreases |acts|
  {
    if acts == [] then b else Exec(Apply(b, acts[0]), acts[1..])
  }

  lemma NewBusIsSound<A, B>(bufferSize: int)
    ensures Inv(NewBus<A, B>(bufferSize))
    ensures NewBus<A, B>(bufferSize).cap == if bufferSize <= 0 then 10_000 else bufferSize
  {
  }

  lemma {:induction false} InvAlways<A, B>(b: Bus<A, B>, acts: seq<Action<A, B>>)
    requires Inv(b) && Runs(b, acts)
    ensures Inv(Exec(b, acts))
    decreases |acts|
  {
    if acts != [] {
      Step(b, acts[0]);
      InvAlways(Apply(b, acts[0]), acts[1..]);
    }
  }

  // ------------------------------------------------------------ close safety

  /** In no run does a publisher send on a closed channel, and none is closed twice. */
  lemma NeverPanics<A, B>(bufferSize: int, acts: seq<Action<A, B>>)
    requires Runs(NewBus<A, B>(bufferSize), acts)
    ensures var b := Exec(NewBus<A, B>(bufferSize), acts);
            !b.raw.panicked && !b.screened.panicked
  {
    NewBusIsSound<A, B>(bufferSize);
    InvAlways(NewBus<A, B>(bufferSize), acts);
  }

  /** What a channel still delivers, and has delivered, is fixed. */
  ghost predicate Frozen<E>(t: Topic<E>, t': Topic<E>) {
    && |t'.subs| == |t.subs|
    && forall k :: 0 <= k < |t.subs| ==>
         && t'.subs[k].offered == t.subs[k].offered
         && t.subs[k].received <= t'.subs[k].received
         && t'.subs[k].received + t'.subs[k].queue == t.subs[k].received + t.subs[k].queue
  }

  /** The earlier calls stay as they were, and every call begun since is refused. */
  ghost predicate AllRefused<E>(t: Topic<E>, t': Topic<E>) {
    && t.calls <= t'.calls
    && forall i :: |t.calls| <= i < |t'.calls| ==> t'.calls[i].status == Refused
  }

  lemma FrozenStep<E>(t: Topic<E>, cap: nat, a: TopicAction<E>)
    requires TopicEnabled(t, cap, a) && !Busy(t) && !a.Subscribe?
    ensures Frozen(t, ApplyTopic(t, cap, true, a)) && AllRefused(t, ApplyTopic(t, cap, true, a))
  {
    assert !a.Expire? && !a.Offer? && !a.Cancel? && !a.Return?;
    if a.Receive? {
      var s := t.subs[a.sub];
      assert Popped(s).received + Popped(s).queue == s.received + s.queue;
    }
  }

  /** Once `b` is closed, `b'` delivers no more than `b` held and takes no call in. */
  ghost predicate OnlyDrains<A, B>(b: Bus<A, B>, b': Bus<A, B>) {
    && b'.closed
    && Frozen(b.raw, b'.raw) && AllRefused(b.raw, b'.raw)
    && Frozen(b.screened, b'.screened) && AllRefused(b.screened, b'.screened)
  }

  lemma ShuttingOnlyDrains<A, B>(b: Bus<A, B>)
    requires !Busy(b.raw) && !Busy(b.screened) && b.closed && Enabled(b, CloseNext)
    ensures OnlyDrains(b, Apply(b, CloseNext))
  {
  }

  lemma ClosedStep<A, B>(b: Bus<A, B>, a: Action<A, B>)
    requires Inv(b) && b.closed && Enabled(b, a)
    ensures OnlyDrains(b, Apply(b, a))
  {
    assert !Busy(b.raw) && !Busy(b.screened);
    hide Inv, ApplyTopic, TopicEnabled, Busy, Shut;
    match a {
      case Raw(x) => FrozenStep(b.raw, b.cap, x);
      case Screened(x) => FrozenStep(b.screened, b.cap, x);
      case CloseNext => ShuttingOnlyDrains(b);
      case _ =>
    }
  }

  lemma {:induction false} ClosedForGood<A, B>(b: Bus<A, B>, acts: seq<Action<A, B>>)
    requires Inv(b) && b.closed && Runs(b, acts)
    ensures OnlyDrains(b, Exec(b, acts))
    decreases |acts|
  {
    if acts != [] {
      var mid, end := Apply(b, acts[0]), Exec(b, acts);
      Step(b, acts[0]);
      ClosedStep(b, acts[0]);
      ClosedForGood(mid, acts[1..]);
      FrozenChains(b.raw, mid.raw, end.raw);
      FrozenChains(b.screened, mid.screened, end.screened);
    }
  }

  lemma FrozenChains<E>(t0: Topic<E>, t1: Topic<E>, t2: Topic<E>)
    requires Frozen(t0, t1) && AllRefused(t0, t1) && Frozen(t1, t2) && AllRefused(t1, t2)
    ensures Frozen(t0, t2) && AllRefused(t0, t2)
  {
  }

  // ------------------------------------------------------------------ delivery

  lemma {:induction false} KeptMembers(offered: seq<nat>, dropped: set<nat>, x: nat)
    ensures x in Kept(offered, dropped) <==> x in offered && x !in dropped
  {
    if offered != [] {
      KeptMembers(offered[..|offered| - 1], dropped, x);
    }
  }

  lemma {:induction false} KeptIsDistinct(offered: seq<nat>, dropped: set<nat>)
    requires Distinct(offered)
    ensures Distinct(Kept(offered, dropped))
  {
    if offered != [] {
      KeptIsDistinct(offered[..|offered| - 1], dropped);
      KeptMembers(offered[..|offered| - 1], dropped, offered[|offered| - 1]);
    }
  }

  lemma {:induction false} KeptCounts(offered: seq<nat>, dropped: set<nat>)
    requires Distinct(offered) && forall j :: j in dropped ==> j in offered
    ensures |Kept(offered, dropped)| + |dropped| == |offered|
  {
    if offered == [] {
      assert dropped == {};
    } else {
      var rest, x := offered[..|offered| - 1], offered[|offered| - 1];
      if x in dropped {
        KeptCounts(rest, dropped - {x});
        KeptOfDistinct(rest, dropped - {x}, x);
        assert dropped - {x} + {x} == dropped;
      } else {
        KeptCounts(rest, dropped);
      }
    }
  }

  lemma {:induction false} KeptKeepsOrder<E>(t: Topic<E>, offered: seq<nat>, dropped: set<nat>)
    requires InRealTimeOrder(t, offered)
    ensures InRealTimeOrder(t, Kept(offered, dropped))
  {
    if offered != [] {
      var rest, x := offered[..|offered| - 1], offered[|offered| - 1];
      KeptKeepsOrder(t, rest, dropped);
      forall p | 0 <= p < |Kept(rest, dropped)| ensures x !in t.calls[Kept(rest, dropped)[p]].after {
        KeptMembers(rest, dropped, Kept(rest, dropped)[p]);
        var q :| 0 <= q < |rest| && rest[q] == Kept(rest, dropped)[p];
        assert offered[q] == rest[q] && offered[|rest|] == x;
      }
    }
  }

  /** What a subscriber gets: the calls that got past it and were not dropped, each once, in the
      order in which they were offered to it, and never one ahead of a call that had returned
      before it began. Every call offered is received, queued or dropped, and the buffer bound
      holds. */
  lemma Delivery<E>(t: Topic<E>, cap: nat, k: nat)
    requires TopicInv(t, cap) && k < |t.subs|
    ensures var s := t.subs[k];
            && s.received + s.queue == Kept(s.offered, s.dropped)
            && Distinct(s.received + s.queue)
            && InRealTimeOrder(t, s.received + s.queue)
            && (forall j: nat :: j in s.received + s.queue <==> j < |t.calls| && k < t.calls[j].next && j !in s.dropped)
            && |s.offered| == |s.received| + |s.queue| + |s.dropped|
            && |s.queue| <= cap
  {
    var s := t.subs[k];
    assert OfferedExactly(t, k);
    KeptIsDistinct(s.offered, s.dropped);
    KeptCounts(s.offered, s.dropped);
    KeptKeepsOrder(t, s.offered, s.dropped);
    forall j: nat ensures j in s.received + s.queue <==> j < |t.calls| && k < t.calls[j].next && j !in s.dropped {
      KeptMembers(s.offered, s.dropped, j);
    }
  }

  /** From `t` to `t'`, every call begun since has seen that call `j` had returned. */
  ghost predicate Knows<E>(t: Topic<E>, t': Topic<E>, j: nat) {
    && |t.calls| <= |t'.calls| && j < |t'.calls| && t'.calls[j].status != Active
    && forall i :: |t.calls| <= i < |t'.calls| ==> j in t'.calls[i].after
  }

  lemma KnowsChains<E>(t0: Topic<E>, t1: Topic<E>, t2: Topic<E>, j: nat)
    requires Knows(t0, t1, j) && Knows(t1, t2, j)
    requires forall i :: 0 <= i < |t1.calls| ==> t2.calls[i].after == t1.calls[i].after
    ensures Knows(t0, t2, j)
  {
  }

  predicate Returned<E>(t: Topic<E>, j: nat) {
    j < |t.calls| && t.calls[j].status != Active
  }

  ghost predicate Remembers<E>(t: Topic<E>, t': Topic<E>) {
    |t.calls| <= |t'.calls| && forall i :: 0 <= i < |t.calls| ==> t'.calls[i].after == t.calls[i].after
  }

  /** Whatever the action, no call forgets what it knew, and a call that begins knows `j`. */
  lemma KnowsTopicStep<E>(t: Topic<E>, cap: nat, closed: bool, a: TopicAction<E>, j: nat)
    requires TopicEnabled(t, cap, a)
    ensures Remembers(t, ApplyTopic(t, cap, closed, a))
    ensures Returned(t, j) ==> Knows(t, ApplyTopic(t, cap, closed, a), j)
  {
    var t' := ApplyTopic(t, cap, closed, a);
    if a.Begin? {
      assert Returned(t, j) ==> j in t'.calls[|t.calls|].after;
    }
  }

  lemma KnowsStep<A, B>(b: Bus<A, B>, a: Action<A, B>, j: nat)
    requires Enabled(b, a)
    ensures Remembers(b.raw, Apply(b, a).raw) && Remembers(b.screened, Apply(b, a).screened)
    ensures Returned(b.raw, j) ==> Knows(b.raw, Apply(b, a).raw, j)
    ensures Returned(b.screened, j) ==> Knows(b.screened, Apply(b, a).screened, j)
  {
    hide ApplyTopic, TopicEnabled;
    match a {
      case Raw(x) => KnowsTopicStep(b.raw, b.cap, b.closed, x, j);
      case Screened(x) => KnowsTopicStep(b.screened, b.cap, b.closed, x, j);
      case _ =>
    }
  }

  lemma {:induction false} LaterCallsKnow<A, B>(b: Bus<A, B>, acts: seq<Action<A, B>>, j: nat)
    requires Runs(b, acts)
    ensures var b' := Exec(b, acts);
            && Remembers(b.raw, b'.raw) && (Returned(b.raw, j) ==> Knows(b.raw, b'.raw, j))
            && Remembers(b.screened, b'.screened) && (Returned(b.screened, j) ==> Knows(b.screened, b'.screened, j))
    decreases |acts|
  {
    if acts != [] {
      KnowsStep(b, acts[0], j);
      LaterCallsKnow(Apply(b, acts[0]), acts[1..], j);
    }
  }

  /** No list of calls has call `i` ahead of call `j`. */
  ghost predicate NeverAhead(s: seq<nat>, i: nat, j: nat) {
    forall p, q :: 0 <= p < q < |s| ==> !(s[p] == i && s[q] == j)
  }

  lemma OrderByTime<E>(t: Topic<E>, t': Topic<E>, cap: nat, i: nat, j: nat, k: nat)
    requires TopicInv(t', cap) && k < |t'.subs| && Knows(t, t', j) && |t.calls| <= i < |t'.calls|
    ensures NeverAhead(t'.subs[k].received + t'.subs[k].queue, i, j)
  {
    KeptKeepsOrder(t', t'.subs[k].offered, t'.subs[k].dropped);
    hide TopicInv, Kept;
  }

  /** If call `j` has returned by the time the run reaches `b` and call `i` begins later, then
      no subscriber ever has `i` ahead of `j`, on either topic. */
  lemma RealTimeOrder<A, B>(b: Bus<A, B>, acts: seq<Action<A, B>>, i: nat, j: nat, k: nat)
    requires Inv(b) && Runs(b, acts)
    ensures var t, t' := b.raw, Exec(b, acts).raw;
            j < |t.calls| <= i < |t'.calls| && t.calls[j].status != Active && k < |t'.subs| ==>
              NeverAhead(t'.subs[k].received + t'.subs[k].queue, i, j)
    ensures var t, t' := b.screened, Exec(b, acts).screened;
            j < |t.calls| <= i < |t'.calls| && t.calls[j].status != Active && k < |t'.subs| ==>
              NeverAhead(t'.subs[k].received + t'.subs[k].queue, i, j)
  {
    var b' := Exec(b, acts);
    InvAlways(b, acts);
    LaterCallsKnow(b, acts, j);
    hide Exec, Runs, TopicInv;
    if Returned(b.raw, j) && |b.raw.calls| <= i < |b'.raw.calls| && k < |b'.raw.subs| {
      OrderByTime(b.raw, b'.raw, b'.cap, i, j, k);
    }
    if Returned(b.screened, j) && |b.screened.calls| <= i < |b'.screened.calls| && k < |b'.screened.subs| {
      OrderByTime(b.screened, b'.screened, b'.cap, i, j, k);
    }
  }

  lemma {:induction false} KeptIsNoLonger(offered: seq<nat>, dropped: set<nat>)
    ensures |Kept(offered, dropped)| <= |offered|
  {
    if offered != [] {
      KeptIsNoLonger(offered[..|offered| - 1], dropped);
    }
  }

  /** Nothing is dropped before a whole buffer has been offered. */
  lemma FirstBufferIsNeverDropped<E>(t: Topic<E>, cap: nat, k: nat, p: nat)
    requires TopicInv(t, cap) && k < |t.subs| && p < |t.subs[k].offered| && p < cap
    ensures t.subs[k].offered[p] in t.subs[k].received + t.subs[k].queue
  {
    var s := t.subs[k];
    KeptIsNoLonger(s.offered[..p], s.dropped);
    KeptMembers(s.offered, s.dropped, s.offered[p]);
  }

  /** Whatever the step, a subscriber loses an event exactly when one is offered to it on a
      full buffer. */
  lemma DropsOnlyWhenFull<E>(t: Topic<E>, cap: nat, closed: bool, a: TopicAction<E>, k: nat)
    requires TopicInv(t, cap) && TopicEnabled(t, cap, a) && k < |t.subs| && !t.subs[k].closed
    ensures k < |ApplyTopic(t, cap, closed, a).subs|
    ensures ApplyTopic(t, cap, closed, a).subs[k].dropped != t.subs[k].dropped
       <==> a.Offer? && t.calls[a.call].next == k && |t.subs[k].queue| == cap
  {
    assert SubInv(t.subs[k], cap) && OfferedExactly(t, k);
    if a.Offer? && t.calls[a.call].next == k {
      assert a.call !in t.subs[k].offered;
      assert a.call !in t.subs[k].dropped;
    }
  }

  /** A cancelled call was offered to a proper prefix of its subscribers, an accepted one to
      all of them, a refused one to none. */
  lemma OfferedToAPrefix<E>(t: Topic<E>, cap: nat, i: nat, k: nat)
    requires TopicInv(t, cap) && i < |t.calls| && k < |t.subs|
    ensures var c := t.calls[i];
            && (i in t.subs[k].offered <==> k < c.next)
            && (c.status == Accepted ==> (i in t.subs[k].offered <==> k < c.width))
            && (c.status == Cancelled ==> c.next < c.width)
            && (c.status == Refused ==> i !in t.subs[k].offered)
  {
    assert OfferedExactly(t, k) && CallInv(t, i);
  }

  // --------------------------------------------------------------- short runs

  lemma Last<A, B>(b: Bus<A, B>, a: Action<A, B>)
    requires Enabled(b, a)
    ensures Runs(b, [a]) && Exec(b, [a]) == Apply(b, a)
  {
    assert [a][1..] == [];
  }

  lemma Prepend<A, B>(b: Bus<A, B>, a: Action<A, B>, acts: seq<Action<A, B>>)
    requires Enabled(b, a) && Runs(Apply(b, a), acts)
    ensures Runs(b, [a] + acts) && Exec(b, [a] + acts) == Exec(Apply(b, a), acts)
  {
    assert ([a] + acts)[1..] == acts;
  }
}
