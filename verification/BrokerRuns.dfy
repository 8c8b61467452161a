/** The broker object refines the interleaving machine: a call that nothing interrupts is a
    run of the machine, and does there what the object's method promises. */
module BrokerRuns {
  import opened Broker
  import opened B = Bus
  import BusRuns

  // --------------------------------------------------- runs of a single topic

  ghost predicate TopicRuns<E>(t: Topic<E>, cap: nat, acts: seq<TopicAction<E>>)
    decreases |acts|
  {
    || acts == []
    || (!acts[0].Subscribe? && TopicEnabled(t, cap, acts[0])
        && TopicRuns(ApplyTopic(t, cap, false, acts[0]), cap, acts[1..]))
  }

  ghost function TopicExec<E>(t: Topic<E>, cap: nat, acts: seq<TopicAction<E>>): Topic<E>
    requires TopicRuns(t, cap, acts)
    decreases |acts|
  {
    if acts == [] then t else TopicExec(ApplyTopic(t, cap, false, acts[0]), cap, acts[1..])
  }

  lemma TopicPrepend<E>(t: Topic<E>, cap: nat, a: TopicAction<E>, acts: seq<TopicAction<E>>)
    requires !a.Subscribe? && TopicEnabled(t, cap, a) && TopicRuns(ApplyTopic(t, cap, false, a), cap, acts)
    ensures TopicRuns(t, cap, [a] + acts)
    ensures TopicExec(t, cap, [a] + acts) == TopicExec(ApplyTopic(t, cap, false, a), cap, acts)
  {
    assert ([a] + acts)[1..] == acts;
  }

  lemma TopicOne<E>(t: Topic<E>, cap: nat, a: TopicAction<E>)
    requires !a.Subscribe? && TopicEnabled(t, cap, a)
    ensures TopicRuns(t, cap, [a]) && TopicExec(t, cap, [a]) == ApplyTopic(t, cap, false, a)
  {
    assert [a][1..] == [];
  }

  // ----------------------------------------------------- what the object holds

  /** The object's view of a subscriber: call names read as events. */
  ghost function ViewOf<E>(t: Topic<E>, k: nat): Channel<E>
    requires k < |t.subs| && NamesCalls(t)
  {
    var q := t.subs[k].queue;
    assert forall i :: 0 <= i < |q| ==> q[i] in q;
    Channel(seq(|q|, i requires 0 <= i < |q| => t.calls[q[i]].event), t.subs[k].closed)
  }

  ghost function View<E>(t: Topic<E>): (subs: seq<Channel<E>>)
    requires NamesCalls(t)
    ensures |subs| == |t.subs|
  {
    seq(|t.subs|, k requires 0 <= k < |t.subs| => ViewOf(t, k))
  }

  /** Queues hold names of calls. */
  ghost predicate NamesCalls<E>(t: Topic<E>) {
    forall k, x :: 0 <= k < |t.subs| && x in t.subs[k].queue ==> x < |t.calls|
  }

  lemma SoundTopicsAreNamed<E>(t: Topic<E>, cap: nat)
    requires TopicInv(t, cap)
    ensures NamesCalls(t)
  {
    forall k, x | 0 <= k < |t.subs| && x in t.subs[k].queue ensures x < |t.calls| {
      BusRuns.Delivery(t, cap, k);
      assert x in t.subs[k].received + t.subs[k].queue;
    }
  }

  /** Views depend on the queues and on the events of calls, which never change. */
  ghost predicate SameEvents<E>(t: Topic<E>, t': Topic<E>) {
    && |t.calls| <= |t'.calls|
    && forall i :: 0 <= i < |t.calls| ==> t'.calls[i].event == t.calls[i].event
  }

  lemma ViewIsStable<E>(t: Topic<E>, t': Topic<E>, k: nat)
    requires NamesCalls(t) && NamesCalls(t') && SameEvents(t, t') && k < |t.subs| && k < |t'.subs|
    requires t'.subs[k].queue == t.subs[k].queue && t'.subs[k].closed == t.subs[k].closed
    ensures ViewOf(t', k) == ViewOf(t, k)
  {
    var q := t.subs[k].queue;
    assert forall i :: 0 <= i < |q| ==> q[i] in q;
  }

  // ------------------------------------------------------- the publisher's loop

  /** Once a context is done it stays done. */
  ghost predicate StaysDone(env: nat -> Select) {
    forall i: nat, j: nat :: i <= j && env(i).done ==> env(j).done
  }

  /** A publisher at subscriber `k` of an open topic. */
  ghost predicate AtSelect<E>(t: Topic<E>, call: nat, k: nat) {
    && NamesCalls(t) && IsActive(t, call) && t.calls[call].next == k <= t.calls[call].width == |t.subs|
    && forall i :: 0 <= i < |t.subs| ==> !t.subs[i].closed
  }

  /** Its context is only done if an earlier select found it so. */
  ghost predicate NotedDone<E>(t: Topic<E>, call: nat, k: nat, env: nat -> Select)
    requires call < |t.calls|
  {
    t.calls[call].expired ==> k > 0 && env(k - 1).done
  }

  /** What the rest of the loop did. */
  ghost predicate LoopDone<E>(t: Topic<E>, t': Topic<E>, cap: nat, call: nat, env: nat -> Select, k: nat, n: nat) {
    && NamesCalls(t) && NamesCalls(t') && call < |t.calls| && |t'.calls| == |t.calls| && SameEvents(t, t')
    && FannedOut(View(t), View(t'), cap, t.calls[call].event, env, k, n)
    && t'.calls[call].next == n
    && t'.calls[call].status == if n == |t.subs| then Accepted else Cancelled
  }

  /** The context is noticed to be done before select `k`, if it is. */
  lemma Expired<E>(t: Topic<E>, cap: nat, call: nat, env: nat -> Select, k: nat) returns (acts: seq<TopicAction<E>>)
    requires AtSelect(t, call, k) && NotedDone(t, call, k, env) && k < |t.subs| && StaysDone(env)
    ensures TopicRuns(t, cap, acts)
    ensures var t' := TopicExec(t, cap, acts);
            && t'.subs == t.subs && SameEvents(t, t') && |t'.calls| == |t.calls| && NamesCalls(t')
            && t'.calls[call] == t.calls[call].(expired := env(k).done)
  {
    if env(k).done {
      TopicOne(t, cap, Expire(call));
      acts := [Expire(call)];
    } else {
      assert !t.calls[call].expired;
      acts := [];
    }
  }

  lemma OneOffer<E>(t: Topic<E>, cap: nat, call: nat, k: nat)
    requires AtSelect(t, call, k) && k < |t.subs|
    requires t.calls[call].expired ==> |t.subs[k].queue| < cap
    ensures CanOffer(t, cap, call)
    ensures var t' := ApplyTopic(t, cap, false, Offer(call));
            && NamesCalls(t') && SameEvents(t, t') && |t'.calls| == |t.calls| && |t'.subs| == |t.subs|
            && t'.calls[call] == t.calls[call].(next := k + 1)
            && ViewOf(t', k) == Sent(ViewOf(t, k), cap, t.calls[call].event)
            && (forall i: nat :: i < |t.subs| && i != k ==> ViewOf(t', i) == ViewOf(t, i))
            && (forall i :: 0 <= i < |t'.subs| ==> !t'.subs[i].closed)
  {
    var t' := ApplyTopic(t, cap, false, Offer(call));
    forall i, x | 0 <= i < |t'.subs| && x in t'.subs[i].queue ensures x < |t'.calls| {
      assert x in t.subs[i].queue || x == call;
    }
    forall i: nat | i < |t.subs| && i != k ensures ViewOf(t', i) == ViewOf(t, i) {
      ViewIsStable(t, t', i);
    }
    var q := t.subs[k].queue;
    forall i | 0 <= i < |q| ensures q[i] < |t.calls| {
      assert q[i] in q;
    }
    assert ViewOf(t', k) == Sent(ViewOf(t, k), cap, t.calls[call].event);
  }

  /** From select `k` on, the rest of the loop is a run. */
  lemma {:induction false} LoopIsARun<E>(t: Topic<E>, cap: nat, call: nat, env: nat -> Select, k: nat)
    returns (acts: seq<TopicAction<E>>, n: nat)
    requires AtSelect(t, call, k) && NotedDone(t, call, k, env) && StaysDone(env)
    ensures TopicRuns(t, cap, acts) && LoopDone(t, TopicExec(t, cap, acts), cap, call, env, k, n)
    decreases |t.subs| - k
  {
    if k == |t.subs| {
      acts, n := [Return(call)], k;
      TopicOne(t, cap, Return(call));
      NothingMoved(t, TopicExec(t, cap, acts));
      return;
    }
    var first := Expired(t, cap, call, env, k);
    var t1 := TopicExec(t, cap, first);
    NothingMoved(t, t1);
    if Stops(ViewOf(t, k), cap, env(k)) {
      acts, n := [Cancel(call)], k;
      TopicOne(t1, cap, Cancel(call));
      NothingMoved(t1, TopicExec(t1, cap, acts));
    } else {
      OneOffer(t1, cap, call, k);
      var t2 := ApplyTopic(t1, cap, false, Offer(call));
      var rest;
      rest, n := LoopIsARun(t2, cap, call, env, k + 1);
      acts := [Offer(call)] + rest;
      TopicPrepend(t1, cap, Offer(call), rest);
      LoopExtends(t1, t2, TopicExec(t2, cap, rest), cap, call, env, k, n);
    }
    TopicConcat(t, cap, first, acts);
    acts := first + acts;
  }

  lemma NothingMoved<E>(t: Topic<E>, t': Topic<E>)
    requires NamesCalls(t) && t'.subs == t.subs && SameEvents(t, t')
    ensures NamesCalls(t') && View(t') == View(t)
  {
    forall k: nat | k < |t.subs| ensures NamesCalls(t') && ViewOf(t', k) == ViewOf(t, k) {
      ViewIsStable(t, t', k);
    }
  }

  lemma LoopExtends<E>(t: Topic<E>, mid: Topic<E>, end: Topic<E>, cap: nat, call: nat, env: nat -> Select, k: nat,
                       n: nat)
    requires NamesCalls(t) && NamesCalls(mid) && call < |t.calls| && SameEvents(t, mid) && |mid.calls| == |t.calls|
    requires k < |t.subs| == |mid.subs| && !Stops(ViewOf(t, k), cap, env(k))
    requires ViewOf(mid, k) == Sent(ViewOf(t, k), cap, t.calls[call].event)
    requires forall i: nat :: i < |t.subs| && i != k ==> ViewOf(mid, i) == ViewOf(t, i)
    requires LoopDone(mid, end, cap, call, env, k + 1, n)
    ensures LoopDone(t, end, cap, call, env, k, n)
  {
    var e := t.calls[call].event;
    assert View(end)[k] == View(mid)[k];
    forall i: nat | k <= i < n ensures View(end)[i] == Sent(View(t)[i], cap, e) && !Stops(View(t)[i], cap, env(i)) {
      if i != k {
        assert View(mid)[i] == View(t)[i];
      }
    }
    forall i: nat | i < |t.subs| && (i < k || n <= i) ensures View(end)[i] == View(t)[i] {
      assert View(mid)[i] == View(t)[i];
    }
    if n < |t.subs| {
      assert View(mid)[n] == View(t)[n];
    }
  }

  lemma {:induction false} TopicConcat<E>(t: Topic<E>, cap: nat, xs: seq<TopicAction<E>>, ys: seq<TopicAction<E>>)
    requires TopicRuns(t, cap, xs) && TopicRuns(TopicExec(t, cap, xs), cap, ys)
    ensures TopicRuns(t, cap, xs + ys) && TopicExec(t, cap, xs + ys) == TopicExec(TopicExec(t, cap, xs), cap, ys)
    decreases |xs|
  {
    if xs == [] {
      assert xs + ys == ys;
    } else {
      TopicConcat(ApplyTopic(t, cap, false, xs[0]), cap, xs[1..], ys);
      TopicPrepend(t, cap, xs[0], xs[1..] + ys);
      assert xs + ys == [xs[0]] + (xs[1..] + ys);
    }
  }

  // ------------------------------------------------------- runs of the broker

  function RawActs<X, Y>(acts: seq<TopicAction<X>>): seq<Action<X, Y>> {
    seq(|acts|, i requires 0 <= i < |acts| => Raw(acts[i]))
  }

  function ScreenedActs<X, Y>(acts: seq<TopicAction<Y>>): seq<Action<X, Y>> {
    seq(|acts|, i requires 0 <= i < |acts| => Screened(acts[i]))
  }

  lemma {:induction false} RawLifts<X, Y>(b: Bus<X, Y>, acts: seq<TopicAction<X>>)
    requires !b.closed && b.closer == NotClosing && TopicRuns(b.raw, b.cap, acts)
    ensures BusRuns.Runs(b, RawActs(acts))
    ensures BusRuns.Exec(b, RawActs(acts)) == b.(raw := TopicExec(b.raw, b.cap, acts))
    decreases |acts|
  {
    if acts != [] {
      assert RawActs<X, Y>(acts)[1..] == RawActs(acts[1..]);
      RawLifts(Apply(b, Raw(acts[0])), acts[1..]);
    }
  }

  lemma {:induction false} ScreenedLifts<X, Y>(b: Bus<X, Y>, acts: seq<TopicAction<Y>>)
    requires !b.closed && b.closer == NotClosing && TopicRuns(b.screened, b.cap, acts)
    ensures BusRuns.Runs(b, ScreenedActs(acts))
    ensures BusRuns.Exec(b, ScreenedActs(acts)) == b.(screened := TopicExec(b.screened, b.cap, acts))
    decreases |acts|
  {
    if acts != [] {
      assert ScreenedActs<X, Y>(acts)[1..] == ScreenedActs(acts[1..]);
      ScreenedLifts(Apply(b, Screened(acts[0])), acts[1..]);
    }
  }

  /** A whole Publish call on an open topic. */
  lemma CallIsARun<E>(t: Topic<E>, cap: nat, event: E, env: nat -> Select)
    returns (acts: seq<TopicAction<E>>, n: nat)
    requires TopicInv(t, cap) && ClosedUpTo(t, 0) && StaysDone(env)
    ensures NamesCalls(t) && TopicRuns(t, cap, acts)
    ensures var t' := TopicExec(t, cap, acts);
            && NamesCalls(t') && |t'.calls| == |t.calls| + 1
            && FannedOut(View(t), View(t'), cap, event, env, 0, n)
            && t'.calls[|t.calls|].status == if n == |t.subs| then Accepted else Cancelled
  {
    SoundTopicsAreNamed(t, cap);
    var t1 := ApplyTopic(t, cap, false, Begin(event));
    forall k, x | 0 <= k < |t1.subs| && x in t1.subs[k].queue ensures x < |t1.calls| {
      assert x < |t.calls|;
    }
    NothingMoved(t, t1);
    hide TopicInv;
    var rest;
    rest, n := LoopIsARun(t1, cap, |t.calls|, env, 0);
    TopicPrepend(t, cap, Begin(event), rest);
    acts := [Begin(event)] + rest;
  }

  /** PublishRaw refines the machine: what the object's method leaves behind, one
      uninterrupted run of the machine leaves behind, with the same answer. */
  lemma PublishRawIsARun<X, Y>(b: Bus<X, Y>, event: X, env: nat -> Select)
    returns (acts: seq<Action<X, Y>>)
    requires Inv(b) && !b.closed && StaysDone(env)
    ensures BusRuns.Runs(b, acts)
    ensures var b' := BusRuns.Exec(b, acts);
            && b' == b.(raw := b'.raw) && NamesCalls(b.raw) && NamesCalls(b'.raw)
            && View(b'.raw) == Published(View(b.raw), b.cap, event, env)
            && |b'.raw.calls| == |b.raw.calls| + 1
            && b'.raw.calls[|b.raw.calls|].status == StatusOf(View(b.raw), b.cap, env)
  {
    var moves, m := CallIsARun(b.raw, b.cap, event, env);
    RawLifts(b, moves);
    acts := RawActs(moves);
    PublishedIsFannedOut(View(b.raw), b.cap, event, env);
    FanOutIsDetermined(View(b.raw), Published(View(b.raw), b.cap, event, env),
                       View(TopicExec(b.raw, b.cap, moves)), b.cap, event, env,
                       Reached(View(b.raw), b.cap, env, 0), m);
  }

  lemma PublishScreenedIsARun<X, Y>(b: Bus<X, Y>, event: Y, env: nat -> Select)
    returns (acts: seq<Action<X, Y>>)
    requires Inv(b) && !b.closed && StaysDone(env)
    ensures BusRuns.Runs(b, acts)
    ensures var b' := BusRuns.Exec(b, acts);
            && b' == b.(screened := b'.screened) && NamesCalls(b.screened) && NamesCalls(b'.screened)
            && View(b'.screened) == Published(View(b.screened), b.cap, event, env)
            && |b'.screened.calls| == |b.screened.calls| + 1
            && b'.screened.calls[|b.screened.calls|].status == StatusOf(View(b.screened), b.cap, env)
  {
    assert ClosedUpTo(b.screened, 0);
    var moves, m := CallIsARun(b.screened, b.cap, event, env);
    ScreenedLifts(b, moves);
    acts := ScreenedActs(moves);
    PublishedIsFannedOut(View(b.screened), b.cap, event, env);
    FanOutIsDetermined(View(b.screened), Published(View(b.screened), b.cap, event, env),
                       View(TopicExec(b.screened, b.cap, moves)), b.cap, event, env,
                       Reached(View(b.screened), b.cap, env, 0), m);
  }

  /** The same topic with every channel closed. */
  ghost predicate Sealed<E>(t: Topic<E>, t': Topic<E>) {
    && t'.calls == t.calls && t'.panicked == t.panicked && |t'.subs| == |t.subs|
    && forall k :: 0 <= k < |t.subs| ==> t'.subs[k] == t.subs[k].(closed := true)
  }

  /** `t'` is `t` with some channels closed. */
  ghost predicate PartlySealed<E>(t: Topic<E>, t': Topic<E>) {
    && t'.calls == t.calls && t'.panicked == t.panicked && |t'.subs| == |t.subs|
    && forall k :: 0 <= k < |t.subs| ==> t'.subs[k].(closed := true) == t.subs[k].(closed := true)
  }

  lemma OneMoreClosed<X, Y>(b: Bus<X, Y>)
    requires Inv(b) && b.closer.Closing? && b.closer.k < |b.raw.subs| + |b.screened.subs|
    ensures Enabled(b, CloseNext)
    ensures var b' := Apply(b, CloseNext);
            && Inv(b') && b'.closer == Closing(b.closer.k + 1) && b'.cap == b.cap
            && PartlySealed(b.raw, b'.raw) && PartlySealed(b.screened, b'.screened)
  {
    Step(b, CloseNext);
    var b' := Apply(b, CloseNext);
    assert !b'.raw.panicked && !b'.screened.panicked && !b.raw.panicked && !b.screened.panicked;
    hide Inv, TopicInv;
  }

  lemma {:induction false} ClosingIsARun<X, Y>(b: Bus<X, Y>) returns (acts: seq<Action<X, Y>>)
    requires Inv(b) && b.closer.Closing?
    ensures BusRuns.Runs(b, acts)
    ensures var b' := BusRuns.Exec(b, acts);
            && b'.closed && b'.closer == NotClosing && b'.cap == b.cap
            && Sealed(b.raw, b'.raw) && Sealed(b.screened, b'.screened)
    decreases |b.raw.subs| + |b.screened.subs| - b.closer.k
  {
    if b.closer.k == |b.raw.subs| + |b.screened.subs| {
      BusRuns.Last(b, EndClose);
      acts := [EndClose];
      AllWereClosed(b);
    } else {
      assert b.closed && b.closer.k <= |b.raw.subs| + |b.screened.subs|;
      OneMoreClosed(b);
      hide Inv, Apply, Enabled;
      var mid := Apply(b, CloseNext);
      var rest := ClosingIsARun(mid);
      acts := [CloseNext] + rest;
      BusRuns.Prepend(b, CloseNext, rest);
      var b' := BusRuns.Exec(mid, rest);
      SealedChains(b.raw, mid.raw, b'.raw);
      SealedChains(b.screened, mid.screened, b'.screened);
    }
  }

  lemma AllWereClosed<X, Y>(b: Bus<X, Y>)
    requires Inv(b) && b.closer == Closing(|b.raw.subs| + |b.screened.subs|)
    ensures b.closed && Sealed(b.raw, b.raw) && Sealed(b.screened, b.screened)
  {
    hide TopicInv;
    forall k | 0 <= k < |b.raw.subs| ensures b.raw.subs[k].closed {
    }
    forall k | 0 <= k < |b.screened.subs| ensures b.screened.subs[k].closed {
    }
  }

  lemma SealedChains<E>(t0: Topic<E>, t1: Topic<E>, t2: Topic<E>)
    requires PartlySealed(t0, t1) && Sealed(t1, t2)
    ensures Sealed(t0, t2)
  {
    forall k | 0 <= k < |t0.subs| ensures t2.subs[k] == t0.subs[k].(closed := true) {
      assert t2.subs[k] == t1.subs[k].(closed := true);
    }
  }

  /** Close refines the machine too. */
  lemma CloseIsARun<X, Y>(b: Bus<X, Y>) returns (acts: seq<Action<X, Y>>)
    requires Inv(b) && Unlocked(b) && !b.closed && NamesCalls(b.raw) && NamesCalls(b.screened)
    ensures BusRuns.Runs(b, acts)
    ensures var b' := BusRuns.Exec(b, acts);
            && b'.closed && NamesCalls(b'.raw) && NamesCalls(b'.screened)
            && ShutDown(View(b.raw), View(b'.raw), |b.raw.subs|)
            && ShutDown(View(b.screened), View(b'.screened), |b.screened.subs|)
  {
    Step(b, BeginClose);
    var mid := Apply(b, BeginClose);
    var rest := ClosingIsARun(mid);
    acts := [BeginClose] + rest;
    BusRuns.Prepend(b, BeginClose, rest);
    SealedIsShutDown(b.raw, BusRuns.Exec(mid, rest).raw);
    SealedIsShutDown(b.screened, BusRuns.Exec(mid, rest).screened);
  }

  lemma SealedIsShutDown<E>(t: Topic<E>, t': Topic<E>)
    requires NamesCalls(t) && Sealed(t, t')
    ensures NamesCalls(t') && ShutDown(View(t), View(t'), |t.subs|)
  {
  }
}
