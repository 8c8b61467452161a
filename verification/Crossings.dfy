/** When two subscribers can see two events in opposite orders. Publishers share the lock, so
    delivery has no total order; what it has is real-time order, and nothing more. */
module Crossings {
  import opened BrokerRuns
  import opened BusRuns
  import opened Bus

  /** All that a subscriber has got or will still get of what was offered to it so far. */
  function Delivered(s: Sub): seq<nat> {
    s.received + s.queue
  }

  ghost predicate Before(s: seq<nat>, i: nat, j: nat) {
    exists p, q :: 0 <= p < q < |s| && s[p] == i && s[q] == j
  }

  /** Subscriber `k` gets call `i` ahead of `j`, and subscriber `l` gets them the other way. */
  ghost predicate Crossed<E>(t: Topic<E>, i: nat, j: nat, k: nat, l: nat) {
    && k < |t.subs| && l < |t.subs|
    && Before(Delivered(t.subs[k]), i, j) && Before(Delivered(t.subs[l]), j, i)
  }

  // ------------------------------------------- a call that has returned stays put

  lemma ReturnedCallsRest<E>(t: Topic<E>, cap: nat, closed: bool, a: TopicAction<E>, i: nat)
    requires TopicEnabled(t, cap, a) && i < |t.calls| && t.calls[i].status != Active
    ensures i < |ApplyTopic(t, cap, closed, a).calls| && ApplyTopic(t, cap, closed, a).calls[i] == t.calls[i]
  {
  }

  lemma StepLeavesReturnedCalls<A, B>(b: Bus<A, B>, a: Action<A, B>)
    requires Enabled(b, a)
    ensures forall i: nat :: i < |b.raw.calls| && b.raw.calls[i].status != Active ==>
              i < |Apply(b, a).raw.calls| && Apply(b, a).raw.calls[i] == b.raw.calls[i]
    ensures forall i: nat :: i < |b.screened.calls| && b.screened.calls[i].status != Active ==>
              i < |Apply(b, a).screened.calls| && Apply(b, a).screened.calls[i] == b.screened.calls[i]
  {
    if a.Raw? {
      forall i: nat | i < |b.raw.calls| && b.raw.calls[i].status != Active
        ensures i < |Apply(b, a).raw.calls| && Apply(b, a).raw.calls[i] == b.raw.calls[i]
      {
        ReturnedCallsRest(b.raw, b.cap, b.closed, a.a, i);
      }
    }
    if a.Screened? {
      forall i: nat | i < |b.screened.calls| && b.screened.calls[i].status != Active
        ensures i < |Apply(b, a).screened.calls| && Apply(b, a).screened.calls[i] == b.screened.calls[i]
      {
        ReturnedCallsRest(b.screened, b.cap, b.closed, a.b, i);
      }
    }
    hide ApplyTopic, TopicEnabled;
  }

  lemma {:induction false} ReturnedCallsStay<A, B>(b: Bus<A, B>, acts: seq<Action<A, B>>)
    requires Runs(b, acts)
    ensures forall i: nat :: i < |b.raw.calls| && b.raw.calls[i].status != Active ==>
              i < |Exec(b, acts).raw.calls| && Exec(b, acts).raw.calls[i] == b.raw.calls[i]
    ensures forall i: nat :: i < |b.screened.calls| && b.screened.calls[i].status != Active ==>
              i < |Exec(b, acts).screened.calls| && Exec(b, acts).screened.calls[i] == b.screened.calls[i]
    decreases |acts|
  {
    if acts != [] {
      StepLeavesReturnedCalls(b, acts[0]);
      ReturnedCallsStay(Apply(b, acts[0]), acts[1..]);
      hide Apply, Enabled;
    }
  }

  /** What has been delivered was offered. */
  lemma DeliveredWasOffered<E>(t: Topic<E>, cap: nat, i: nat, k: nat)
    requires TopicInv(t, cap) && k < |t.subs| && i in Delivered(t.subs[k])
    ensures i < |t.calls| && k < t.calls[i].next
  {
    Delivery(t, cap, k);
  }

  lemma CrossedWereOffered<E>(t: Topic<E>, cap: nat, i: nat, j: nat, k: nat, l: nat)
    requires TopicInv(t, cap) && Crossed(t, i, j, k, l)
    ensures i < |t.calls| && j < |t.calls| && k < t.calls[i].next && k < t.calls[j].next
  {
    hide TopicInv;
    DeliveredWasOffered(t, cap, i, k);
    DeliveredWasOffered(t, cap, j, k);
  }

  // ------------------------------------------------ two running calls can cross

  /** `t'` is `t` after call `i` has moved on to subscriber `m`: it has been delivered to those
      it passed, and nothing else has been delivered to anybody. */
  ghost predicate MovedOn<E>(t: Topic<E>, t': Topic<E>, i: nat, m: nat)
    requires i < |t.calls|
  {
    && |t'.subs| == |t.subs| && t'.calls == t.calls[i := t.calls[i].(next := m)]
    && forall s :: 0 <= s < |t.subs| ==>
         Delivered(t'.subs[s]) == Delivered(t.subs[s]) + if t.calls[i].next <= s < m then [i] else []
  }

  /** An open topic on which call `i` runs. */
  ghost predicate OpenFor<E>(t: Topic<E>, cap: nat, i: nat) {
    TopicInv(t, cap) && ClosedUpTo(t, 0) && IsActive(t, i)
  }

  lemma OpenMeansRunning<E>(t: Topic<E>, cap: nat, i: nat)
    requires OpenFor(t, cap, i)
    ensures IsActive(t, i)
  {
  }

  lemma RunningCallFacts<E>(t: Topic<E>, cap: nat, i: nat, j: nat)
    requires OpenFor(t, cap, i) && IsActive(t, j)
    ensures OpenFor(t, cap, j) && t.calls[j].next <= t.calls[j].width == |t.subs|
  {
    assert CallInv(t, j);
    hide SubInv, OfferedExactly, InRealTimeOrder;
  }

  lemma ReceiveMoves<E>(t: Topic<E>, cap: nat, i: nat, n: nat)
    requires OpenFor(t, cap, i) && n < |t.subs| && t.subs[n].queue != []
    ensures TopicEnabled(t, cap, Receive(n))
    ensures var t' := ApplyTopic(t, cap, false, Receive(n));
            && OpenFor(t', cap, i) && t'.calls == t.calls && |t'.subs| == |t.subs|
            && |t'.subs[n].queue| == |t.subs[n].queue| - 1
            && forall s :: 0 <= s < |t.subs| ==> Delivered(t'.subs[s]) == Delivered(t.subs[s])
  {
    TopicStep(t, cap, false, Receive(n));
    hide TopicInv;
    assert Delivered(Popped(t.subs[n])) == Delivered(t.subs[n]);
  }

  lemma OfferMovesOn<E>(t: Topic<E>, cap: nat, i: nat)
    requires OpenFor(t, cap, i) && t.calls[i].next < t.calls[i].width <= |t.subs|
    requires |t.subs[t.calls[i].next].queue| < cap
    ensures TopicEnabled(t, cap, Offer(i))
    ensures var t' := ApplyTopic(t, cap, false, Offer(i));
            OpenFor(t', cap, i) && MovedOn(t, t', i, t.calls[i].next + 1)
  {
    TopicStep(t, cap, false, Offer(i));
    hide TopicInv;
    var n := t.calls[i].next;
    assert Delivered(Offered(t.subs[n], cap, i)) == Delivered(t.subs[n]) + [i];
  }

  lemma BuffersHold<E>(t: Topic<E>, cap: nat, i: nat, n: nat)
    requires OpenFor(t, cap, i) && n < |t.subs|
    ensures |t.subs[n].queue| <= cap
  {
    assert SubInv(t.subs[n], cap);
  }

  /** A running call can get past its next subscriber and be delivered to it, once that has
      made room. */
  lemma PassOne<E>(t: Topic<E>, cap: nat, i: nat) returns (acts: seq<TopicAction<E>>)
    requires OpenFor(t, cap, i) && cap > 0 && t.calls[i].next < t.calls[i].width <= |t.subs|
    ensures TopicRuns(t, cap, acts)
    ensures var t' := TopicExec(t, cap, acts);
            OpenFor(t', cap, i) && MovedOn(t, t', i, t.calls[i].next + 1)
  {
    hide OpenFor, TopicRuns, TopicExec, ApplyTopic, TopicEnabled, Delivered;
    OpenMeansRunning(t, cap, i);
    var n := t.calls[i].next;
    BuffersHold(t, cap, i, n);
    if |t.subs[n].queue| < cap {
      OfferMovesOn(t, cap, i);
      TopicOne(t, cap, Offer(i));
      acts := [Offer(i)];
    } else {
      ReceiveMoves(t, cap, i, n);
      var t1 := ApplyTopic(t, cap, false, Receive(n));
      OfferMovesOn(t1, cap, i);
      TopicOne(t1, cap, Offer(i));
      TopicPrepend(t, cap, Receive(n), [Offer(i)]);
      acts := [Receive(n)] + [Offer(i)];
    }
  }

  lemma StayingIsMovedOn<E>(t: Topic<E>, cap: nat, i: nat)
    requires i < |t.calls|
    ensures TopicRuns(t, cap, []) && TopicExec(t, cap, []) == t && MovedOn(t, t, i, t.calls[i].next)
  {
    assert t.calls[i].(next := t.calls[i].next) == t.calls[i];
  }

  lemma MovedOnChains<E>(t: Topic<E>, t1: Topic<E>, t2: Topic<E>, i: nat, m: nat, n: nat)
    requires i < |t.calls| && t.calls[i].next <= m <= n && MovedOn(t, t1, i, m) && MovedOn(t1, t2, i, n)
    ensures MovedOn(t, t2, i, n)
  {
    hide Delivered;
  }

  lemma {:induction false} DriveTo<E>(t: Topic<E>, cap: nat, i: nat, m: nat) returns (acts: seq<TopicAction<E>>)
    requires OpenFor(t, cap, i) && cap > 0 && t.calls[i].next <= m <= t.calls[i].width <= |t.subs|
    ensures TopicRuns(t, cap, acts)
    ensures var t' := TopicExec(t, cap, acts);
            OpenFor(t', cap, i) && MovedOn(t, t', i, m)
    decreases m - t.calls[i].next
  {
    hide OpenFor, TopicRuns, TopicExec, Delivered;
    OpenMeansRunning(t, cap, i);
    if t.calls[i].next == m {
      acts := [];
      StayingIsMovedOn(t, cap, i);
    } else {
      var one := PassOne(t, cap, i);
      var t1 := TopicExec(t, cap, one);
      var more := DriveTo(t1, cap, i, m);
      TopicConcat(t, cap, one, more);
      MovedOnChains(t, t1, TopicExec(t1, cap, more), i, t.calls[i].next + 1, m);
      acts := one + more;
    }
  }

  lemma BeforeAtTheEnd(s: seq<nat>, i: nat, j: nat)
    ensures Before(s + [i] + [j], i, j)
  {
    var r := s + [i] + [j];
    assert r[|s|] == i && r[|s| + 1] == j;
  }

  lemma CrossedByMoves<E>(t: Topic<E>, t1: Topic<E>, t2: Topic<E>, t3: Topic<E>, i: nat, j: nat, k: nat, l: nat)
    requires i < |t.calls| && j < |t.calls| && i != j && k < l < |t.subs|
    requires t.calls[i].next <= k && t.calls[j].next <= k
    requires MovedOn(t, t1, i, k + 1) && MovedOn(t1, t2, j, l + 1) && MovedOn(t2, t3, i, l + 1)
    ensures Crossed(t3, i, j, k, l)
  {
    hide Delivered, Before;
    BeforeAtTheEnd(Delivered(t.subs[k]), i, j);
    BeforeAtTheEnd(Delivered(t.subs[l]), j, i);
    assert Delivered(t2.subs[k]) == Delivered(t.subs[k]) + [i] + [j];
    assert Delivered(t3.subs[k]) == Delivered(t2.subs[k]);
    assert Delivered(t1.subs[l]) == Delivered(t.subs[l]);
    assert Delivered(t3.subs[l]) == Delivered(t.subs[l]) + [j] + [i];
  }

  /** Call `i` goes past subscriber `k` first, then `j` past both, then `i` past `l`. */
  lemma CrossingRun<E>(t: Topic<E>, cap: nat, i: nat, j: nat, k: nat, l: nat) returns (acts: seq<TopicAction<E>>)
    requires OpenFor(t, cap, i) && IsActive(t, j) && cap > 0 && i != j && k < l < |t.subs|
    requires t.calls[i].next <= k && t.calls[j].next <= k
    ensures TopicRuns(t, cap, acts) && Crossed(TopicExec(t, cap, acts), i, j, k, l)
  {
    hide OpenFor, TopicRuns, TopicExec, Delivered, Crossed;
    OpenMeansRunning(t, cap, i);
    RunningCallFacts(t, cap, i, i);
    RunningCallFacts(t, cap, i, j);
    var first := DriveTo(t, cap, i, k + 1);
    var t1 := TopicExec(t, cap, first);
    RunningCallFacts(t1, cap, i, j);
    var second := DriveTo(t1, cap, j, l + 1);
    var t2 := TopicExec(t1, cap, second);
    RunningCallFacts(t2, cap, j, i);
    var third := DriveTo(t2, cap, i, l + 1);
    var t3 := TopicExec(t2, cap, third);
    TopicConcat(t1, cap, second, third);
    TopicConcat(t, cap, first, second + third);
    acts := first + (second + third);
    CrossedByMoves(t, t1, t2, t3, i, j, k, l);
  }

  // ----------------------------------------------------------------- the theorem

  /** Some continuation delivers raw calls `i` and `j` to subscribers `k` and `l` crosswise. */
  ghost predicate CanCrossRaw<A(!new), B(!new)>(b: Bus<A, B>, i: nat, j: nat, k: nat, l: nat) {
    exists acts :: Runs(b, acts) && Crossed(Exec(b, acts).raw, i, j, k, l)
  }

  ghost predicate CanCrossScreened<A(!new), B(!new)>(b: Bus<A, B>, i: nat, j: nat, k: nat, l: nat) {
    exists acts :: Runs(b, acts) && Crossed(Exec(b, acts).screened, i, j, k, l)
  }

  lemma RunningMeansOpen<A, B>(b: Bus<A, B>)
    requires Inv(b) && (Busy(b.raw) || Busy(b.screened))
    ensures !b.closed && b.closer == NotClosing && ClosedUpTo(b.raw, 0)
    ensures ClosedUpTo(b.screened, 0)
  {
    hide TopicInv;
  }

  /** Two calls that have yet to reach two subscribers can be delivered to them in opposite
      orders if and only if both are running: a call that has returned reaches nobody any
      more, and two that overlap can always cross. */
  lemma CrossExactlyWhenBothRun<A(!new), B(!new)>(b: Bus<A, B>, i: nat, j: nat, k: nat, l: nat)
    requires Inv(b) && b.cap > 0 && i != j && i < |b.raw.calls| && j < |b.raw.calls|
    requires k < l < |b.raw.subs| && b.raw.calls[i].next <= k && b.raw.calls[j].next <= k
    ensures CanCrossRaw(b, i, j, k, l) <==> IsActive(b.raw, i) && IsActive(b.raw, j)
  {
    hide TopicInv, Crossed;
    if IsActive(b.raw, i) && IsActive(b.raw, j) {
      RunningMeansOpen(b);
      var acts := CrossingRun(b.raw, b.cap, i, j, k, l);
      RawLifts(b, acts);
    } else {
      forall acts | Runs(b, acts) ensures !Crossed(Exec(b, acts).raw, i, j, k, l) {
        ReturnedCallsStay(b, acts);
        InvAlways(b, acts);
        if Crossed(Exec(b, acts).raw, i, j, k, l) {
          CrossedWereOffered(Exec(b, acts).raw, Exec(b, acts).cap, i, j, k, l);
        }
      }
    }
  }

  lemma CrossExactlyWhenBothRunScreened<A(!new), B(!new)>(b: Bus<A, B>, i: nat, j: nat, k: nat, l: nat)
    requires Inv(b) && b.cap > 0 && i != j && i < |b.screened.calls| && j < |b.screened.calls|
    requires k < l < |b.screened.subs| && b.screened.calls[i].next <= k && b.screened.calls[j].next <= k
    ensures CanCrossScreened(b, i, j, k, l) <==> IsActive(b.screened, i) && IsActive(b.screened, j)
  {
    hide TopicInv, Crossed;
    if IsActive(b.screened, i) && IsActive(b.screened, j) {
      RunningMeansOpen(b);
      var acts := CrossingRun(b.screened, b.cap, i, j, k, l);
      ScreenedLifts(b, acts);
    } else {
      forall acts | Runs(b, acts) ensures !Crossed(Exec(b, acts).screened, i, j, k, l) {
        ReturnedCallsStay(b, acts);
        InvAlways(b, acts);
        if Crossed(Exec(b, acts).screened, i, j, k, l) {
          CrossedWereOffered(Exec(b, acts).screened, Exec(b, acts).cap, i, j, k, l);
        }
      }
    }
  }

  // --------------------------------------------------------- from a fresh broker

  /** Two subscribers, and two publishers that have only begun. */
  lemma TwoPublishersBegin<A, B>(bufferSize: int, x: A, y: A) returns (b: Bus<A, B>, acts: seq<Action<A, B>>)
    ensures Runs(NewBus<A, B>(bufferSize), acts) && b == Exec(NewBus<A, B>(bufferSize), acts)
    ensures b.cap > 0 && |b.raw.subs| == 2 && |b.raw.calls| == 2
    ensures forall i :: 0 <= i < 2 ==> b.raw.calls[i].status == Active && b.raw.calls[i].next == 0
  {
    var b0 := NewBus<A, B>(bufferSize);
    var b1 := Apply(b0, Raw(Subscribe));
    var b2 := Apply(b1, Raw(Subscribe));
    assert b2.raw.subs == [EmptySub(), EmptySub()] && b2.raw.calls == [];
    var b3 := Apply(b2, Raw(Begin(x)));
    b := Apply(b3, Raw(Begin(y)));
    Last(b3, Raw(Begin(y)));
    Prepend(b2, Raw(Begin(x)), [Raw(Begin(y))]);
    Prepend(b1, Raw(Subscribe), [Raw(Begin(x))] + [Raw(Begin(y))]);
    Prepend(b0, Raw(Subscribe), [Raw(Subscribe)] + ([Raw(Begin(x))] + [Raw(Begin(y))]));
    acts := [Raw(Subscribe)] + ([Raw(Subscribe)] + ([Raw(Begin(x))] + [Raw(Begin(y))]));
  }

  /** So with every buffer size and any two events, two publishers can leave two subscribers
      with opposite orders. */
  lemma SubscribersMayDisagree<A(!new), B(!new)>(bufferSize: int, x: A, y: A)
    returns (b: Bus<A, B>, acts: seq<Action<A, B>>)
    ensures Runs(NewBus<A, B>(bufferSize), acts) && b == Exec(NewBus<A, B>(bufferSize), acts)
    ensures |b.raw.subs| == 2 && CanCrossRaw(b, 0, 1, 0, 1)
  {
    b, acts := TwoPublishersBegin(bufferSize, x, y);
    NewBusIsSound<A, B>(bufferSize);
    InvAlways(NewBus<A, B>(bufferSize), acts);
    hide Inv, Exec, Runs;
    CrossExactlyWhenBothRun(b, 0, 1, 0, 1);
  }
}
