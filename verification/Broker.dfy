/** The object of pkg/broker/broker.go, whose channels are bounded queues. One call at a time
    runs here; `Bus` lets them interleave, and `BrokerRuns` shows that the two agree. */
module Broker {
  import B = Bus
  import opened Events

  /** A channel of the broker's capacity. */
  datatype Channel<E> = Channel(queue: seq<E>, closed: bool)

  /** What one select sees: whether the context is done, and whether that branch is taken
      when the channel is ready too. */
  datatype Select = Select(done: bool, prefersDone: bool)

  /** The select on `c` takes the ctx.Done branch. A full channel is not ready. */
  predicate Stops<E>(c: Channel<E>, cap: nat, s: Select) {
    s.done && (|c.queue| < cap ==> s.prefersDone)
  }

  /** A select may take ctx.Done exactly when the context is done, and may do otherwise exactly
      when there is room or the context is not done: between two ready branches it is free. */
  lemma SelectChoices<E>(c: Channel<E>, cap: nat, done: bool)
    ensures (exists s: Select :: s.done == done && Stops(c, cap, s)) <==> done
    ensures (exists s: Select :: s.done == done && !Stops(c, cap, s)) <==> |c.queue| < cap || !done
  {
    if done {
      assert Stops(c, cap, Select(done, true));
    }
    if |c.queue| < cap || !done {
      assert !Stops(c, cap, Select(done, false));
    }
  }

  function Sent<E>(c: Channel<E>, cap: nat, event: E): Channel<E> {
    if |c.queue| < cap then c.(queue := c.queue + [event]) else c
  }

  /** How far a loop over `subs` gets that stands at `from`: to its first stopping select. */
  function Reached<E>(subs: seq<Channel<E>>, cap: nat, env: nat -> Select, from: nat): (n: nat)
    requires from <= |subs|
    ensures from <= n <= |subs| && (n < |subs| ==> Stops(subs[n], cap, env(n)))
    ensures forall k: nat :: from <= k < n ==> !Stops(subs[k], cap, env(k))
    decreases |subs| - from
  {
    if from == |subs| || Stops(subs[from], cap, env(from)) then from else Reached(subs, cap, env, from + 1)
  }

  /** The channels after a Publish call that nothing interrupts. */
  function Published<E>(subs: seq<Channel<E>>, cap: nat, event: E, env: nat -> Select): seq<Channel<E>> {
    seq(|subs|, k requires 0 <= k < |subs| =>
      if k < Reached(subs, cap, env, 0) then Sent(subs[k], cap, event) else subs[k])
  }

  function StatusOf<E>(subs: seq<Channel<E>>, cap: nat, env: nat -> Select): B.Status {
    if Reached(subs, cap, env, 0) == |subs| then B.Accepted else B.Cancelled
  }

  /** The loop that PublishRaw and PublishScreened share. Sending on a closed channel would
      panic. */
  method FanOut<E>(subs: seq<Channel<E>>, cap: nat, event: E, env: nat -> Select)
    returns (subs': seq<Channel<E>>, status: B.Status)
    requires forall k :: 0 <= k < |subs| ==> !subs[k].closed
    ensures subs' == Published(subs, cap, event, env) && status == StatusOf(subs, cap, env)
  {
    subs' := subs;
    var i := 0;
    while i < |subs|
      invariant |subs'| == |subs| && i <= |subs|
      invariant Reached(subs, cap, env, i) == Reached(subs, cap, env, 0)
      invariant forall k: nat :: k < i ==> subs'[k] == Sent(subs[k], cap, event)
      invariant forall k: nat :: i <= k < |subs| ==> subs'[k] == subs[k]
    {
      var sub, s := subs'[i], env(i);
      if |sub.queue| < cap && !(s.done && s.prefersDone) {
        subs' := subs'[i := sub.(queue := sub.queue + [event])];
      } else if s.done {
        return subs', B.Cancelled;
      }
      i := i + 1;
    }
    status := B.Accepted;
  }

  /** A loop over `subs` that got from `from` to `reached`: the subscribers between took the
      event or dropped it on a full buffer, the others never saw it, and the loop ended
      because there were no more or because the next select took ctx.Done. */
  ghost predicate FannedOut<E>(subs: seq<Channel<E>>, subs': seq<Channel<E>>, cap: nat, event: E,
                               env: nat -> Select, from: nat, reached: nat) {
    && |subs'| == |subs| && from <= reached <= |subs|
    && (forall k: nat :: from <= k < reached ==> subs'[k] == Sent(subs[k], cap, event) && !Stops(subs[k], cap, env(k)))
    && (forall k: nat :: k < |subs| && (k < from || reached <= k) ==> subs'[k] == subs[k])
    && (reached < |subs| ==> Stops(subs[reached], cap, env(reached)))
  }

  lemma PublishedIsFannedOut<E>(subs: seq<Channel<E>>, cap: nat, event: E, env: nat -> Select)
    ensures FannedOut(subs, Published(subs, cap, event, env), cap, event, env, 0, Reached(subs, cap, env, 0))
  {
  }

  /** The outcome is fixed by what the selects see: a loop gets through as far as its first
      stopping select and no further. */
  lemma FanOutIsDetermined<E>(subs: seq<Channel<E>>, one: seq<Channel<E>>, two: seq<Channel<E>>, cap: nat,
                              event: E, env: nat -> Select, i: nat, j: nat)
    requires FannedOut(subs, one, cap, event, env, 0, i) && FannedOut(subs, two, cap, event, env, 0, j)
    ensures i == j && one == two
  {
    if i != j {
      assert false;
    }
  }

  ghost predicate AllClosed<E>(subs: seq<Channel<E>>, closed: bool, cap: nat) {
    forall k :: 0 <= k < |subs| ==> subs[k].closed == closed && |subs[k].queue| <= cap
  }

  ghost predicate ShutDown<E>(subs: seq<Channel<E>>, subs': seq<Channel<E>>, n: nat) {
    && |subs'| == |subs|
    && forall k :: 0 <= k < |subs| ==> subs'[k] == if k < n then subs[k].(closed := true) else subs[k]
  }

  /** Receiving from a channel: an event, the news that it is closed and drained, or nothing
      yet. */
  datatype Received<E> = Got(event: E) | Drained | NothingYet

  /** Why a worker's loop over a channel ends: its context, the channel, or, as long as nobody
      else runs, an empty channel that it would wait on; a crash; or no subscription. */
  datatype Ending = ContextDone | ChannelClosed | NothingToTake | WorkerCrashed | NotSubscribed

  class InMemoryBroker {
    var rawSubs: seq<Channel<TrackingEvent>>
    var screenedSubs: seq<Channel<ScreenedEvent>>
    var closed: bool
    const bufferSize: nat

    /** Channels are closed exactly when the broker is, and hold no more than their buffer. */
    ghost predicate Valid()
      reads this
    {
      AllClosed(rawSubs, closed, bufferSize) && AllClosed(screenedSubs, closed, bufferSize)
    }

    constructor (bufferSize: int)
      ensures Valid() && !closed && rawSubs == [] && screenedSubs == []
      ensures this.bufferSize == if bufferSize <= 0 then 10_000 else bufferSize
    {
      this.bufferSize := if bufferSize <= 0 then B.DEFAULT_BUFFER else bufferSize;
      rawSubs, screenedSubs, closed := [], [], false;
    }

    method PublishRaw(event: TrackingEvent, env: nat -> Select) returns (status: B.Status)
      requires Valid()
      modifies this
      ensures Valid() && closed == old(closed) && screenedSubs == old(screenedSubs)
      ensures status == B.Refused <==> old(closed)
      ensures old(closed) ==> rawSubs == old(rawSubs)
      ensures !old(closed) ==>
        && rawSubs == Published(old(rawSubs), bufferSize, event, env)
        && status == StatusOf(old(rawSubs), bufferSize, env)
    {
      if closed {
        return B.Refused;
      }
      rawSubs, status := FanOut(rawSubs, bufferSize, event, env);
    }

    method PublishScreened(event: ScreenedEvent, env: nat -> Select) returns (status: B.Status)
      requires Valid()
      modifies this
      ensures Valid() && closed == old(closed) && rawSubs == old(rawSubs)
      ensures status == B.Refused <==> old(closed)
      ensures old(closed) ==> screenedSubs == old(screenedSubs)
      ensures !old(closed) ==>
        && screenedSubs == Published(old(screenedSubs), bufferSize, event, env)
        && status == StatusOf(old(screenedSubs), bufferSize, env)
    {
      if closed {
        return B.Refused;
      }
      screenedSubs, status := FanOut(screenedSubs, bufferSize, event, env);
    }

    /** `sub` is the position of the new channel, when there is one. */
    method SubscribeRaw() returns (ok: bool, sub: nat)
      requires Valid()
      modifies this
      ensures Valid() && closed == old(closed) && screenedSubs == old(screenedSubs)
      ensures ok <==> !old(closed)
      ensures rawSubs == if ok then old(rawSubs) + [Channel([], false)] else old(rawSubs)
      ensures sub == |old(rawSubs)|
    {
      sub := |rawSubs|;
      if closed {
        return false, sub;
      }
      rawSubs := rawSubs + [Channel([], false)];
      return true, sub;
    }

    method SubscribeScreened() returns (ok: bool, sub: nat)
      requires Valid()
      modifies this
      ensures Valid() && closed == old(closed) && rawSubs == old(rawSubs)
      ensures ok <==> !old(closed)
      ensures screenedSubs == if ok then old(screenedSubs) + [Channel([], false)] else old(screenedSubs)
      ensures sub == |old(screenedSubs)|
    {
      sub := |screenedSubs|;
      if closed {
        return false, sub;
      }
      screenedSubs := screenedSubs + [Channel([], false)];
      return true, sub;
    }

    /** `<-ch` on raw channel `sub`. */
    method ReceiveRaw(sub: nat) returns (r: Received<TrackingEvent>)
      requires Valid() && sub < |rawSubs|
      modifies this
      ensures Valid() && closed == old(closed) && screenedSubs == old(screenedSubs) && |rawSubs| == |old(rawSubs)|
      ensures forall k :: 0 <= k < |rawSubs| && k != sub ==> rawSubs[k] == old(rawSubs)[k]
      ensures old(rawSubs)[sub].queue == (if r.Got? then [r.event] else []) + rawSubs[sub].queue
      ensures r.Got? <==> old(rawSubs)[sub].queue != []
      ensures r.Drained? <==> old(rawSubs)[sub].queue == [] && closed
    {
      var ch := rawSubs[sub];
      if ch.queue != [] {
        rawSubs := rawSubs[sub := ch.(queue := ch.queue[1..])];
        return Got(ch.queue[0]);
      }
      r := if ch.closed then Drained else NothingYet;
    }

    /** `<-ch` on screened channel `sub`. */
    method ReceiveScreened(sub: nat) returns (r: Received<ScreenedEvent>)
      requires Valid() && sub < |screenedSubs|
      modifies this
      ensures Valid() && closed == old(closed) && rawSubs == old(rawSubs) && |screenedSubs| == |old(screenedSubs)|
      ensures forall k :: 0 <= k < |screenedSubs| && k != sub ==> screenedSubs[k] == old(screenedSubs)[k]
      ensures old(screenedSubs)[sub].queue == (if r.Got? then [r.event] else []) + screenedSubs[sub].queue
      ensures r.Got? <==> old(screenedSubs)[sub].queue != []
      ensures r.Drained? <==> old(screenedSubs)[sub].queue == [] && closed
    {
      var ch := screenedSubs[sub];
      if ch.queue != [] {
        screenedSubs := screenedSubs[sub := ch.(queue := ch.queue[1..])];
        return Got(ch.queue[0]);
      }
      r := if ch.closed then Drained else NothingYet;
    }

    method Close()
      requires Valid()
      modifies this
      ensures Valid() && closed
      ensures ShutDown(old(rawSubs), rawSubs, |rawSubs|) && ShutDown(old(screenedSubs), screenedSubs, |screenedSubs|)
    {
      if closed {
        return;
      }
      closed := true;
      var i := 0;
      while i < |rawSubs|
        invariant i <= |rawSubs| && ShutDown(old(rawSubs), rawSubs, i) && screenedSubs == old(screenedSubs) && closed
      {
        assert !rawSubs[i].closed;    // closing it twice would panic
        rawSubs := rawSubs[i := rawSubs[i].(closed := true)];
        i := i + 1;
      }
      i := 0;
      while i < |screenedSubs|
        invariant i <= |screenedSubs| && ShutDown(old(screenedSubs), screenedSubs, i) && closed
        invariant ShutDown(old(rawSubs), rawSubs, |rawSubs|)
      {
        assert !screenedSubs[i].closed;
        screenedSubs := screenedSubs[i := screenedSubs[i].(closed := true)];
        i := i + 1;
      }
    }
  }
}
