/** A run in which the verdict counters overtake the ingest counter: the worker is done with an
    event before the handler that published it has counted it. */
module Overtaking {
  import opened Events
  import opened Pipeline
  import opened PipelineRuns
  import Continuations
  import B = Bus

  lemma OneMore(bufferSize: int, acts: seq<Action>, s: State, a: Action)
    requires Reachable(bufferSize, acts, s) && Enabled(s, a)
    ensures Reachable(bufferSize, acts + [a], Next(s, a))
  {
    Continuations.Then(Initial(bufferSize), acts, a);
  }

  const SIGNUP := TrackingEvent("e", "u", "signup", Unreadable(""), "", map[], 0, true)

  function CleanVerdict(): ScreenedEvent {
    ScreenedEvent(Anonymised(SIGNUP), false, 0, "", 0)
  }

  /** The worker has subscribed. */
  lemma Subscribed() returns (acts: seq<Action>, s: State)
    ensures Reachable(1, acts, s)
    ensures s.bus == B.NewBus<TrackingEvent, ScreenedEvent>(1).(raw := B.Topic([B.EmptySub()], [], false))
    ensures s.fraud == FraudWorker(Waiting, Seat(0), []) && s.meters.total == s.meters.legitimate == 0
    ensures s.counted == {}
  {
    var s0, a := Initial(1), Fraud(SubscribeRaw);
    assert Reachable(1, [], s0);
    OneMore(1, [], s0, a);
    acts, s := [] + [a], Next(s0, a);
    assert s.bus.raw.subs == [B.EmptySub()];
  }

  /** A handler has published to it, and has not returned. */
  lemma PublishedToTheWorker() returns (acts: seq<Action>, s: State)
    ensures Reachable(1, acts, s)
    ensures |s.bus.raw.subs| == 1 && s.bus.raw.subs[0].queue == [0]
    ensures |s.bus.raw.calls| == 1
    ensures s.bus.raw.calls[0].event == Anonymised(SIGNUP) && s.bus.raw.calls[0].status == B.Active
    ensures s.bus.raw.calls[0].next == s.bus.raw.calls[0].width == 1 && s.counted == {}
    ensures s.fraud == FraudWorker(Waiting, Seat(0), []) && s.meters.total == s.meters.legitimate == 0
  {
    var s1;
    acts, s1 := Subscribed();
    var a, b := Ingest(Accept(SIGNUP)), Ingest(Move(0, Offer));
    OneMore(1, acts, s1, a);
    var s2 := Next(s1, a);
    OneMore(1, acts + [a], s2, b);
    acts, s := acts + [a] + [b], Next(s2, b);
  }

  lemma Taken() returns (acts: seq<Action>, s: State)
    ensures Reachable(1, acts, s)
    ensures s.fraud == FraudWorker(Saving, Seat(0), [Item(0, CleanVerdict())])
    ensures s.meters.total == s.meters.legitimate == 0
  {
    var s1;
    acts, s1 := PublishedToTheWorker();
    var a := Fraud(TakeRaw(CleanVerdict()));
    OneMore(1, acts, s1, a);
    acts, s := acts + [a], Next(s1, a);
  }

  lemma Tallied(s: State)
    requires s.fraud == FraudWorker(Saving, Seat(0), [Item(0, CleanVerdict())])
    ensures Enabled(s, Fraud(Save)) && Enabled(Next(s, Fraud(Save)), Fraud(Tally))
    ensures Next(Next(s, Fraud(Save)), Fraud(Tally)).meters == s.meters.(legitimate := s.meters.legitimate + 1)
  {
  }

  /** The worker takes the event, saves it and counts it. */
  lemma VerdictsCanOvertakeIngest() returns (acts: seq<Action>, s: State)
    ensures Reachable(1, acts, s)
    ensures s.meters.legitimate == 1 && s.meters.total == 0
  {
    var s1;
    acts, s1 := Taken();
    Tallied(s1);
    hide Next, Enabled;
    var s2 := Next(s1, Fraud(Save));
    OneMore(1, acts, s1, Fraud(Save));
    OneMore(1, acts + [Fraud(Save)], s2, Fraud(Tally));
    acts, s := acts + [Fraud(Save)] + [Fraud(Tally)], Next(s2, Fraud(Tally));
  }
}
