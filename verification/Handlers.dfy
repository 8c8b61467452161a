/** The ingest handlers can always finish: states in which every accepted event is counted are
    reachable from everywhere, with whatever has been accepted. */
module Handlers {
  import opened Events
  import opened Pipeline
  import opened PipelineInv
  import opened PipelineRuns
  import opened Continuations
  import opened Resurrections
  import opened ContactReturns
  import Overtaking
  import B = Bus

  /** A handler whose publication was accepted can count it, and counts just that. */
  lemma AcceptedCanBeCounted(s: State, call: nat)
    requires call in Uncounted(s)
    ensures Enabled(s, Ingest(Count(call)))
    ensures var s' := Next(s, Ingest(Count(call)));
            && s'.bus == s.bus && s'.fraud == s.fraud
            && s'.counted == s.counted + {call} && s'.meters.total == s.meters.total + 1
            && Uncounted(s') == Uncounted(s) - {call}
  {
  }

  lemma {:induction false} CountAll(s: State) returns (acts: seq<Action>)
    requires Inv(s)
    ensures Path(s, acts)
    ensures var s' := Exec(s, acts);
            && Inv(s') && s'.bus == s.bus && s'.fraud == s.fraud
            && Uncounted(s') == {} && s'.meters.total == s.meters.total + |Uncounted(s)|
    decreases |Uncounted(s)|
  {
    hide Inv, Next, Enabled, Path, Exec, Uncounted;
    if Uncounted(s) == {} {
      acts := [];
      Stay(s);
    } else {
      var call :| call in Uncounted(s);
      var a := Ingest(Count(call));
      AcceptedCanBeCounted(s, call);
      Step(s, a);
      var rest := CountAll(Next(s, a));
      First(s, a, rest);
      acts := [a] + rest;
    }
  }

  lemma {:induction false} AcceptedStay(s: State, acts: seq<Action>)
    requires Runs(s, acts)
    ensures WithStatus(s.bus.raw, B.Accepted) <= WithStatus(Exec(s, acts).bus.raw, B.Accepted)
    decreases |acts|
  {
    hide Next, Enabled, Runs, Exec;
    if acts == [] {
      NoneYet(s);
    } else {
      FirstOff(s, acts);
      BusIsKept(s, acts[0]);
      AcceptedStay(Next(s, acts[0]), acts[1..]);
    }
  }

  /** From every sound state the handlers can finish without anything new coming in: nothing
      is running, every accepted event is counted, and what had been accepted still is. */
  lemma QuietIsReachable(s: State) returns (acts: seq<Action>)
    requires Inv(s)
    ensures Path(s, acts)
    ensures var s' := Exec(s, acts);
            && Inv(s') && Uncounted(s') == {} && WithStatus(s'.bus.raw, B.Active) == {}
            && WithStatus(s.bus.raw, B.Accepted) <= s'.counted && s'.fraud == s.fraud
  {
    hide Inv, Next, Enabled, Exec, Runs;
    var finish := QuietRaw(s, |s.bus.raw.calls|);
    var s1 := Exec(s, finish);
    var count := CountAll(s1);
    Chain(s, finish, count);
    acts := finish + count;
    AcceptedStay(s, acts);
    NothingRuns(s1);
    AllCounted(Exec(s1, count));
  }

  lemma AllCounted(s: State)
    requires Uncounted(s) == {}
    ensures WithStatus(s.bus.raw, B.Accepted) <= s.counted
  {
    forall i | i in WithStatus(s.bus.raw, B.Accepted) ensures i in s.counted {
      assert i !in Uncounted(s);
    }
    hide WithStatus;
  }

  lemma NothingRuns(s: State)
    requires !B.Busy(s.bus.raw)
    ensures WithStatus(s.bus.raw, B.Active) == {}
  {
  }

  // ---------------------------------------------------------- such a state in full

  /** From the start of the system, one event accepted, counted and waiting for the worker,
      which is the only subscriber. */
  lemma QuietWithAnEvent() returns (acts: seq<Action>, s: State)
    ensures Runs(Initial(1), acts) && s == Exec(Initial(1), acts)
    ensures s.fraud.seat == Seat(0) && |s.bus.raw.subs| == 1
    ensures Uncounted(s) == {} && WithStatus(s.bus.raw, B.Active) == {}
    ensures s.counted == {0} && s.meters.total == 1
  {
    var s1;
    acts, s1 := Overtaking.PublishedToTheWorker();
    var a, b := Ingest(Move(0, Return)), Ingest(Count(0));
    var s2 := ReturnedFacts(s1);
    Then(Initial(1), acts, a);
    AcceptedCanBeCounted(s2, 0);
    Then(Initial(1), acts + [a], b);
    acts, s := acts + [a] + [b], Next(s2, b);
  }

  lemma ReturnedFacts(s: State) returns (s': State)
    requires |s.bus.raw.subs| == 1 && |s.bus.raw.calls| == 1
    requires s.bus.raw.calls[0].status == B.Active && s.bus.raw.calls[0].next == s.bus.raw.calls[0].width
    requires s.counted == {} && s.meters.total == 0
    ensures Enabled(s, Ingest(Move(0, Return))) && s' == Next(s, Ingest(Move(0, Return)))
    ensures |s'.bus.raw.subs| == 1 && s'.fraud == s.fraud && s'.counted == {} && s'.meters.total == 0
    ensures WithStatus(s'.bus.raw, B.Accepted) == {0} && WithStatus(s'.bus.raw, B.Active) == {}
  {
    s' := Next(s, Ingest(Move(0, Return)));
    assert s'.bus.raw.calls[0].status == B.Accepted;
  }
}
