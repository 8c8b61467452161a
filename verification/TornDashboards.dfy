/** Runs in which the dashboard's CRM rate exceeds 100%, by as much as one likes: the snapshot
    loads the attempts, and a burst of syncs succeeds before it loads the successes. */
module TornDashboards {
  import opened Events
  import opened Contacts
  import opened Telemetry
  import opened Pipeline
  import opened PipelineMeters
  import opened Continuations
  import B = Bus
  import Overtaking

  /** Both workers wait on empty channels of an open broker, each the only subscriber. */
  ghost predicate Waits(s: State) {
    && s.bus.closer == B.NotClosing && !s.bus.closed && s.bus.cap > 0
    && s.fraud.seat == Seat(0) && s.crm.seat == Seat(0)
    && |s.bus.raw.subs| == 1 && !s.bus.raw.subs[0].closed
    && |s.bus.screened.subs| == 1 && !s.bus.screened.subs[0].closed
    && s.crm.stage == Idle
  }

  ghost predicate Ready(s: State) {
    Waits(s) && s.fraud.stage == Waiting && s.bus.raw.subs[0].queue == [] && s.bus.screened.subs[0].queue == []
  }

  /** The CRM counters are as they were. */
  predicate SameRate(m: Meters, m': Meters) {
    m'.attempts == m.attempts && m'.successes == m.successes
  }

  // ------------------------------------------------------- one event, end to end

  /** A handler publishes a signup to the fraud worker. */
  lemma Ingested(s: State) returns (acts: seq<Action>)
    requires Ready(s)
    ensures Runs(s, acts)
    ensures var s' := Exec(s, acts);
            && Waits(s') && SameRate(s.meters, s'.meters) && s'.fraud.stage == Waiting
            && s'.bus.screened.subs[0].queue == [] && |s'.bus.raw.subs[0].queue| == 1
            && var i := s'.bus.raw.subs[0].queue[0];
               i < |s'.bus.raw.calls| && s'.bus.raw.calls[i].event == Anonymised(Overtaking.SIGNUP)
  {
    var a, b := Ingest(Accept(Overtaking.SIGNUP)), Ingest(Move(|s.bus.raw.calls|, Offer));
    var s1 := Next(s, a);
    assert s1.bus.raw.calls[|s.bus.raw.calls|].event == Anonymised(Overtaking.SIGNUP);
    Then(s, [], a);
    Then(s, [] + [a], b);
    acts := [] + [a] + [b];
  }

  /** The fraud worker screens it as legitimate, saves it and counts it. */
  lemma Screened(s: State) returns (acts: seq<Action>)
    requires Waits(s) && s.fraud.stage == Waiting && |s.bus.raw.subs[0].queue| == 1
    requires s.bus.screened.subs[0].queue == []
    requires var i := s.bus.raw.subs[0].queue[0];
             i < |s.bus.raw.calls| && s.bus.raw.calls[i].event == Anonymised(Overtaking.SIGNUP)
    ensures Runs(s, acts)
    ensures var s' := Exec(s, acts);
            && Waits(s') && SameRate(s.meters, s'.meters) && s'.fraud.stage == Publishing
            && s'.fraud.log != [] && Hand(s').verdict == Overtaking.CleanVerdict()
            && s'.bus.raw.subs[0].queue == [] && s'.bus.screened.subs[0].queue == []
  {
    var take := Fraud(TakeRaw(Overtaking.CleanVerdict()));
    var s1 := TakenFacts(s);
    SavedAndCounted(s1);
    Then(s, [], take);
    hide Next, Enabled, Waits;
    Then(s, [] + [take], Fraud(Save));
    Then(s, [] + [take] + [Fraud(Save)], Fraud(Tally));
    acts := [] + [take] + [Fraud(Save)] + [Fraud(Tally)];
  }

  lemma TakenFacts(s: State) returns (s': State)
    requires Waits(s) && s.fraud.stage == Waiting && |s.bus.raw.subs[0].queue| == 1
    requires var i := s.bus.raw.subs[0].queue[0];
             i < |s.bus.raw.calls| && s.bus.raw.calls[i].event == Anonymised(Overtaking.SIGNUP)
    ensures Enabled(s, Fraud(TakeRaw(Overtaking.CleanVerdict())))
    ensures s' == Next(s, Fraud(TakeRaw(Overtaking.CleanVerdict())))
    ensures Waits(s') && s'.meters == s.meters && s'.fraud.stage == Saving
    ensures s'.fraud.log != [] && Hand(s').verdict == Overtaking.CleanVerdict()
    ensures s'.bus.raw.subs[0].queue == [] && s'.bus.screened == s.bus.screened
  {
    s' := Next(s, Fraud(TakeRaw(Overtaking.CleanVerdict())));
  }

  lemma SavedAndCounted(s: State)
    requires Waits(s) && s.fraud.stage == Saving && s.fraud.log != []
    ensures Enabled(s, Fraud(Save)) && Enabled(Next(s, Fraud(Save)), Fraud(Tally))
    ensures var s' := Next(Next(s, Fraud(Save)), Fraud(Tally));
            && Waits(s') && s'.fraud == s.fraud.(stage := Publishing) && s'.bus == s.bus
            && SameRate(s.meters, s'.meters)
  {
  }

  /** It publishes the verdict, which the marketing worker's channel takes. */
  lemma Published(s: State) returns (acts: seq<Action>)
    requires Waits(s) && s.fraud.stage == Publishing
    requires s.fraud.log != [] && Hand(s).verdict == Overtaking.CleanVerdict()
    requires s.bus.raw.subs[0].queue == [] && s.bus.screened.subs[0].queue == []
    ensures Runs(s, acts)
    ensures var s' := Exec(s, acts);
            && Waits(s') && s'.meters == s.meters && s'.fraud.stage == Waiting
            && s'.bus.raw.subs[0].queue == [] && |s'.bus.screened.subs[0].queue| == 1
            && var j := s'.bus.screened.subs[0].queue[0];
               j < |s'.bus.screened.calls| && s'.bus.screened.calls[j].event == Overtaking.CleanVerdict()
  {
    var a, b, c, d := Fraud(Publish), Fraud(MoveScreened(Offer)), Fraud(MoveScreened(Return)), Fraud(Release);
    var s1 := BegunFacts(s);
    var s2 := SentFacts(s1);
    var s3 := ReleasedFacts(s2);
    Then(s, [], a);
    hide Next, Enabled, Waits, Overtaking.CleanVerdict;
    Then(s, [] + [a], b);
    Then(s, [] + [a] + [b], c);
    Then(s, [] + [a] + [b] + [c], d);
    acts := [] + [a] + [b] + [c] + [d];
  }

  /** The last publish is at subscriber `n` with a clean verdict. */
  ghost predicate SendingAt(s: State, n: nat) {
    && Waits(s) && s.fraud.stage == Sending && s.bus.raw.subs[0].queue == [] && s.bus.screened.calls != []
    && var c := s.bus.screened.calls[|s.bus.screened.calls| - 1];
       c.event == Overtaking.CleanVerdict() && c.width == 1 && c.next == n && c.status == B.Active && !c.expired
  }

  lemma BegunFacts(s: State) returns (s': State)
    requires Waits(s) && s.fraud.stage == Publishing
    requires s.fraud.log != [] && Hand(s).verdict == Overtaking.CleanVerdict()
    requires s.bus.raw.subs[0].queue == [] && s.bus.screened.subs[0].queue == []
    ensures Enabled(s, Fraud(Publish)) && s' == Next(s, Fraud(Publish))
    ensures SendingAt(s', 0) && s'.meters == s.meters && s'.bus.screened.subs[0].queue == []
  {
    hide Overtaking.CleanVerdict;
    s' := Next(s, Fraud(Publish));
  }

  lemma SentFacts(s: State) returns (s': State)
    requires SendingAt(s, 0) && s.bus.screened.subs[0].queue == []
    ensures Enabled(s, Fraud(MoveScreened(Offer))) && s' == Next(s, Fraud(MoveScreened(Offer)))
    ensures SendingAt(s', 1) && s'.meters == s.meters
    ensures s'.bus.screened.subs[0].queue == [|s'.bus.screened.calls| - 1]
  {
    hide Overtaking.CleanVerdict;
    s' := Next(s, Fraud(MoveScreened(Offer)));
  }

  lemma ReleasedFacts(s: State) returns (s': State)
    requires SendingAt(s, 1)
    ensures Enabled(s, Fraud(MoveScreened(Return))) && Enabled(Next(s, Fraud(MoveScreened(Return))), Fraud(Release))
    ensures s' == Next(Next(s, Fraud(MoveScreened(Return))), Fraud(Release))
    ensures Waits(s') && s'.meters == s.meters && s'.fraud.stage == Waiting
    ensures s'.bus.raw.subs == s.bus.raw.subs && s'.bus.screened.subs == s.bus.screened.subs
    ensures |s'.bus.screened.calls| == |s.bus.screened.calls|
    ensures s'.bus.screened.calls[|s.bus.screened.calls| - 1].event == Overtaking.CleanVerdict()
  {
    hide Overtaking.CleanVerdict;
    s' := Next(Next(s, Fraud(MoveScreened(Return))), Fraud(Release));
  }

  /** The marketing worker syncs it, and the CRM accepts. */
  lemma Synced(s: State) returns (acts: seq<Action>)
    requires Waits(s) && s.fraud.stage == Waiting
    requires s.bus.raw.subs[0].queue == [] && |s.bus.screened.subs[0].queue| == 1
    requires var j := s.bus.screened.subs[0].queue[0];
             j < |s.bus.screened.calls| && s.bus.screened.calls[j].event == Overtaking.CleanVerdict()
    ensures Runs(s, acts)
    ensures var s' := Exec(s, acts);
            && Ready(s') && s'.meters.attempts == s.meters.attempts + 1
            && s'.meters.successes == s.meters.successes + 1
  {
    var a, b, c, d, e := Crm(TakeScreened(0)), Crm(Attempt), Crm(Sync(true)), Crm(Settle), Crm(File);
    var s1 := AttemptingFacts(s);
    SettledFacts(s1);
    Then(s, [], a);
    hide Next, Enabled, Ready, Overtaking.CleanVerdict;
    Then(s, [] + [a], b);
    Then(s, [] + [a] + [b], c);
    Then(s, [] + [a] + [b] + [c], d);
    Then(s, [] + [a] + [b] + [c] + [d], e);
    acts := [] + [a] + [b] + [c] + [d] + [e];
  }

  lemma AttemptingFacts(s: State) returns (s': State)
    requires Waits(s) && |s.bus.screened.subs[0].queue| == 1
    requires var j := s.bus.screened.subs[0].queue[0];
             j < |s.bus.screened.calls| && s.bus.screened.calls[j].event == Overtaking.CleanVerdict()
    ensures Enabled(s, Crm(TakeScreened(0))) && s' == Next(s, Crm(TakeScreened(0)))
    ensures s'.crm.stage == Attempting && s'.crm.current < |s'.bus.screened.calls| && s'.crm.seat == s.crm.seat
    ensures Waits(s'.(crm := s.crm)) && s'.fraud == s.fraud && s'.bus.raw == s.bus.raw && s'.meters == s.meters
    ensures s'.bus.screened.subs[0].queue == []
  {
    assert Qualifies(Overtaking.CleanVerdict());
    hide Qualifies, Overtaking.CleanVerdict;
    s' := Next(s, Crm(TakeScreened(0)));
  }

  lemma SettledFacts(s: State)
    requires s.crm.stage == Attempting && s.crm.current < |s.bus.screened.calls|
    ensures Enabled(s, Crm(Attempt))
    ensures var s1 := Next(s, Crm(Attempt));
            && Enabled(s1, Crm(Sync(true)))
            && var s2 := Next(s1, Crm(Sync(true)));
               && Enabled(s2, Crm(Settle))
               && var s3 := Next(s2, Crm(Settle));
                  && Enabled(s3, Crm(File))
                  && var s' := Next(s3, Crm(File));
                     && s'.bus == s.bus && s'.fraud == s.fraud && s'.crm.stage == Idle && s'.crm.seat == s.crm.seat
                     && s'.meters.attempts == s.meters.attempts + 1
                     && s'.meters.successes == s.meters.successes + 1
  {
    hide SettledContact;
  }

  // ------------------------------------------------------------------- the runs

  lemma OneSuccess(s: State) returns (acts: seq<Action>)
    requires Ready(s)
    ensures Runs(s, acts)
    ensures var s' := Exec(s, acts);
            && Ready(s') && s'.meters.attempts == s.meters.attempts + 1
            && s'.meters.successes == s.meters.successes + 1
  {
    hide Runs, Exec, Waits, Overtaking.CleanVerdict, Anonymised;
    var one := Ingested(s);
    var s1 := Exec(s, one);
    var two := Screened(s1);
    var s2 := Exec(s1, two);
    var three := Published(s2);
    var s3 := Exec(s2, three);
    var four := Synced(s3);
    RunsSplit(s2, three, four);
    RunsSplit(s1, two, three + four);
    RunsSplit(s, one, two + (three + four));
    acts := one + (two + (three + four));
  }

  lemma {:induction false} Successes(s: State, n: nat) returns (acts: seq<Action>)
    requires Ready(s)
    ensures Runs(s, acts)
    ensures var s' := Exec(s, acts); Ready(s') && s'.meters.successes == s.meters.successes + n
  {
    hide Next, Enabled, Ready;
    acts := [];
    if n > 0 {
      var most := Successes(s, n - 1);
      var last := OneSuccess(Exec(s, most));
      RunsSplit(s, most, last);
      acts := most + last;
    }
  }

  lemma GettingReady(bufferSize: int) returns (acts: seq<Action>)
    ensures Runs(Initial(bufferSize), acts)
    ensures var s := Exec(Initial(bufferSize), acts); Ready(s) && s.meters == ZERO
  {
    var s0, a, b := Initial(bufferSize), Fraud(SubscribeRaw), Crm(SubscribeScreened);
    Then(s0, [], a);
    var s1 := Next(s0, a);
    assert s1.bus.raw.subs == [B.EmptySub()];
    Then(s0, [] + [a], b);
    assert Next(s1, b).bus.screened.subs == [B.EmptySub()];
    acts := [] + [a] + [b];
  }

  /** For every n there is a run of the system during which a dashboard reports n times 100%. */
  lemma TornRateIsUnbounded(bufferSize: int, n: nat) returns (acts: seq<Action>, at: seq<nat>)
    requires n > 0
    ensures Runs(Initial(bufferSize), acts) && InOrder(MetersAlong(Initial(bufferSize), acts), at)
    ensures CrmRate(Snapshot(MetersAlong(Initial(bufferSize), acts), at)) == 100.0 * n as real
  {
    hide Next, Enabled, Ready, Initial, Runs, Exec, MetersAlong;
    var s0 := Initial(bufferSize);
    var begin := GettingReady(bufferSize);
    var s1 := Exec(s0, begin);
    var first := OneSuccess(s1);
    var others := Successes(Exec(s1, first), n - 1);
    RunsSplit(s0, begin, first);
    var before := begin + first;
    RunsSplit(s0, before, others);
    acts := before + others;
    at := [|before|, |before|, |before|, |before|, |acts|, |acts|];
    MetersAtAnInstant(s0, acts, |before|);
    MetersAtAnInstant(s0, acts, |acts|);
    assert acts[..|before|] == before && acts[..|acts|] == acts;
  }
}
