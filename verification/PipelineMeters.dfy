/** The pipeline's counters as the dashboard reads them. */
module PipelineMeters {
  import opened Pipeline
  import opened PipelineInv
  import opened Telemetry
  import PipelineRuns

  /** The counters after each step of a run. */
  ghost function MetersAlong(s: State, acts: seq<Action>): seq<Meters>
    requires Runs(s, acts)
    decreases |acts|
  {
    if acts == [] then [s.meters] else [s.meters] + MetersAlong(Next(s, acts[0]), acts[1..])
  }

  lemma OneStepGrows(s: State, a: Action)
    requires Enabled(s, a)
    ensures NoLess(s.meters, Next(s, a).meters)
  {
    hide BusAfter;
  }

  /** What CrmSafety and the verdict counters mean for a reader of the counters. */
  predicate Sane(m: Meters) {
    0 <= m.successes <= m.attempts <= m.legitimate && 0 <= m.fraudulent
  }

  lemma MetersAreSane(s: State)
    requires Inv(s)
    ensures Sane(s.meters)
    ensures s.meters.attempts == s.meters.successes + WithoutSuccess(s) && WithoutSuccess(s) >= 0
  {
    PipelineRuns.CrmSafety(s);
    assert s.meters.fraudulent == |Verdicts(s.fraud, true)|;
    assert s.meters.successes >= 0 && s.meters.failures >= 0;
    hide Inv;
  }

  ghost predicate SaneTrace(trace: seq<Meters>) {
    trace != [] && Growing(trace) && forall t :: 0 <= t < |trace| ==> Sane(trace[t])
  }

  lemma OneEarlier(m: Meters, trace: seq<Meters>)
    requires SaneTrace(trace) && Sane(m) && NoLess(m, trace[0])
    ensures SaneTrace([m] + trace)
  {
    var longer := [m] + trace;
    forall t | 0 <= t < |longer| - 1 ensures NoLess(longer[t], longer[t + 1]) {
      assert t > 0 ==> NoLess(trace[t - 1], trace[t - 1 + 1]);
    }
  }

  lemma {:induction false} MetersGrow(s: State, acts: seq<Action>)
    requires Inv(s) && Runs(s, acts)
    ensures SaneTrace(MetersAlong(s, acts)) && MetersAlong(s, acts)[0] == s.meters
    decreases |acts|
  {
    MetersAreSane(s);
    hide Inv, Next, Enabled, Sane, SaneTrace, NoLess;
    if acts != [] {
      Step(s, acts[0]);
      OneStepGrows(s, acts[0]);
      MetersGrow(Next(s, acts[0]), acts[1..]);
      OneEarlier(s.meters, MetersAlong(Next(s, acts[0]), acts[1..]));
    } else {
      SaneAlone(s.meters);
    }
  }

  lemma SaneAlone(m: Meters)
    requires Sane(m)
    ensures SaneTrace([m])
  {
  }

  // ------------------------------------------------------------ a torn dashboard

  lemma {:induction false} MetersAtAnInstant(s: State, acts: seq<Action>, t: nat)
    requires Runs(s, acts) && t <= |acts|
    ensures Runs(s, acts[..t]) && |MetersAlong(s, acts)| == |acts| + 1
    ensures MetersAlong(s, acts)[t] == Exec(s, acts[..t]).meters
    decreases |acts|
  {
    hide Next, Enabled;
    if acts != [] {
      var rest := acts[1..];
      MetersAtAnInstant(Next(s, acts[0]), rest, if t == 0 then 0 else t - 1);
      if t > 0 {
        assert acts[..t][1..] == rest[..t - 1] && acts[..t][0] == acts[0];
      }
    }
  }

  /** The attempts that have not succeeded: the failures, and a sync whose outcome is not in
      the counters yet. */
  function WithoutSuccess(s: State): int {
    s.meters.failures + if s.crm.stage.Syncing? || s.crm.stage.Settling? then 1 else 0
  }

  lemma RateAgainstThePipeline(mid: State, trace: seq<Meters>, at: seq<nat>)
    requires Inv(mid) && SaneTrace(trace) && InOrder(trace, at) && trace[at[3]] == mid.meters
    ensures CrmRate(Snapshot(trace, at)) <= 100.0 <==>
              mid.meters.attempts == 0 || trace[at[4]].successes - mid.meters.successes <= WithoutSuccess(mid)
    ensures 0.0 <= FraudPercent(Snapshot(trace, at)) <= 100.0 && 0.0 <= CrmRate(Snapshot(trace, at))
    ensures 0 <= WithoutSuccess(mid)
  {
    hide Inv, CrmRate, FraudPercent;
    MetersAreSane(mid);
    assert Sane(trace[at[1]]) && Sane(trace[at[2]]);
    assert forall t :: 0 <= t < |trace| ==> Sane(trace[t]);
    FraudPercentInRange(Snapshot(trace, at));
    CrmRateInRangeExactly(trace, at);
  }

  /** A dashboard request served during any stretch of any run: the fraud percentage is one,
      and the CRM rate is one exactly when, at its load of the attempts, nothing had been
      attempted, or no more successes are counted before its load of the successes than there
      are failures and syncs under way. */
  lemma DashboardOverARun(s: State, acts: seq<Action>, at: seq<nat>)
    requires Inv(s) && Runs(s, acts) && InOrder(MetersAlong(s, acts), at)
    ensures at[3] <= |acts| && Runs(s, acts[..at[3]])
    ensures var trace, mid := MetersAlong(s, acts), Exec(s, acts[..at[3]]);
            && 0.0 <= FraudPercent(Snapshot(trace, at)) <= 100.0 && 0.0 <= CrmRate(Snapshot(trace, at))
            && trace[at[3]] == mid.meters && 0 <= WithoutSuccess(mid)
            && (CrmRate(Snapshot(trace, at)) <= 100.0 <==>
                  mid.meters.attempts == 0 || trace[at[4]].successes - mid.meters.successes <= WithoutSuccess(mid))
  {
    MetersGrow(s, acts);
    MetersAtAnInstant(s, acts, |acts|);
    hide Inv, Runs, Exec, SaneTrace;
    MetersAtAnInstant(s, acts, at[3]);
    InvAlways(s, acts[..at[3]]);
    RateAgainstThePipeline(Exec(s, acts[..at[3]]), MetersAlong(s, acts), at);
  }
}
