/** The telemetry counters of pkg/domain/analytics: atomic increments, a snapshot of six
    separate loads, and the dashboard's percentages. */
module Telemetry {

  datatype Meters = Meters(total: int, legitimate: int, fraudulent: int, attempts: int, successes: int, failures: int)

  const ZERO := Meters(0, 0, 0, 0, 0, 0)

  /** IncrementMetric: a name nobody knows changes nothing. */
  function Bumped(m: Meters, name: string, delta: int): Meters {
    if name == "total_received" then m.(total := m.total + delta)
    else if name == "legitimate" then m.(legitimate := m.legitimate + delta)
    else if name == "fraudulent" then m.(fraudulent := m.fraudulent + delta)
    else if name == "crm_attempts" then m.(attempts := m.attempts + delta)
    else if name == "crm_successes" then m.(successes := m.successes + delta)
    else if name == "crm_failures" then m.(failures := m.failures + delta)
    else m
  }

  /** The counters by the names that IncrementMetric knows them by. */
  const NAMES := {"total_received", "legitimate", "fraudulent", "crm_attempts", "crm_successes", "crm_failures"}

  function Counter(m: Meters, name: string): int
    requires name in NAMES
  {
    if name == "total_received" then m.total
    else if name == "legitimate" then m.legitimate
    else if name == "fraudulent" then m.fraudulent
    else if name == "crm_attempts" then m.attempts
    else if name == "crm_successes" then m.successes
    else m.failures
  }

  /** The named counter moves by delta, all others stay, and a name nobody knows moves none.
      Nothing else does that. */
  lemma OnlyTheNamedCounterMoves(m: Meters, m': Meters, name: string, delta: int)
    ensures m' == Bumped(m, name, delta) <==>
              forall n :: n in NAMES ==> Counter(m', n) == Counter(m, n) + if n == name then delta else 0
  {
    if forall n :: n in NAMES ==> Counter(m', n) == Counter(m, n) + if n == name then delta else 0 {
      assert Counter(m', "total_received") == m'.total && Counter(m', "legitimate") == m'.legitimate;
      assert Counter(m', "fraudulent") == m'.fraudulent && Counter(m', "crm_attempts") == m'.attempts;
      assert Counter(m', "crm_successes") == m'.successes && Counter(m', "crm_failures") == m'.failures;
    }
  }

  /** No counter has gone back. */
  predicate NoLess(m: Meters, m': Meters) {
    && m.total <= m'.total && m.legitimate <= m'.legitimate && m.fraudulent <= m'.fraudulent
    && m.attempts <= m'.attempts && m.successes <= m'.successes && m.failures <= m'.failures
  }

  // -------------------------------------------------------------- the snapshot

  /** The counters over time; increments by other goroutines happen between two entries. */
  ghost predicate Growing(trace: seq<Meters>) {
    forall t :: 0 <= t < |trace| - 1 ==> NoLess(trace[t], trace[t + 1])
  }

  /** The instants of the six loads, in program order. */
  ghost predicate InOrder(trace: seq<Meters>, at: seq<nat>) {
    && |at| == 6 && at[5] < |trace|
    && at[0] <= at[1] <= at[2] <= at[3] <= at[4] <= at[5]
  }

  /** GetMetrics: each field as its own load finds it. */
  ghost function Snapshot(trace: seq<Meters>, at: seq<nat>): Meters
    requires InOrder(trace, at)
  {
    Meters(trace[at[0]].total, trace[at[1]].legitimate, trace[at[2]].fraudulent,
           trace[at[3]].attempts, trace[at[4]].successes, trace[at[5]].failures)
  }

  lemma {:induction false} GrowsThroughout(trace: seq<Meters>, i: nat, j: nat)
    requires Growing(trace) && i <= j < |trace|
    ensures NoLess(trace[i], trace[j])
    decreases j - i
  {
    if i < j {
      GrowsThroughout(trace, i, j - 1);
      assert NoLess(trace[j - 1], trace[j - 1 + 1]);
    }
  }

  /** However the loads are torn, every field lies between its values when the snapshot began
      and when it ended. */
  lemma SnapshotIsBracketed(trace: seq<Meters>, at: seq<nat>)
    requires Growing(trace) && InOrder(trace, at)
    ensures NoLess(trace[at[0]], Snapshot(trace, at)) && NoLess(Snapshot(trace, at), trace[at[5]])
  {
    forall i | 0 <= i < 6 ensures NoLess(trace[at[0]], trace[at[i]]) && NoLess(trace[at[i]], trace[at[5]]) {
      GrowsThroughout(trace, at[0], at[i]);
      GrowsThroughout(trace, at[i], at[5]);
    }
  }

  // -------------------------------------------------------------- the dashboard

  function FraudPercent(m: Meters): real {
    if m.legitimate + m.fraudulent > 0
    then (m.fraudulent as real / (m.legitimate + m.fraudulent) as real) * 100.0 else 0.0
  }

  function CrmRate(m: Meters): real {
    if m.attempts > 0 then (m.successes as real / m.attempts as real) * 100.0 else 0.0
  }

  lemma Percentage(part: int, whole: int)
    requires part >= 0 && whole > 0
    ensures 0.0 <= (part as real / whole as real) * 100.0
    ensures (part as real / whole as real) * 100.0 <= 100.0 <==> part <= whole
  {
    var q := part as real / whole as real;
    assert q * whole as real == part as real;
  }

  /** Both percentages are the shares they say, and 0 when there is nothing to share. */
  lemma PercentagesAreShares(m: Meters)
    ensures var verdicts := m.legitimate + m.fraudulent;
            if verdicts > 0 then FraudPercent(m) * verdicts as real == 100.0 * m.fraudulent as real
            else FraudPercent(m) == 0.0
    ensures if m.attempts > 0 then CrmRate(m) * m.attempts as real == 100.0 * m.successes as real
            else CrmRate(m) == 0.0
  {
    if m.legitimate + m.fraudulent > 0 {
      Share(m.fraudulent, m.legitimate + m.fraudulent);
    }
    if m.attempts > 0 {
      Share(m.successes, m.attempts);
    }
  }

  lemma Share(part: int, whole: int)
    requires whole > 0
    ensures ((part as real / whole as real) * 100.0) * whole as real == 100.0 * part as real
  {
    var q := part as real / whole as real;
    assert q * whole as real == part as real;
    assert (q * 100.0) * whole as real == 100.0 * (q * whole as real);
  }

  /** The fraud percentage never leaves [0, 100], torn or not. */
  lemma FraudPercentInRange(m: Meters)
    requires m.legitimate >= 0 && m.fraudulent >= 0
    ensures 0.0 <= FraudPercent(m) <= 100.0
  {
    if m.legitimate + m.fraudulent > 0 {
      Percentage(m.fraudulent, m.legitimate + m.fraudulent);
    }
  }

  /** The CRM rate of a snapshot compares loads of two instants. What that means for the
      system that counts is in `PipelineMeters`. */
  lemma CrmRateInRangeExactly(trace: seq<Meters>, at: seq<nat>)
    requires Growing(trace) && InOrder(trace, at)
    requires forall t :: 0 <= t < |trace| ==> trace[t].successes >= 0 && trace[t].attempts >= 0
    ensures CrmRate(Snapshot(trace, at)) <= 100.0 <==>
              trace[at[3]].attempts == 0 || trace[at[4]].successes <= trace[at[3]].attempts
    ensures 0.0 <= CrmRate(Snapshot(trace, at))
  {
    if trace[at[3]].attempts > 0 {
      Percentage(trace[at[4]].successes, trace[at[3]].attempts);
    }
  }

  /** In particular when no success was counted between the two loads. */
  lemma CrmRateInRangeUntorn(trace: seq<Meters>, at: seq<nat>)
    requires Growing(trace) && InOrder(trace, at)
    requires forall t :: 0 <= t < |trace| ==> 0 <= trace[t].successes <= trace[t].attempts
    requires trace[at[4]].successes == trace[at[3]].successes
    ensures 0.0 <= CrmRate(Snapshot(trace, at)) <= 100.0
  {
    CrmRateInRangeExactly(trace, at);
  }

  /** A torn snapshot can report more than 100%: one attempt has succeeded, then a second
      attempt is counted and succeeds between the two loads. */
  lemma TornRateExceedsOneHundred()
    ensures var a := Meters(2, 2, 0, 1, 1, 0);
            var trace := [a, Bumped(a, "crm_attempts", 1), Bumped(Bumped(a, "crm_attempts", 1), "crm_successes", 1)];
            var at: seq<nat> := [0, 0, 0, 0, 2, 2];
            Growing(trace) && InOrder(trace, at) && CrmRate(Snapshot(trace, at)) == 200.0
  {
    assert 2 as real / 1 as real == 2.0;
  }

  // ----------------------------------------------------------------- the object

  class MemoryTelemetryTracker {
    var totalReceived: int
    var legitimate: int
    var fraudulent: int
    var crmAttempts: int
    var crmSuccesses: int
    var crmFailures: int

    ghost function Model(): Meters
      reads this
    {
      Meters(totalReceived, legitimate, fraudulent, crmAttempts, crmSuccesses, crmFailures)
    }

    constructor ()
      ensures Model() == ZERO
    {
      totalReceived, legitimate, fraudulent := 0, 0, 0;
      crmAttempts, crmSuccesses, crmFailures := 0, 0, 0;
    }

    method IncrementMetric(name: string, delta: int)
      modifies this
      ensures Model() == Bumped(old(Model()), name, delta)
      ensures forall n :: n in NAMES ==>
          Counter(Model(), n) == Counter(old(Model()), n) + if n == name then delta else 0
    {
      if name == "total_received" {
        totalReceived := totalReceived + delta;
      } else if name == "legitimate" {
        legitimate := legitimate + delta;
      } else if name == "fraudulent" {
        fraudulent := fraudulent + delta;
      } else if name == "crm_attempts" {
        crmAttempts := crmAttempts + delta;
      } else if name == "crm_successes" {
        crmSuccesses := crmSuccesses + delta;
      } else if name == "crm_failures" {
        crmFailures := crmFailures + delta;
      }
      OnlyTheNamedCounterMoves(old(Model()), Model(), name, delta);
    }
  }
}
