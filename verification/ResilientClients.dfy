/** ResilientClient.Do of pkg/resilience/resilient_client.go: one admission, then a retry
    loop that drives the breaker. The transport, the clock, the jitter and cancellation are
    the environment's: a script says what it does around each iteration. */
module ResilientClients {
  import opened CircuitBreakers

  datatype Reply = NoReply | Status(code: int) {
    predicate Good() {
      Status? && code < 500
    }
  }

  /** The environment around one iteration: whether the wait before it is cut short by the
      request's context, the jitter drawn for that wait (in milliseconds), when the request
      goes out, what comes back, and when the outcome is recorded. The first iteration does
      not wait, so its `cancelled` and `jitter` are never looked at. */
  datatype Try = Try(cancelled: bool, jitter: nat, sent: int, reply: Reply, recorded: int)

  datatype Outcome =
    | Blocked
    | Delivered(code: int)
    | Interrupted
    | Exhausted(last: Reply)
    | Crashed              // a nil response is dereferenced when no iteration is entered

  datatype Setup = Setup(breaker: Config, maxRetries: int, baseDelay: int)

  datatype Report = Report(outcome: Outcome, breaker: Breaker, used: nat)

  // -------------------------------------------------------- the specification

  /** Iteration `k` is the last one: its wait is cut short, or its reply is good. */
  predicate Ends(tries: seq<Try>, k: nat)
    requires k < |tries|
  {
    (k > 0 && tries[k].cancelled) || tries[k].reply.Good()
  }

  /** The first iteration that ends the loop, or `|tries|` when none does. */
  function FirstEnd(tries: seq<Try>): (n: nat)
    ensures n <= |tries|
    ensures n < |tries| ==> Ends(tries, n)
    ensures forall k :: 0 <= k < n ==> !Ends(tries, k)
  {
    if tries == [] then 0 else
    var n := FirstEnd(tries[..|tries| - 1]);
    assert forall k :: 0 <= k < |tries| - 1 ==> (Ends(tries, k) <==> Ends(tries[..|tries| - 1], k));
    if n < |tries| - 1 then n
    else if Ends(tries, |tries| - 1) then |tries| - 1
    else |tries|
  }

  /** The breaker after the first `n` iterations were recorded as failures. */
  function AfterFailures(cfg: Config, b: Breaker, tries: seq<Try>, n: nat): Breaker
    requires n <= |tries|
  {
    if n == 0 then b else AfterFailures(cfg, b, tries, n - 1).Failed(cfg, tries[n - 1].recorded)
  }

  /** The tries a call may use: one, plus one for each retry. */
  function Budget(cfg: Setup): nat {
    if cfg.maxRetries < 0 then 0 else cfg.maxRetries + 1
  }

  /** What one call of Do amounts to. */
  function Done(cfg: Setup, b: Breaker, start: int, script: seq<Try>): (r: Report)
    requires |script| >= Budget(cfg)
    ensures r.used <= Budget(cfg)
  {
    if !b.Admits(cfg.breaker, start) then Report(Blocked, b, 0) else
    var tries := script[..Budget(cfg)];
    var admitted := b.Asked(cfg.breaker, start);
    var n := FirstEnd(tries);
    if n == |tries| then
      Report(if n == 0 then Crashed else Exhausted(tries[n - 1].reply),
             AfterFailures(cfg.breaker, admitted, tries, n), n)
    else if n > 0 && tries[n].cancelled then
      Report(Interrupted, AfterFailures(cfg.breaker, admitted, tries, n + 1), n + 1)
    else
      Report(Delivered(tries[n].reply.code), AfterFailures(cfg.breaker, admitted, tries, n).Succeeded(), n + 1)
  }

  // ------------------------------------------------------------- its meaning

  /** What every breaker reached by calls satisfies, see SoundAfterAnyLog. */
  predicate Sound(cfg: Config, b: Breaker) {
    b.state == Closed <==> b.failures < cfg.Limit()
  }

  lemma SoundAfterAnyLog(cfg: Config, log: seq<Event>)
    ensures Sound(cfg, Replay(cfg, log))
  {
    BreakerIsItsLog(cfg, log);
  }

  lemma {:induction false} FailuresAddUp(cfg: Config, b: Breaker, tries: seq<Try>, n: nat)
    requires Sound(cfg, b) && n <= |tries|
    ensures var b' := AfterFailures(cfg, b, tries, n);
            && b'.failures == b.failures + n
            && b'.lastFailure == (if n == 0 then b.lastFailure else tries[n - 1].recorded)
            && b'.state == (if n == 0 then b.state else if b.failures + n < cfg.Limit() then Closed else Open)
  {
    if n > 0 {
      FailuresAddUp(cfg, b, tries, n - 1);
    }
  }

  /** The contract of a call on a breaker that no other call is using. */
  lemma DoContract(cfg: Setup, b: Breaker, start: int, script: seq<Try>)
    requires Sound(cfg.breaker, b) && |script| >= Budget(cfg) && cfg.maxRetries >= 0
    ensures var r := Done(cfg, b, start, script);
            var admitted := b.Asked(cfg.breaker, start);
            && Sound(cfg.breaker, r.breaker)
            && r.used <= cfg.maxRetries + 1
            // a call is refused exactly while the breaker is open and hot, and then changes nothing
            && (r.outcome == Blocked <==> b.state == Open && start - b.lastFailure <= cfg.breaker.cooldown)
            && (r.outcome == Blocked ==> r.breaker == b && r.used == 0)
            // a delivered reply closes the breaker, whatever failed before it
            && (r.outcome.Delivered? ==>
                  && r.outcome.code < 500 && r.outcome == Delivered(script[r.used - 1].reply.code)
                  && r.breaker.state == Closed && r.breaker.failures == 0)
            // anything else counts one failure per iteration entered, a cut wait included
            && (r.outcome.Interrupted? || r.outcome.Exhausted? ==>
                  && r.used >= 1
                  && r.breaker.failures == b.failures + r.used
                  && r.breaker.lastFailure == script[r.used - 1].recorded
                  && r.breaker.state == if b.failures + r.used < cfg.breaker.Limit() then Closed else Open)
            && (r.outcome.Interrupted? ==> r.used >= 2)
            && (r.outcome.Exhausted? ==> r.used == cfg.maxRetries + 1)
            && r.outcome != Crashed
            // between calls the breaker is never seen half open
            && (b.state != HalfOpen ==> r.breaker.state != HalfOpen)
  {
    if b.Admits(cfg.breaker, start) {
      var tries := script[..Budget(cfg)];
      var admitted := b.Asked(cfg.breaker, start);
      var n := FirstEnd(tries);
      FailuresAddUp(cfg.breaker, admitted, tries, n);
      if n < |tries| {
        FailuresAddUp(cfg.breaker, admitted, tries, n + 1);
      }
    }
  }

  /** Iteration `k` of the script is entered and answered by a status below 500, or cut. */
  ghost predicate Answered(script: seq<Try>, k: nat)
    requires k < |script|
  {
    script[k].reply.Status? && script[k].reply.code < 500
  }

  ghost predicate Cut(script: seq<Try>, k: nat)
    requires k < |script|
  {
    k > 0 && script[k].cancelled
  }

  /** Nothing before iteration `k` ends the loop. */
  ghost predicate GetsTo(script: seq<Try>, k: nat)
    requires k <= |script|
  {
    forall m :: 0 <= m < k ==> !Answered(script, m) && !Cut(script, m)
  }

  lemma FirstEndIsWhereTheLoopStops(tries: seq<Try>, k: nat)
    requires k <= |tries|
    ensures FirstEnd(tries) == k <==> GetsTo(tries, k) && (k < |tries| ==> Answered(tries, k) || Cut(tries, k))
  {
    var n := FirstEnd(tries);
    assert forall m :: 0 <= m < |tries| ==> (Ends(tries, m) <==> Answered(tries, m) || Cut(tries, m));
    if n < k {
      assert Answered(tries, n) || Cut(tries, n);
    }
  }

  lemma GetsToOfPrefix(script: seq<Try>, n: nat, k: nat)
    requires k <= n <= |script|
    ensures GetsTo(script[..n], k) <==> GetsTo(script, k)
  {
    assert forall m :: 0 <= m < k ==>
      (Answered(script[..n], m) <==> Answered(script, m)) && (Cut(script[..n], m) <==> Cut(script, m));
  }

  /** When an admitted call ends, and how: at the first reply below 500, whatever it is, at the
      first cut wait, or after the last retry. */
  lemma EndsExactly(cfg: Setup, b: Breaker, start: int, script: seq<Try>, k: nat)
    requires |script| >= Budget(cfg) && b.Admits(cfg.breaker, start)
    ensures var r := Done(cfg, b, start, script);
            && (forall c :: r.outcome == Delivered(c) && r.used == k + 1 <==>
                  k <= cfg.maxRetries && GetsTo(script, k) && !Cut(script, k)
                  && script[k].reply == Status(c) && c < 500)
            && (r.outcome == Interrupted && r.used == k + 1 <==>
                  k <= cfg.maxRetries && GetsTo(script, k) && Cut(script, k))
            && (r.outcome.Exhausted? && r.used == k + 1 <==>
                  k == cfg.maxRetries && GetsTo(script, k + 1))
            && (r.outcome.Exhausted? ==> r.outcome == Exhausted(script[r.used - 1].reply))
  {
    var tries := script[..Budget(cfg)];
    var n := FirstEnd(tries);
    FirstEndIsWhereTheLoopStops(tries, n);
    if k < |tries| {
      FirstEndIsWhereTheLoopStops(tries, k);
      GetsToOfPrefix(script, |tries|, k);
    }
    if |tries| > 0 {
      FirstEndIsWhereTheLoopStops(tries, |tries|);
      GetsToOfPrefix(script, |tries|, |tries|);
    }
  }

  /** Iteration `k` of the call sends a request: it is entered, and its wait is not cut short. */
  predicate Sends(cfg: Setup, b: Breaker, start: int, script: seq<Try>, k: nat)
    requires |script| >= Budget(cfg)
  {
    k < Done(cfg, b, start, script).used && !(k > 0 && script[k].cancelled)
  }

  /** Retries do not ask again: an attempt goes out on an open breaker exactly when it is a
      retry and the failures counted by then reach the threshold. */
  lemma SentWhileOpen(cfg: Setup, b: Breaker, start: int, script: seq<Try>, k: nat)
    requires Sound(cfg.breaker, b) && |script| >= Budget(cfg) && k < |script|
    ensures Sends(cfg, b, start, script, k)
            && AfterFailures(cfg.breaker, b.Asked(cfg.breaker, start), script, k).state == Open
       <==> Sends(cfg, b, start, script, k) && k > 0 && b.failures + k >= cfg.breaker.Limit()
  {
    if Sends(cfg, b, start, script, k) {
      FailuresAddUp(cfg.breaker, b.Asked(cfg.breaker, start), script, k);
    }
  }

  /** A threshold of 1 and one retry: the retry goes out on the breaker its own call just
      opened, and its success moves the breaker from Open straight to Closed. */
  lemma RetryBypassesTheOpenBreaker()
    ensures var cfg := Setup(Config(1, 5), 1, 0);
            var script := [Try(false, 0, 0, NoReply, 1), Try(false, 0, 2, Status(200), 3)];
            && AfterFailures(cfg.breaker, FRESH, script, 1).state == Open
            && Done(cfg, FRESH, 0, script).outcome == Delivered(200)
            && Done(cfg, FRESH, 0, script).breaker.notified == [Transition(Closed, Open), Transition(Open, Closed)]
  {
    var cfg := Setup(Config(1, 5), 1, 0);
    var script := [Try(false, 0, 0, NoReply, 1), Try(false, 0, 2, Status(200), 3)];
    assert script[..2] == script;
    assert !Ends(script, 0) && Ends(script, 1);
    assert FirstEnd(script) == 1;
    assert AfterFailures(cfg.breaker, FRESH, script, 1) ==
        AfterFailures(cfg.breaker, FRESH, script, 0).Failed(cfg.breaker, 1);
  }

  // ----------------------------------------------------------------- backoff

  const MILLISECOND := 1_000_000
  const TWO63 := 0x8000_0000_0000_0000
  const TWO64 := 0x1_0000_0000_0000_0000

  function Pow2(n: nat): (p: nat)
    ensures p >= 1
  {
    if n == 0 then 1 else 2 * Pow2(n - 1)
  }

  /** Two's complement wrap-around of a 64-bit duration. */
  function Wrap(x: int): int {
    (x + TWO63) % TWO64 - TWO63
  }

  /** The delay before iteration `k`, as the 64-bit arithmetic computes it. */
  function Delay(base: int, k: nat, jitter: nat): int
    requires k > 0
  {
    Wrap(Wrap(base * Wrap(Pow2(k - 1))) + jitter * MILLISECOND)
  }

  function IdealDelay(base: int, k: nat, jitter: nat): int
    requires k > 0
  {
    base * Pow2(k - 1) + jitter * MILLISECOND
  }

  /** The sum of the ideal delays of the first `|jitters|` waits. */
  function TotalDelay(base: int, jitters: seq<nat>): int {
    if jitters == [] then 0
    else TotalDelay(base, jitters[..|jitters| - 1]) + IdealDelay(base, |jitters|, jitters[|jitters| - 1])
  }

  function Sum(xs: seq<nat>): nat {
    if xs == [] then 0 else Sum(xs[..|xs| - 1]) + xs[|xs| - 1]
  }

  /** The doubling delays add up to the base times one less than a power of two, the jitters,
      in milliseconds, to less than 100 each. */
  lemma {:induction false} BackoffClosedForm(base: int, jitters: seq<nat>)
    ensures TotalDelay(base, jitters) == base * (Pow2(|jitters|) - 1) + 1_000_000 * Sum(jitters)
    ensures (forall i :: 0 <= i < |jitters| ==> jitters[i] < 100) ==> Sum(jitters) <= 99 * |jitters|
  {
    var k := |jitters|;
    if k > 0 {
      BackoffClosedForm(base, jitters[..k - 1]);
      var p := Pow2(k - 1);
      assert base * (Pow2(k) - 1) == base * (p - 1) + base * p by {
        assert Pow2(k) == 2 * p;
      }
    }
  }

  lemma {:induction false} Pow2Grows(i: nat, j: nat)
    requires i <= j
    ensures Pow2(i) <= Pow2(j) && Pow2(j) > j
    decreases j
  {
    if j > 0 {
      Pow2Grows(if i == j then i - 1 else i, j - 1);
    }
  }

  lemma WrapIsIdentity(x: int)
    ensures Wrap(x) == x <==> -TWO63 <= x < TWO63
  {
  }

  /** Wrapping picks the 64-bit value that differs by a multiple of 2^64. */
  lemma WrapIsCongruent(x: int)
    ensures -9_223_372_036_854_775_808 <= Wrap(x) < 9_223_372_036_854_775_808
    ensures (Wrap(x) - x) % 18_446_744_073_709_551_616 == 0
  {
    var q := (x + TWO63) / TWO64;
    assert x + TWO63 == q * TWO64 + (x + TWO63) % TWO64;
    assert Wrap(x) - x == -q * TWO64;
  }

  lemma Pow2IsAPower(n: nat)
    ensures Pow2(0) == 1 && Pow2(n + 1) == 2 * Pow2(n)
  {
  }

  lemma ProductBounds(base: int, p: int, q: int)
    requires base >= 1 && 1 <= p <= q
    ensures base * p <= base * q && p <= base * p
  {
  }

  /** With a positive base delay, the 64-bit arithmetic agrees with the ideal delay for every
      wait and every jitter if and only if the longest ideal delay fits. */
  lemma DelaysFitExactlyWhenTheLongestDoes(base: int, maxRetries: nat)
    requires base >= 1 && maxRetries >= 1
    ensures (forall k, jitter :: 1 <= k <= maxRetries && 0 <= jitter < 100 ==>
               Delay(base, k, jitter) == IdealDelay(base, k, jitter))
       <==> base * Pow2(maxRetries - 1) + 99 * 1_000_000 < 9_223_372_036_854_775_808
  {
    var longest := base * Pow2(maxRetries - 1) + 99 * MILLISECOND;
    if longest < TWO63 {
      forall k, jitter | 1 <= k <= maxRetries && 0 <= jitter < 100
        ensures Delay(base, k, jitter) == IdealDelay(base, k, jitter)
      {
        var p := Pow2(k - 1);
        Pow2Grows(k - 1, maxRetries - 1);
        ProductBounds(base, p, Pow2(maxRetries - 1));
        WrapIsIdentity(p);
        WrapIsIdentity(base * p);
        WrapIsIdentity(base * p + jitter * MILLISECOND);
      }
    } else {
      var d := Delay(base, maxRetries, 99);
      assert d < TWO63 <= IdealDelay(base, maxRetries, 99);
    }
  }

  // -------------------------------------------------------------- the object

  class ResilientClient {
    const cb: CircuitBreaker
    const maxRetries: int
    const baseDelay: int

    ghost function Settings(): Setup {
      Setup(cb.config, maxRetries, baseDelay)
    }

    constructor (cb: CircuitBreaker, maxRetries: int, baseDelay: int)
      ensures this.cb == cb && this.maxRetries == maxRetries && this.baseDelay == baseDelay
    {
      this.cb, this.maxRetries, this.baseDelay := cb, maxRetries, baseDelay;
    }

    /** `waits` are the delays asked of the timer, in order. */
    method Do(start: int, script: seq<Try>) returns (outcome: Outcome, waits: seq<int>)
      requires cb.Valid() && |script| >= Budget(Settings())
      modifies cb
      ensures cb.Valid()
      ensures var r := Done(Settings(), old(cb.Model()), start, script);
              && outcome == r.outcome && cb.Model() == r.breaker
              && |waits| == (if r.used == 0 then 0 else r.used - 1)
              && forall i :: 0 <= i < |waits| ==> waits[i] == Delay(baseDelay, i + 1, script[i + 1].jitter)
    {
      waits := [];
      var granted := cb.Allow(start);
      if !granted {
        return Blocked, waits;
      }
      ghost var tries := script[..Budget(Settings())];
      ghost var admitted := cb.Model();
      ghost var n := FirstEnd(tries);
      var last := NoReply;
      var attempt := 0;
      while attempt <= maxRetries
        invariant 0 <= attempt <= |tries| && attempt <= n
        invariant cb.Valid() && cb.Model() == AfterFailures(cb.config, admitted, tries, attempt)
        invariant attempt > 0 ==> last == tries[attempt - 1].reply
        invariant |waits| == if attempt == 0 then 0 else attempt - 1
        invariant forall i :: 0 <= i < |waits| ==> waits[i] == Delay(baseDelay, i + 1, script[i + 1].jitter)
      {
        var t := script[attempt];
        assert t == tries[attempt];
        if attempt > 0 {
          waits := waits + [Delay(baseDelay, attempt, t.jitter)];
          if t.cancelled {
            assert Ends(tries, attempt);
            cb.RecordFailure(t.recorded);
            return Interrupted, waits;
          }
        }
        last := t.reply;
        if t.reply.Good() {
          assert Ends(tries, attempt);
          cb.RecordSuccess();
          return Delivered(t.reply.code), waits;
        }
        cb.RecordFailure(t.recorded);
        attempt := attempt + 1;
      }
      outcome := if attempt == 0 then Crashed else Exhausted(last);
    }
  }
}
