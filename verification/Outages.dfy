/** How much traffic the breaker of pkg/resilience lets through while the remote side is
    down: a bound over any sequence of calls of Do, one after the other. */
module Outages {
  import opened CircuitBreakers
  import opened ResilientClients

  datatype Request = Request(start: int, script: seq<Try>)

  /** The clock does not run backwards within the call, and none of its attempts succeeds. */
  ghost predicate Fails(cfg: Setup, r: Request) {
    && |r.script| >= Budget(cfg)
    && forall k :: 0 <= k < Budget(cfg) ==>
         && r.start <= r.script[k].sent && r.start <= r.script[k].recorded
         && !r.script[k].reply.Good()
  }

  ghost predicate Outage(cfg: Setup, rs: seq<Request>) {
    forall i :: 0 <= i < |rs| ==> Fails(cfg, rs[i])
  }

  /** The breaker after the calls of `rs`. */
  ghost function After(cfg: Setup, b: Breaker, rs: seq<Request>): Breaker
    requires Outage(cfg, rs)
  {
    if rs == [] then b
    else Done(cfg, After(cfg, b, rs[..|rs| - 1]), rs[|rs| - 1].start, rs[|rs| - 1].script).breaker
  }

  /** Attempts among the first `used` iterations that went out by instant `until`. */
  function SentIn(script: seq<Try>, used: nat, until: int): (n: nat)
    requires used <= |script|
    ensures n <= used
  {
    if used == 0 then 0 else
    var t := script[used - 1];
    SentIn(script, used - 1, until) + (if !(used > 1 && t.cancelled) && t.sent <= until then 1 else 0)
  }

  /** Attempts of all the calls of `rs` that went out by instant `until`. */
  ghost function SentBy(cfg: Setup, b: Breaker, rs: seq<Request>, until: int): nat
    requires Outage(cfg, rs)
  {
    if rs == [] then 0 else
    var before, r := rs[..|rs| - 1], rs[|rs| - 1];
    var report := Done(cfg, After(cfg, b, before), r.start, r.script);
    SentBy(cfg, b, before, until) + SentIn(r.script, report.used, until)
  }

  /** Iteration `k` of call `i` is an attempt that went out by instant `until`. */
  ghost predicate WentOut(cfg: Setup, b: Breaker, rs: seq<Request>, until: int, i: nat, k: nat)
    requires Outage(cfg, rs) && i < |rs| && k < |rs[i].script|
  {
    && Outage(cfg, rs[..i])
    && k < Done(cfg, After(cfg, b, rs[..i]), rs[i].start, rs[i].script).used
    && !(k > 0 && rs[i].script[k].cancelled) && rs[i].script[k].sent <= until
  }

  ghost function Attempts(cfg: Setup, b: Breaker, rs: seq<Request>, until: int): set<(nat, nat)>
    requires Outage(cfg, rs)
  {
    set i: nat, k: nat | i < |rs| && k < |rs[i].script| && WentOut(cfg, b, rs, until, i, k) :: (i, k)
  }

  /** The attempts of call `i` among its first `used` iterations. */
  ghost function AttemptsOf(i: nat, script: seq<Try>, used: nat, until: int): set<(nat, nat)>
    requires used <= |script|
  {
    set k: nat | k < used && !(k > 0 && script[k].cancelled) && script[k].sent <= until :: (i, k)
  }

  lemma {:induction false} SentInCounts(i: nat, script: seq<Try>, used: nat, until: int)
    requires used <= |script|
    ensures |AttemptsOf(i, script, used, until)| == SentIn(script, used, until)
    decreases used
  {
    if used == 0 {
      assert AttemptsOf(i, script, 0, until) == {};
    } else {
      SentInCounts(i, script, used - 1, until);
      var k: nat := used - 1;
      var now := if !(k > 0 && script[k].cancelled) && script[k].sent <= until then {(i, k)} else {};
      assert AttemptsOf(i, script, used, until) == AttemptsOf(i, script, k, until) + now;
    }
  }

  /** What `SentBy` adds up is the number of attempts that went out. */
  lemma {:induction false} SentByCounts(cfg: Setup, b: Breaker, rs: seq<Request>, until: int)
    requires Outage(cfg, rs)
    ensures |Attempts(cfg, b, rs, until)| == SentBy(cfg, b, rs, until)
    decreases |rs|
  {
    hide Done, After;
    if rs == [] {
      assert Attempts(cfg, b, rs, until) == {};
    } else {
      var n: nat := |rs| - 1;
      var before, r := rs[..n], rs[n];
      SentByCounts(cfg, b, before, until);
      var used := Done(cfg, After(cfg, b, before), r.start, r.script).used;
      SentInCounts(n, r.script, used, until);
      EarlierAttempts(cfg, b, rs, until);
      assert Attempts(cfg, b, before, until) !! AttemptsOf(n, r.script, used, until);
    }
  }

  lemma EarlierAttempts(cfg: Setup, b: Breaker, rs: seq<Request>, until: int)
    requires Outage(cfg, rs) && rs != []
    ensures var n := |rs| - 1;
            Attempts(cfg, b, rs, until) ==
              Attempts(cfg, b, rs[..n], until)
              + AttemptsOf(n, rs[n].script, Done(cfg, After(cfg, b, rs[..n]), rs[n].start, rs[n].script).used, until)
  {
    hide Done, After;
    var n: nat := |rs| - 1;
    forall i: nat, k: nat | i < n && k < |rs[i].script|
      ensures WentOut(cfg, b, rs, until, i, k) <==> WentOut(cfg, b, rs[..n], until, i, k)
    {
      assert rs[..n][..i] == rs[..i];
    }
    var whole := Attempts(cfg, b, rs, until);
    var used := Done(cfg, After(cfg, b, rs[..n]), rs[n].start, rs[n].script).used;
    var parts := Attempts(cfg, b, rs[..n], until) + AttemptsOf(n, rs[n].script, used, until);
    forall i: nat, k: nat ensures (i, k) in whole <==> (i, k) in parts {
      if i == n && k < |rs[n].script| {
        assert WentOut(cfg, b, rs, until, n, k) <==> (n, k) in AttemptsOf(
          n, rs[n].script, Done(cfg, After(cfg, b, rs[..n]), rs[n].start, rs[n].script).used, until);
      }
    }
  }

  /** Whole cooldowns that fit between two instants. */
  function Cooldowns(cfg: Setup, since: int, until: int): nat
    requires cfg.breaker.cooldown > 0
  {
    if until <= since then 0 else (until - since) / cfg.breaker.cooldown
  }

  function Min(a: nat, b: nat): nat {
    if a < b then a else b
  }

  // ------------------------------------------------------------ one failing call

  lemma FailingCall(cfg: Setup, b: Breaker, r: Request)
    requires Sound(cfg.breaker, b) && cfg.maxRetries >= 0 && Fails(cfg, r) && b.state != HalfOpen
    ensures var d := Done(cfg, b, r.start, r.script);
            && Sound(cfg.breaker, d.breaker) && d.breaker.state != HalfOpen
            && d.used <= cfg.maxRetries + 1
            && d.breaker.failures == b.failures + d.used
            && (d.used == 0 ==> d.breaker == b)
            && (d.used > 0 ==> d.breaker.lastFailure >= r.start)
            && (b.state == Open ==> d.breaker.state == Open)
            && (b.state == Open && d.used > 0 ==> r.start > b.lastFailure + cfg.breaker.cooldown)
  {
    DoContract(cfg, b, r.start, r.script);
    var d := Done(cfg, b, r.start, r.script);
    assert d.used > 0 ==> !r.script[d.used - 1].reply.Good();
  }

  lemma {:induction false} NothingSentBeforeTheStart(script: seq<Try>, used: nat, start: int, until: int)
    requires used <= |script| && until < start
    requires forall k :: 0 <= k < used ==> start <= script[k].sent
    ensures SentIn(script, used, until) == 0
  {
    if used > 0 {
      NothingSentBeforeTheStart(script, used - 1, start, until);
    }
  }

  // ----------------------------------------------------------------- the bound

  /** As long as the breaker has not tripped, every attempt has cost one failure. */
  lemma {:induction false} BeforeTheTrip(cfg: Setup, b: Breaker, rs: seq<Request>, until: int)
    requires Sound(cfg.breaker, b) && b.state != HalfOpen && cfg.maxRetries >= 0 && Outage(cfg, rs)
    ensures var b' := After(cfg, b, rs);
            && Sound(cfg.breaker, b') && b'.state != HalfOpen
            && b.failures + SentBy(cfg, b, rs, until) <= b'.failures
  {
    if rs != [] {
      var before, r := rs[..|rs| - 1], rs[|rs| - 1];
      BeforeTheTrip(cfg, b, before, until);
      FailingCall(cfg, After(cfg, b, before), r);
    }
  }

  /** How far the breaker and the traffic are after `probes` calls were admitted since a trip
      whose last failure was at `t`, with `sent` attempts out by then. */
  ghost predicate Tripped(cfg: Setup, b: Breaker, sent: nat, base: nat, t: int, until: int, probes: nat)
    requires cfg.breaker.cooldown > 0 && cfg.maxRetries >= 0
  {
    && Sound(cfg.breaker, b) && b.state == Open
    && b.lastFailure >= t + probes * cfg.breaker.cooldown
    && sent <= base + (cfg.maxRetries + 1) * Min(probes, Cooldowns(cfg, t, until))
  }

  /** Each admitted call pushes the last failure beyond one more cooldown. */
  lemma OneMoreCall(cfg: Setup, b: Breaker, r: Request, sent: nat, base: nat, t: int, until: int, n: nat)
    requires cfg.maxRetries >= 0 && cfg.breaker.cooldown > 0 && Fails(cfg, r)
    requires Tripped(cfg, b, sent, base, t, until, n)
    ensures var d := Done(cfg, b, r.start, r.script);
            Tripped(cfg, d.breaker, sent + SentIn(r.script, d.used, until), base, t, until,
                    if d.used == 0 then n else n + 1)
  {
    FailingCall(cfg, b, r);
    var used := Done(cfg, b, r.start, r.script).used;
    if used > 0 && r.start > until {
      NothingSentBeforeTheStart(r.script, used, r.start, until);
    }
    if used > 0 {
      OneMoreProbe(cfg.breaker.cooldown, b.lastFailure - t, r.start - t, n);
    }
    Accounting(cfg, t, until, n, used, SentIn(r.script, used, until), r.start);
  }

  lemma {:induction false} AfterTheTrip(cfg: Setup, b: Breaker, rs: seq<Request>, until: int, trip: nat)
      returns (probes: nat)
    requires Sound(cfg.breaker, b) && b.state != HalfOpen && cfg.maxRetries >= 0 && cfg.breaker.cooldown > 0
    requires Outage(cfg, rs) && trip <= |rs| && After(cfg, b, rs[..trip]).state == Open
    ensures Tripped(cfg, After(cfg, b, rs), SentBy(cfg, b, rs, until),
                    SentBy(cfg, b, rs[..trip], until), After(cfg, b, rs[..trip]).lastFailure, until, probes)
    decreases |rs|
  {
    var t, base := After(cfg, b, rs[..trip]).lastFailure, SentBy(cfg, b, rs[..trip], until);
    if trip == |rs| {
      assert rs[..trip] == rs;
      BeforeTheTrip(cfg, b, rs, until);
      probes := 0;
    } else {
      var before, r := rs[..|rs| - 1], rs[|rs| - 1];
      assert before[..trip] == rs[..trip];
      var n := AfterTheTrip(cfg, b, before, until, trip);
      var b0 := After(cfg, b, before);
      OneMoreCall(cfg, b0, r, SentBy(cfg, b, before, until), base, t, until, n);
      probes := if Done(cfg, b0, r.start, r.script).used == 0 then n else n + 1;
      hide Tripped, Done, SentIn;
    }
  }

  /** Every call admitted after the trip starts more than a cooldown after the failure recorded
      last before it, and is refused otherwise. */
  lemma ProbesAreACooldownApart(cfg: Setup, b: Breaker, rs: seq<Request>, trip: nat, n: nat)
    requires Sound(cfg.breaker, b) && b.state != HalfOpen && cfg.maxRetries >= 0 && cfg.breaker.cooldown > 0
    requires Outage(cfg, rs) && trip <= n < |rs| && After(cfg, b, rs[..trip]).state == Open
    ensures var before := After(cfg, b, rs[..n]);
            Done(cfg, before, rs[n].start, rs[n].script).used > 0 <==>
                rs[n].start > before.lastFailure + cfg.breaker.cooldown
  {
    assert rs[..n][..trip] == rs[..trip];
    var probes := AfterTheTrip(cfg, b, rs[..n], 0, trip);
    FailingCall(cfg, After(cfg, b, rs[..n]), rs[n]);
    DoContract(cfg, After(cfg, b, rs[..n]), rs[n].start, rs[n].script);
    hide Done, SentIn;
  }

  lemma OneMoreProbe(cd: int, last: int, start: int, n: nat)
    requires last >= n * cd && start > last + cd
    ensures start > (n + 1) * cd
  {
  }

  /** An admitted call adds to the bound when it starts by `until`, and nothing otherwise. */
  lemma Accounting(cfg: Setup, t: int, until: int, n: nat, used: nat, sent: nat, start: int)
    requires cfg.breaker.cooldown > 0 && cfg.maxRetries >= 0
    requires sent <= used <= cfg.maxRetries + 1
    requires used > 0 ==> start - t > (n + 1) * cfg.breaker.cooldown
    requires used > 0 && start > until ==> sent == 0
    ensures (cfg.maxRetries + 1) * Min(n, Cooldowns(cfg, t, until)) + sent
         <= (cfg.maxRetries + 1) * Min(if used == 0 then n else n + 1, Cooldowns(cfg, t, until))
  {
    var m, cds := cfg.maxRetries + 1, Cooldowns(cfg, t, until);
    if used > 0 {
      if start > until {
        MoreProbesBoundMore(m, Min(n, cds), Min(n + 1, cds));
      } else {
        assert until - t > (n + 1) * cfg.breaker.cooldown;
        WholeCooldowns(cfg.breaker.cooldown, until - t, n + 1);
        assert cds >= n + 1;
        assert m * (n + 1) == m * n + m;
      }
    }
  }

  lemma MoreProbesBoundMore(m: nat, a: nat, b: nat)
    requires a <= b
    ensures m * a <= m * b
  {
  }

  lemma WholeCooldowns(cd: int, span: int, n: nat)
    requires cd > 0 && span > n * cd
    ensures span > 0 && span / cd >= n
  {
    assert span > 0;
    var q: nat := span / cd;
    QuotientBound(span, cd);
    if q < n {
      MoreProbesBoundMore(cd, q + 1, n);
    }
  }

  lemma QuotientBound(span: int, cd: int)
    requires cd > 0
    ensures cd * (span / cd) <= span < cd * (span / cd + 1)
  {
    assert span == cd * (span / cd) + span % cd;
  }

  lemma SumIsBounded(cfg: Setup, b: Breaker, rs: seq<Request>, until: int, first: nat)
    requires Sound(cfg.breaker, b) && b.state == Closed && cfg.maxRetries >= 0 && cfg.breaker.cooldown > 0
    requires Outage(cfg, rs) && first < |rs|
    requires After(cfg, b, rs[..first]).state == Closed && After(cfg, b, rs[..first + 1]).state != Closed
    ensures var t := After(cfg, b, rs[..first + 1]).lastFailure;
            SentBy(cfg, b, rs, until) <= (cfg.breaker.Limit() - b.failures + cfg.maxRetries)
                                      + (cfg.maxRetries + 1) * Cooldowns(cfg, t, until)
  {
    var upTo := rs[..first + 1];
    assert upTo[..first] == rs[..first] && upTo[first] == rs[first];
    BeforeTheTrip(cfg, b, rs[..first], until);
    FailingCall(cfg, After(cfg, b, rs[..first]), rs[first]);
    BeforeTheTrip(cfg, b, upTo, until);
    assert SentBy(cfg, b, upTo, until) <= cfg.breaker.Limit() - b.failures + cfg.maxRetries;
    var probes := AfterTheTrip(cfg, b, rs, until, first + 1);
    var cds := Cooldowns(cfg, After(cfg, b, upTo).lastFailure, until);
    MoreProbesBoundMore(cfg.maxRetries + 1, Min(probes, cds), cds);
  }

  /** The load bound. While nothing succeeds, if call `first` is the one that trips the
      breaker and t is its last failure, the attempts sent by any instant number at most what
      is left of the threshold plus maxRetries, plus maxRetries + 1 for each whole cooldown
      since t. */
  lemma OutageLoadBound(cfg: Setup, b: Breaker, rs: seq<Request>, until: int, first: nat)
    requires Sound(cfg.breaker, b) && b.state == Closed && cfg.maxRetries >= 0 && cfg.breaker.cooldown > 0
    requires Outage(cfg, rs) && first < |rs|
    requires After(cfg, b, rs[..first]).state == Closed && After(cfg, b, rs[..first + 1]).state != Closed
    ensures var t := After(cfg, b, rs[..first + 1]).lastFailure;
            SentBy(cfg, b, rs, until) <= (cfg.breaker.Limit() - b.failures + cfg.maxRetries)
                                      + (cfg.maxRetries + 1) * Cooldowns(cfg, t, until)
    ensures var t := After(cfg, b, rs[..first + 1]).lastFailure;
            t <= until ==>
              |Attempts(cfg, b, rs, until)| <= (cfg.breaker.Limit() - b.failures + cfg.maxRetries)
                                            + (cfg.maxRetries + 1) * ((until - t) / cfg.breaker.cooldown)
  {
    hide After, SentBy, Attempts, Outage;
    SumIsBounded(cfg, b, rs, until, first);
    SentByCounts(cfg, b, rs, until);
    PrefixFails(cfg, rs, first + 1);
    var t := After(cfg, b, rs[..first + 1]).lastFailure;
    if t <= until {
      SameCooldowns(cfg, t, until);
    }
  }

  lemma SameCooldowns(cfg: Setup, t: int, until: int)
    requires cfg.breaker.cooldown > 0 && t <= until
    ensures Cooldowns(cfg, t, until) == (until - t) / cfg.breaker.cooldown
  {
  }

  lemma PrefixFails(cfg: Setup, rs: seq<Request>, n: nat)
    requires Outage(cfg, rs) && n <= |rs|
    ensures Outage(cfg, rs[..n])
  {
  }

  /** While the breaker has not tripped at all, fewer attempts than its threshold were sent. */
  lemma UntrippedLoadBound(cfg: Setup, b: Breaker, rs: seq<Request>, until: int)
    requires Sound(cfg.breaker, b) && b.state == Closed && cfg.maxRetries >= 0 && Outage(cfg, rs)
    requires After(cfg, b, rs).state == Closed
    ensures SentBy(cfg, b, rs, until) < cfg.breaker.Limit() - b.failures
    ensures |Attempts(cfg, b, rs, until)| < cfg.breaker.Limit() - b.failures
  {
    SentByCounts(cfg, b, rs, until);
    BeforeTheTrip(cfg, b, rs, until);
  }

  /** The bound is met: with a threshold of 1, no retries and a cooldown of 10, the call that
      trips the breaker and one probe just after the cooldown reach it. */
  lemma BoundIsMet()
    ensures var cfg := Setup(Config(1, 10), 0, 0);
            var rs := [Miss(0), Miss(11)];
            && Outage(cfg, rs)
            && SentBy(cfg, FRESH, rs, 11) == (1 + 0) + 1 * Cooldowns(cfg, 0, 11)
  {
    var cfg := Setup(Config(1, 10), 0, 0);
    var rs := [Miss(0), Miss(11)];
    assert rs[..1] == [Miss(0)] && [Miss(0)][..0] == [];
    MissedCall(cfg, FRESH, 0);
    var b := After(cfg, FRESH, [Miss(0)]);
    assert b == FRESH.Failed(cfg.breaker, 0);
    MissedCall(cfg, b, 11);
  }

  /** A request whose only attempt goes unanswered. */
  function Miss(at: int): Request {
    Request(at, [Try(false, 0, at, NoReply, at)])
  }

  lemma MissedCall(cfg: Setup, b: Breaker, at: int)
    requires cfg.maxRetries == 0 && b.Admits(cfg.breaker, at)
    ensures var d := Done(cfg, b, at, Miss(at).script);
            && d.used == 1
            && d.breaker == b.Asked(cfg.breaker, at).Failed(cfg.breaker, at)
            && SentIn(Miss(at).script, 1, 11) == if at <= 11 then 1 else 0
  {
    var script := Miss(at).script;
    assert script[..1] == script;
    assert !Ends(script, 0);
    assert FirstEnd(script) == 1;
    var admitted := b.Asked(cfg.breaker, at);
    assert AfterFailures(cfg.breaker, admitted, script, 1) ==
        AfterFailures(cfg.breaker, admitted, script, 0).Failed(cfg.breaker, at);
    assert SentIn(script, 0, 11) == 0;
  }
}
