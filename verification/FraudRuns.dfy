/** What the limiter and the geo rule guarantee over whole runs of the screening worker:
    the pruned history against the full log, bursts, and pairs of sightings. */
module FraudRuns {
  import opened Events
  import opened FraudRules
  import Sets

  /** One event taken through the rules, with the clock as each rule read it. */
  datatype Arrival = Arrival(event: TrackingEvent, rateAt: int, geoAt: int) {
    function Ip(): Address { event.ip }
    function User(): string { event.userId }
    function Country(): string { TextOf(event.payload, "country") }
  }

  function AfterOne(m: Memory, a: Arrival): Memory {
    AfterGeo(AfterRate(m, a.Ip(), a.rateAt), a.User(), a.Country(), a.geoAt)
  }

  /** The rules' memory after the arrivals, from a fresh state. */
  function After(run: seq<Arrival>): Memory {
    if run == [] then BLANK else AfterOne(After(run[..|run| - 1]), run[|run| - 1])
  }

  /** The clock does not run backwards between two evaluations of one key. */
  ghost predicate Clocked(run: seq<Arrival>) {
    forall i, j :: 0 <= i < j < |run| ==>
      && (run[i].Ip() == run[j].Ip() ==> run[i].rateAt <= run[j].rateAt)
      && (run[i].User() == run[j].User() ==> run[i].geoAt <= run[j].geoAt)
  }

  predicate RateFires(run: seq<Arrival>, i: nat)
    requires i < |run|
  {
    RateFinding(After(run[..i]), run[i].Ip(), run[i].rateAt) == TOO_FAST
  }

  predicate GeoFires(run: seq<Arrival>, i: nat)
    requires i < |run|
  {
    GeoFinding(After(run[..i]), run[i].User(), run[i].Country(), run[i].geoAt) == TELEPORT
  }

  // --------------------------------------------------------- the rate limiter

  /** Every stamp ever taken for an address, nothing pruned. */
  function FullLog(run: seq<Arrival>, ip: Address): seq<int> {
    if run == [] then [] else
    var rest, a := FullLog(run[..|run| - 1], ip), run[|run| - 1];
    if a.Ip() == ip then rest + [a.rateAt] else rest
  }

  /** The evaluations of `ip` that a naive look at the whole run finds under 5 s old. */
  ghost function Recent(run: seq<Arrival>, ip: Address, now: int): set<nat> {
    set i: nat | i < |run| && run[i].Ip() == ip && now - run[i].rateAt < 5_000_000_000
  }

  lemma {:induction false} LogIsCovered(run: seq<Arrival>, ip: Address, x: int)
    requires x in FullLog(run, ip)
    ensures exists i :: 0 <= i < |run| && run[i].Ip() == ip && run[i].rateAt == x
  {
    var a := run[|run| - 1];
    if !(a.Ip() == ip && a.rateAt == x) {
      LogIsCovered(run[..|run| - 1], ip, x);
    }
  }

  lemma {:induction false} PruneTwice(stamps: seq<int>, early: int, late: int)
    requires early <= late
    ensures Active(Active(stamps, early), late) == Active(stamps, late)
  {
    if stamps != [] {
      var rest, t := stamps[..|stamps| - 1], stamps[|stamps| - 1];
      PruneTwice(rest, early, late);
      assert (Active(rest, early) + [t])[..|Active(rest, early)|] == Active(rest, early);
    }
  }

  lemma {:induction false} ActiveOfSorted(stamps: seq<int>, now: int) returns (k: nat)
    requires forall i, j :: 0 <= i < j < |stamps| ==> stamps[i] <= stamps[j]
    ensures k <= |stamps| && Active(stamps, now) == stamps[k..]
    ensures forall i :: 0 <= i < |stamps| ==> (i >= k <==> now - stamps[i] < WINDOW)
    decreases |stamps|
  {
    k := 0;
    if stamps != [] {
      var rest, last := stamps[..|stamps| - 1], stamps[|stamps| - 1];
      k := ActiveOfSorted(rest, now);
      assert Active(stamps, now) == rest[k..] + if now - last < WINDOW then [last] else [];
      hide Active;
      if now - last < WINDOW {
        assert stamps[k..] == rest[k..] + [last];
      } else {
        assert forall i :: 0 <= i < |rest| ==> stamps[i] <= last;
        assert k == |rest| && rest[k..] == [];
        k := |stamps|;
      }
    }
  }

  lemma {:induction false} LogIsSorted(run: seq<Arrival>, ip: Address)
    requires Clocked(run)
    ensures forall i, j :: 0 <= i < j < |FullLog(run, ip)| ==> FullLog(run, ip)[i] <= FullLog(run, ip)[j]
  {
    if run != [] {
      var before := run[..|run| - 1];
      LogIsSorted(before, ip);
      var log := FullLog(before, ip);
      if run[|run| - 1].Ip() == ip {
        forall i | 0 <= i < |log| ensures log[i] <= run[|run| - 1].rateAt {
          LogIsCovered(before, ip, log[i]);
        }
      }
    }
  }

  /** The pruned history is the full log seen through the window of its last evaluation:
      pruning has never lost a stamp that still counts. */
  lemma {:induction false} HistoryIsTheRecentLog(run: seq<Arrival>, ip: Address)
    requires Clocked(run)
    ensures var log := FullLog(run, ip);
            History(After(run), ip) == if log == [] then [] else Active(log, log[|log| - 1])
  {
    if run != [] {
      var before, a := run[..|run| - 1], run[|run| - 1];
      HistoryIsTheRecentLog(before, ip);
      if a.Ip() == ip {
        var log := FullLog(before, ip);
        if log != [] {
          LogIsCovered(before, ip, log[|log| - 1]);
        }
        PruneAndExtend(log, a.rateAt);
      }
    }
  }

  /** Pruning the pruned log and pruning the full log agree, and so they do one stamp later. */
  lemma PruneAndExtend(log: seq<int>, now: int)
    requires log != [] ==> log[|log| - 1] <= now
    ensures Active(if log == [] then [] else Active(log, log[|log| - 1]), now) + [now] == Active(log + [now], now)
  {
    assert (log + [now])[..|log|] == log;
    if log != [] {
      PruneTwice(log, log[|log| - 1], now);
    }
  }

  /** So the pruned history is a contiguous suffix of the full log. */
  lemma HistoryIsASuffix(run: seq<Arrival>, ip: Address)
    requires Clocked(run)
    ensures var log, h := FullLog(run, ip), History(After(run), ip);
            |h| <= |log| && h == log[|log| - |h|..]
  {
    HistoryIsTheRecentLog(run, ip);
    LogIsSorted(run, ip);
    var log := FullLog(run, ip);
    if log != [] {
      var k := ActiveOfSorted(log, log[|log| - 1]);
    }
  }

  lemma RecentOfOneMore(run: seq<Arrival>, ip: Address, now: int)
    requires run != []
    ensures var n := |run| - 1;
            Recent(run, ip, now) == Recent(run[..n], ip, now)
              + if run[n].Ip() == ip && now - run[n].rateAt < WINDOW then {n} else {}
  {
  }

  /** Counting the pruned log is counting the naive window. */
  lemma {:induction false} CountIsNaiveCount(run: seq<Arrival>, ip: Address, now: int)
    ensures |Active(FullLog(run, ip), now)| == |Recent(run, ip, now)|
  {
    if run == [] {
      assert Recent(run, ip, now) == {};
    } else {
      var before, a := run[..|run| - 1], run[|run| - 1];
      CountIsNaiveCount(before, ip, now);
      RecentOfOneMore(run, ip, now);
      var log := FullLog(before, ip);
      assert (log + [a.rateAt])[..|log|] == log;
    }
  }

  /** The limiter fires exactly when more than ten evaluations of the address, this one
      included and flagged ones too, are under 5 s old. */
  lemma RateFiresOnTheNaiveCount(run: seq<Arrival>, i: nat)
    requires Clocked(run) && i < |run|
    ensures RateFires(run, i) <==> |Recent(run[..i + 1], run[i].Ip(), run[i].rateAt)| > 10
  {
    var upTo, a := run[..i + 1], run[i];
    assert upTo[..i] == run[..i];
    HistoryIsTheRecentLog(upTo, a.Ip());
    CountIsNaiveCount(upTo, a.Ip(), a.rateAt);
    assert History(After(upTo), a.Ip()) == Extended(After(run[..i]), a.Ip(), a.rateAt);
  }

  lemma {:induction false} Greatest(s: set<nat>) returns (m: nat)
    requires s != {}
    ensures m in s && forall x :: x in s ==> x <= m
  {
    m :| m in s;
    if s != {m} {
      var n := Greatest(s - {m});
      assert forall x :: x in s ==> x == m || x in s - {m};
      m := if n > m then n else m;
    }
  }

  /** Evaluations of `ip` that the limiter let pass. */
  ghost predicate Unflagged(run: seq<Arrival>, ip: Address, picked: set<nat>) {
    forall i :: i in picked ==> i < |run| && run[i].Ip() == ip && !RateFires(run, i)
  }

  /** No 5 s span of an address holds more than ten unflagged evaluations, wherever it starts. */
  lemma AtMostTenPerWindow(run: seq<Arrival>, ip: Address, picked: set<nat>)
    requires Clocked(run) && Unflagged(run, ip, picked)
    requires forall i, j :: i in picked && j in picked ==> run[j].rateAt - run[i].rateAt < 5_000_000_000
    ensures |picked| <= 10
  {
    if picked != {} {
      var last := Greatest(picked);
      RateFiresOnTheNaiveCount(run, last);
      Sets.Smaller(picked, Recent(run[..last + 1], ip, run[last].rateAt));
    }
  }

  /** Picked stamps that fall in one window. */
  ghost predicate Together(at: seq<int>, part: set<nat>) {
    && (forall i :: i in part ==> i < |at|)
    && forall i, j :: i in part && j in part ==> at[j] - at[i] < WINDOW
  }

  /** If no window holds more than ten of the picked stamps, `n` consecutive ones hold 10 n. */
  lemma {:induction false} WindowsBound(at: seq<int>, picked: set<nat>, start: int, n: nat)
    requires forall i :: i in picked ==> i < |at| && start <= at[i] < start + n * WINDOW
    requires forall part: set<nat> :: part <= picked && Together(at, part) ==> |part| <= BURST
    ensures |picked| <= BURST * n
    decreases n
  {
    if n == 0 {
      assert picked == {};
    } else {
      var early := set i | i in picked && at[i] < start + WINDOW;
      assert Together(at, early);
      WindowsBound(at, picked - early, start + WINDOW, n - 1);
      assert picked == early + (picked - early);
    }
  }

  /** Over a stretch of length `span` at most ten per window begun pass. */
  lemma ThroughputBound(run: seq<Arrival>, ip: Address, picked: set<nat>, start: int, span: nat)
    requires Clocked(run) && Unflagged(run, ip, picked)
    requires forall i :: i in picked ==> start <= run[i].rateAt <= start + span
    ensures |picked| <= 10 * (span / 5_000_000_000 + 1)
  {
    var at := seq(|run|, i requires 0 <= i < |run| => run[i].rateAt);
    forall part: set<nat> | part <= picked && Together(at, part) ensures |part| <= BURST {
      forall i, j | i in part && j in part ensures run[j].rateAt - run[i].rateAt < WINDOW {
        assert at[j] - at[i] < WINDOW;
      }
      AtMostTenPerWindow(run, ip, part);
    }
    assert span < (span / WINDOW + 1) * WINDOW;
    WindowsBound(at, picked, start, span / WINDOW + 1);
  }

  // ------------------------------------------------------------- the geo rule

  /** A sighting the geo rule took at face value. */
  predicate Accepted(run: seq<Arrival>, i: nat)
    requires i < |run|
  {
    run[i].Country() != "" && !GeoFires(run, i)
  }

  /** The last accepted sighting of a user, or -1. */
  function LastAccepted(run: seq<Arrival>, user: string): (p: int)
    ensures -1 <= p < |run|
    ensures p >= 0 ==> run[p].User() == user && Accepted(run, p)
    ensures forall q :: p < q < |run| && run[q].User() == user ==> !Accepted(run, q)
  {
    if run == [] then -1 else
    var n := |run| - 1;
    PrefixAccepts(run);
    if run[n].User() == user && Accepted(run, n) then n else LastAccepted(run[..n], user)
  }

  lemma PrefixAccepts(run: seq<Arrival>)
    requires run != []
    ensures var n := |run| - 1;
            forall q :: 0 <= q < n ==> (Accepted(run[..n], q) <==> Accepted(run, q))
  {
    forall q | 0 <= q < |run| - 1 ensures Accepted(run[..|run| - 1], q) <==> Accepted(run, q) {
      assert run[..|run| - 1][..q] == run[..q];
    }
  }

  lemma {:induction false} MemoryIsTheLastAccepted(run: seq<Arrival>, user: string)
    ensures var p, seen := LastAccepted(run, user), After(run).userHistory;
            && (user in seen <==> p >= 0)
            && (p >= 0 ==> seen[user] == Sighting(run[p].Country(), run[p].geoAt))
  {
    if run != [] {
      var n := |run| - 1;
      MemoryIsTheLastAccepted(run[..n], user);
      PrefixAccepts(run);
      assert AfterRate(After(run[..n]), run[n].Ip(), run[n].rateAt).userHistory == After(run[..n]).userHistory;
    }
  }

  /** What decides a sighting: the last accepted one of the same user before it. */
  lemma GeoAgainstTheLastAccepted(run: seq<Arrival>, i: nat)
    requires i < |run| && run[i].Country() != ""
    ensures var p := LastAccepted(run[..i], run[i].User());
            GeoFires(run, i) <==>
              p >= 0 && run[p].Country() != run[i].Country() && run[i].geoAt - run[p].geoAt < 10_000_000_000
  {
    MemoryIsTheLastAccepted(run[..i], run[i].User());
  }

  /** Any two accepted sightings of a user in different countries, adjacent or not, are at
      least 10 s apart. */
  lemma {:induction false} GeoSeparation(run: seq<Arrival>, i: nat, j: nat)
    requires Clocked(run) && i < j < |run|
    requires Accepted(run, i) && Accepted(run, j) && run[i].User() == run[j].User()
    requires run[i].Country() != run[j].Country()
    ensures run[j].geoAt - run[i].geoAt >= 10_000_000_000
    decreases j
  {
    var p := LastAccepted(run[..j], run[j].User());
    AcceptedInPrefix(run, j, i);
    AcceptedInPrefix(run, j, p);
    GeoAgainstTheLastAccepted(run, j);
    if run[p].Country() == run[j].Country() {
      GeoSeparation(run, i, p);
    }
  }

  lemma AcceptedInPrefix(run: seq<Arrival>, n: nat, q: int)
    requires n <= |run| && -1 <= q < n
    ensures q >= 0 ==> (Accepted(run[..n], q) <==> Accepted(run, q))
  {
    if q >= 0 {
      assert run[..n][..q] == run[..q];
    }
  }

  /** Every anomaly lies within 10 s of the acceptance that precedes it, with no acceptance
      of the user in between. */
  lemma AnomaliesFollowAnAcceptance(run: seq<Arrival>, i: nat) returns (p: nat)
    requires Clocked(run) && i < |run| && GeoFires(run, i)
    ensures p < i && Accepted(run, p) && run[p].User() == run[i].User()
    ensures forall q :: p < q < i && run[q].User() == run[i].User() ==> !Accepted(run, q)
    ensures run[p].Country() != run[i].Country() && 0 <= run[i].geoAt - run[p].geoAt < 10_000_000_000
  {
    GeoAgainstTheLastAccepted(run, i);
    p := LastAccepted(run[..i], run[i].User());
    AcceptedInPrefix(run, i, p);
    forall q | p < q < i && run[q].User() == run[i].User() ensures !Accepted(run, q) {
      AcceptedInPrefix(run, i, q);
    }
  }
}
