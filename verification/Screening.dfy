/** The verdict of FraudService.ScreenEvent, pkg/domain/fraud/service.go, and what a
    legitimate verdict guarantees over whole runs. */
module Screening {
  import opened Events
  import opened FraudRules
  import opened FraudRuns
  import opened Reasons

  datatype Rule = BotRule | RateLimitRule | GeoVelocityRule | BrokenRule

  /** What a rule returns: its finding, or an error. */
  datatype Evaluation = Found(finding: Finding) | Errored

  const DEFAULT_RULES := [BotRule, RateLimitRule, GeoVelocityRule]
  const FRAUD_FROM := 5
  const TOP_SCORE := 10

  function Evaluate(lower: string -> string, r: Rule, m: Memory, a: Arrival): Evaluation {
    match r
    case BotRule => Found(BotFinding(lower, a.event.userAgent))
    case RateLimitRule => Found(RateFinding(m, a.Ip(), a.rateAt))
    case GeoVelocityRule => Found(GeoFinding(m, a.User(), a.Country(), a.geoAt))
    case BrokenRule => Errored
  }

  function AfterRule(r: Rule, m: Memory, a: Arrival): Memory {
    match r
    case RateLimitRule => AfterRate(m, a.Ip(), a.rateAt)
    case GeoVelocityRule => AfterGeo(m, a.User(), a.Country(), a.geoAt)
    case _ => m
  }

  function AfterRules(rules: seq<Rule>, m: Memory, a: Arrival): Memory {
    if rules == [] then m else AfterRule(rules[|rules| - 1], AfterRules(rules[..|rules| - 1], m, a), a)
  }

  /** The findings with a positive score, in rule order; errors are skipped. */
  function Fired(lower: string -> string, rules: seq<Rule>, m: Memory, a: Arrival): seq<Finding> {
    if rules == [] then [] else
    var before := rules[..|rules| - 1];
    var e := Evaluate(lower, rules[|rules| - 1], AfterRules(before, m, a), a);
    Fired(lower, before, m, a) + if e.Found? && e.finding.score > 0 then [e.finding] else []
  }

  function Total(fs: seq<Finding>): nat {
    if fs == [] then 0 else Total(fs[..|fs| - 1]) + fs[|fs| - 1].score
  }

  function ReasonsOf(fs: seq<Finding>): (rs: seq<string>)
    ensures |rs| == |fs| && forall k :: 0 <= k < |fs| ==> rs[k] == fs[k].reason
  {
    seq(|fs|, k requires 0 <= k < |fs| => fs[k].reason)
  }

  function Capped(total: nat): nat {
    if total > TOP_SCORE then TOP_SCORE else total
  }

  /** The screened event for `fired`: the flag is decided before the score is capped. */
  function Verdict(event: TrackingEvent, fired: seq<Finding>, at: int): ScreenedEvent {
    ScreenedEvent(event, Total(fired) >= FRAUD_FROM, Capped(Total(fired)), Join(ReasonsOf(fired)), at)
  }

  function Screened(lower: string -> string, m: Memory, a: Arrival, at: int): ScreenedEvent {
    Verdict(a.event, Fired(lower, DEFAULT_RULES, m, a), at)
  }

  // ------------------------------------------------- the three default rules

  function Audible(f: Finding): seq<Finding> {
    if f.score > 0 then [f] else []
  }

  lemma DefaultRules(lower: string -> string, m: Memory, a: Arrival)
    ensures AfterRules(DEFAULT_RULES, m, a) == AfterOne(m, a)
    ensures Fired(lower, DEFAULT_RULES, m, a) ==
              Audible(BotFinding(lower, a.event.userAgent))
              + Audible(RateFinding(m, a.Ip(), a.rateAt))
              + Audible(GeoFinding(m, a.User(), a.Country(), a.geoAt))
  {
    assert DEFAULT_RULES[..2] == [BotRule, RateLimitRule] && [BotRule, RateLimitRule][..1] == [BotRule];
    assert [BotRule][..0] == [];
    assert AfterRules([], m, a) == m && Fired(lower, [], m, a) == [];
    assert AfterRules([BotRule], m, a) == m;
    assert AfterRules([BotRule, RateLimitRule], m, a) == AfterRate(m, a.Ip(), a.rateAt);
    assert Fired(lower, [BotRule], m, a) == Audible(BotFinding(lower, a.event.userAgent));
    assert Fired(lower, [BotRule, RateLimitRule], m, a) ==
      Fired(lower, [BotRule], m, a) + Audible(RateFinding(m, a.Ip(), a.rateAt));
  }

  lemma TotalOfAudible(b: Finding, r: Finding, g: Finding)
    ensures Total(Audible(b) + Audible(r) + Audible(g)) == b.score + r.score + g.score
  {
    var fs := Audible(b) + Audible(r) + Audible(g);
    TotalAppends(Audible(b) + Audible(r), Audible(g));
    TotalAppends(Audible(b), Audible(r));
  }

  lemma TotalAppends(fs: seq<Finding>, gs: seq<Finding>)
    requires |gs| <= 1
    ensures Total(fs + gs) == Total(fs) + Total(gs)
  {
    if gs != [] {
      assert (fs + gs)[..|fs|] == fs && gs[..0] == [];
    } else {
      assert fs + gs == fs;
    }
  }

  /** The flag is the capped score's own comparison with 0.5, and it says that the agent names
      a bot, or the limiter or the geo rule fired; a missing agent alone never decides. */
  lemma FraudExactlyWhenARuleDecides(lower: string -> string, m: Memory, a: Arrival, at: int)
    ensures var s := Screened(lower, m, a, at);
            && s.event == a.event && s.screenedAt == at && s.score <= 10
            && (s.fraudulent <==> s.score >= 5)
            && (s.fraudulent <==> (NamesABot(lower(a.event.userAgent))
                                   || RateFinding(m, a.Ip(), a.rateAt) == TOO_FAST
                                   || GeoFinding(m, a.User(), a.Country(), a.geoAt) == TELEPORT))
  {
    BotFindingReadsTheAgent(lower, a.event.userAgent);
    DefaultRules(lower, m, a);
    hide BotFinding, NamesABot;
    TotalOfAudible(BotFinding(lower, a.event.userAgent), RateFinding(m, a.Ip(), a.rateAt),
                   GeoFinding(m, a.User(), a.Country(), a.geoAt));
  }

  /** The score in tenths: 4 for a missing agent or 8 for a bot, 7 for a burst, 9 for a jump,
      and 10 at most. */
  lemma ScoresAddUp(lower: string -> string, m: Memory, a: Arrival, at: int)
    ensures var text := lower(a.event.userAgent);
            var sum := (if text == "" then 4 else if NamesABot(text) then 8 else 0)
                       + (if RateFinding(m, a.Ip(), a.rateAt) == TOO_FAST then 7 else 0)
                       + (if GeoFinding(m, a.User(), a.Country(), a.geoAt) == TELEPORT then 9 else 0);
            Screened(lower, m, a, at).score == if sum > 10 then 10 else sum
  {
    FindingScores(lower, m, a);
    DefaultRules(lower, m, a);
    hide BotFinding, NamesABot, RateFinding, GeoFinding, Fired, Join;
    TotalOfAudible(BotFinding(lower, a.event.userAgent), RateFinding(m, a.Ip(), a.rateAt),
                   GeoFinding(m, a.User(), a.Country(), a.geoAt));
  }

  lemma FindingScores(lower: string -> string, m: Memory, a: Arrival)
    ensures var text := lower(a.event.userAgent);
            BotFinding(lower, a.event.userAgent).score == if text == "" then 4 else if NamesABot(text) then 8 else 0
    ensures var rate := RateFinding(m, a.Ip(), a.rateAt); rate.score == if rate == TOO_FAST then 7 else 0
    ensures var geo := GeoFinding(m, a.User(), a.Country(), a.geoAt); geo.score == if geo == TELEPORT then 9 else 0
  {
    BotFindingReadsTheAgent(lower, a.event.userAgent);
    hide BotFinding, NamesABot;
  }

  function Said(fired: bool, reason: string): seq<string> {
    if fired then [reason] else []
  }

  /** The reason names what fired, in the order of the rules. */
  lemma ReasonsInFull(lower: string -> string, m: Memory, a: Arrival, at: int)
    ensures var text := lower(a.event.userAgent);
            Screened(lower, m, a, at).reason == Join(
              Said(text == "", "empty user-agent")
              + Said(NamesABot(text), "known bot/crawler " + "user-agent " + "signature")
              + Said(RateFinding(m, a.Ip(), a.rateAt) == TOO_FAST,
                     "high-frequency events " + "from single IP " + "(rate limit exceeded)")
              + Said(GeoFinding(m, a.User(), a.Country(), a.geoAt) == TELEPORT,
                     "geo-velocity anomaly: " + "user IP location " + "changed too fast"))
  {
    DefaultRules(lower, m, a);
    ReasonTexts();
    AgentReasons(lower, a.event.userAgent);
    MemoryReasons(m, a);
    hide BotFinding, NamesABot, RateFinding, GeoFinding, Join, Fired, Audible, ReasonsOf, Said;
    var bot := Audible(BotFinding(lower, a.event.userAgent));
    var rate := Audible(RateFinding(m, a.Ip(), a.rateAt));
    ReasonsJoin(bot + rate, Audible(GeoFinding(m, a.User(), a.Country(), a.geoAt)));
    ReasonsJoin(bot, rate);
  }

  lemma ReasonsJoin(fs: seq<Finding>, gs: seq<Finding>)
    ensures ReasonsOf(fs + gs) == ReasonsOf(fs) + ReasonsOf(gs)
  {
  }

  lemma AgentReasons(lower: string -> string, userAgent: string)
    ensures var text := lower(userAgent);
            ReasonsOf(Audible(BotFinding(lower, userAgent)))
              == Said(text == "", NO_AGENT.reason) + Said(NamesABot(text), BOT.reason)
  {
    ReasonTexts();
    BotFindingReadsTheAgent(lower, userAgent);
    SignaturesAreSlices(lower(userAgent));
    hide BotFinding, NamesABot;
  }

  lemma MemoryReasons(m: Memory, a: Arrival)
    ensures var rate := RateFinding(m, a.Ip(), a.rateAt);
            ReasonsOf(Audible(rate)) == Said(rate == TOO_FAST, TOO_FAST.reason)
    ensures var geo := GeoFinding(m, a.User(), a.Country(), a.geoAt);
            ReasonsOf(Audible(geo)) == Said(geo == TELEPORT, TELEPORT.reason)
  {
    ReasonTexts();
    var rate, geo := RateFinding(m, a.Ip(), a.rateAt), GeoFinding(m, a.User(), a.Country(), a.geoAt);
    assert (rate == TOO_FAST || rate == SILENT) && (geo == TELEPORT || geo == SILENT);
    hide RateFinding, GeoFinding;
  }

  lemma ReasonTexts()
    ensures NO_AGENT.reason == "empty user-agent" && BOT.reason == "known bot/crawler " + "user-agent " + "signature"
    ensures TOO_FAST.reason == "high-frequency events " + "from single IP " + "(rate limit exceeded)"
    ensures TELEPORT.reason == "geo-velocity anomaly: " + "user IP location " + "changed too fast"
    ensures NO_AGENT.score > 0 && BOT.score > 0 && TOO_FAST.score > 0 && TELEPORT.score > 0 && SILENT.score == 0
  {
  }

  lemma NoRules(lower: string -> string, m: Memory, a: Arrival)
    ensures AfterRules([], m, a) == m && Fired(lower, [], m, a) == [] && Total([]) == 0 && ReasonsOf([]) == []
  {
  }

  lemma OneFinding(fs: seq<Finding>, f: Finding)
    ensures Total(fs + [f]) == Total(fs) + f.score && ReasonsOf(fs + [f]) == ReasonsOf(fs) + [f.reason]
  {
    assert (fs + [f])[..|fs|] == fs;
  }

  /** One rule more. */
  lemma NextRule(lower: string -> string, rules: seq<Rule>, r: Rule, m: Memory, a: Arrival)
    ensures AfterRules(rules + [r], m, a) == AfterRule(r, AfterRules(rules, m, a), a)
    ensures var e := Evaluate(lower, r, AfterRules(rules, m, a), a);
            Fired(lower, rules + [r], m, a)
              == Fired(lower, rules, m, a) + if e.Found? && e.finding.score > 0 then [e.finding] else []
  {
    hide Evaluate, AfterRule;
    assert (rules + [r])[..|rules|] == rules;
  }

  /** A rule that returns an error is passed over: the verdict is that of the other rules. */
  lemma {:induction false} BrokenRulesArePassedOver(lower: string -> string, before: seq<Rule>, after: seq<Rule>,
                                                    m: Memory, a: Arrival)
    ensures Fired(lower, before + [BrokenRule] + after, m, a) == Fired(lower, before + after, m, a)
    ensures AfterRules(before + [BrokenRule] + after, m, a) == AfterRules(before + after, m, a)
    decreases |after|
  {
    hide Fired, AfterRules;
    if after == [] {
      assert before + [BrokenRule] + after == before + [BrokenRule] && before + after == before;
      NextRule(lower, before, BrokenRule, m, a);
      assert Fired(lower, before, m, a) + [] == Fired(lower, before, m, a);
    } else {
      hide Evaluate, AfterRule;
      var most, last := after[..|after| - 1], after[|after| - 1];
      BrokenRulesArePassedOver(lower, before, most, m, a);
      assert before + [BrokenRule] + after == (before + [BrokenRule] + most) + [last];
      assert before + after == (before + most) + [last];
      NextRule(lower, before + [BrokenRule] + most, last, m, a);
      NextRule(lower, before + most, last, m, a);
    }
  }

  // ----------------------------------------------------- reading a verdict back

  /** The rule finding a reason belongs to. */
  function FindingOf(reason: string): Finding {
    if reason == NO_AGENT.reason then NO_AGENT
    else if reason == BOT.reason then BOT
    else if reason == TOO_FAST.reason then TOO_FAST
    else if reason == TELEPORT.reason then TELEPORT
    else SILENT
  }

  /** The findings that a stored reason string names. */
  function ReadBack(reason: string): seq<Finding> {
    if reason == "" then [] else
    var parts := Split(reason);
    seq(|parts|, k requires 0 <= k < |parts| => FindingOf(parts[k]))
  }

  ghost predicate Known(f: Finding) {
    f == NO_AGENT || f == BOT || f == TOO_FAST || f == TELEPORT
  }

  ghost predicate AllKnown(fs: seq<Finding>) {
    forall k :: 0 <= k < |fs| ==> Known(fs[k])
  }

  lemma NoAgentIsPlain()
    ensures Plain(NO_AGENT.reason)
  {
    NoComma(NO_AGENT.reason, "empty", " user", "-agent");
  }

  lemma BotIsPlain()
    ensures Plain(BOT.reason)
  {
    NoComma(BOT.reason, "known bot/crawler ", "user-agent ", "signature");
  }

  lemma TooFastIsPlain()
    ensures Plain(TOO_FAST.reason)
  {
    NoComma(TOO_FAST.reason, "high-frequency events ", "from single IP ", "(rate limit exceeded)");
  }

  lemma TeleportIsPlain()
    ensures Plain(TELEPORT.reason)
  {
    NoComma(TELEPORT.reason, "geo-velocity anomaly: ", "user IP location ", "changed too fast");
  }

  lemma ReasonsDiffer(f: Finding)
    requires Known(f)
    ensures f.reason != "" && FindingOf(f.reason) == f
  {
    assert |NO_AGENT.reason| == 16 && |BOT.reason| == 38 && |TOO_FAST.reason| == 58 && |TELEPORT.reason| == 55;
  }

  predicate CommaFree(s: string) {
    forall i :: 0 <= i < |s| ==> s[i] != ','
  }

  lemma NoComma(s: string, a: string, b: string, c: string)
    requires s == a + b + c
    requires CommaFree(a) && CommaFree(b) && CommaFree(c)
    ensures Plain(s)
  {
  }

  /** Splitting the stored reason recovers exactly the rules that fired, in order, and from
      them the score and the flag. */
  lemma ReasonTellsTheVerdict(lower: string -> string, m: Memory, a: Arrival, at: int)
    ensures var s, fired := Screened(lower, m, a, at), Fired(lower, DEFAULT_RULES, m, a);
            && ReadBack(s.reason) == fired
            && s.score == Capped(Total(ReadBack(s.reason)))
            && (s.fraudulent <==> Total(ReadBack(s.reason)) >= FRAUD_FROM)
  {
    var fired := Fired(lower, DEFAULT_RULES, m, a);
    FiredAreKnown(lower, m, a);
    ReadBackUndoesJoin(fired);
  }

  lemma FiredAreKnown(lower: string -> string, m: Memory, a: Arrival)
    ensures AllKnown(Fired(lower, DEFAULT_RULES, m, a))
  {
    DefaultRules(lower, m, a);
    var b, r, g := BotFinding(lower, a.event.userAgent), RateFinding(m, a.Ip(), a.rateAt),
                   GeoFinding(m, a.User(), a.Country(), a.geoAt);
    assert (b == SILENT || Known(b)) && (r == SILENT || Known(r)) && (g == SILENT || Known(g));
    var fired := Fired(lower, DEFAULT_RULES, m, a);
    forall k | 0 <= k < |fired| ensures Known(fired[k]) {
      assert fired[k] in Audible(b) || fired[k] in Audible(r) || fired[k] in Audible(g);
    }
  }

  lemma ReadBackUndoesJoin(fired: seq<Finding>)
    requires AllKnown(fired)
    ensures ReadBack(Join(ReasonsOf(fired))) == fired
  {
    var parts := ReasonsOf(fired);
    forall k | 0 <= k < |fired| ensures Plain(parts[k]) && parts[k] != "" && FindingOf(parts[k]) == fired[k] {
      assert Known(fired[k]);
      ReasonsDiffer(fired[k]);
      NoAgentIsPlain();
      BotIsPlain();
      TooFastIsPlain();
      TeleportIsPlain();
    }
    if fired != [] {
      SplitUndoesJoin(parts);
      assert |Join(parts)| >= |parts[0]|;
    }
  }

  // ------------------------------------------------------------ whole runs

  /** Event `i` of the run was screened as legitimate. */
  predicate Legitimate(lower: string -> string, run: seq<Arrival>, i: nat)
    requires i < |run|
  {
    !Screened(lower, After(run[..i]), run[i], 0).fraudulent
  }

  lemma LegitimateIsUnflagged(lower: string -> string, run: seq<Arrival>, i: nat)
    requires i < |run| && Legitimate(lower, run, i)
    ensures !RateFires(run, i) && !GeoFires(run, i)
  {
    FraudExactlyWhenARuleDecides(lower, After(run[..i]), run[i], 0);
  }

  /** An address gets at most ten legitimate verdicts per 5 s window begun. */
  lemma LegitimateThroughput(lower: string -> string, run: seq<Arrival>, ip: Address, picked: set<nat>, start: int,
                             span: nat)
    requires Clocked(run)
    requires forall i :: i in picked ==>
      i < |run| && run[i].Ip() == ip && Legitimate(lower, run, i) && start <= run[i].rateAt <= start + span
    ensures |picked| <= 10 * (span / 5_000_000_000 + 1)
  {
    forall i | i in picked ensures !RateFires(run, i) {
      LegitimateIsUnflagged(lower, run, i);
    }
    ThroughputBound(run, ip, picked, start, span);
  }

  /** No two legitimate events of a user name different countries within 10 s. */
  lemma LegitimateTravel(lower: string -> string, run: seq<Arrival>, i: nat, j: nat)
    requires Clocked(run) && i < j < |run|
    requires Legitimate(lower, run, i) && Legitimate(lower, run, j) && run[i].User() == run[j].User()
    requires run[i].Country() != "" && run[j].Country() != "" && run[i].Country() != run[j].Country()
    ensures run[j].geoAt - run[i].geoAt >= 10_000_000_000
  {
    LegitimateIsUnflagged(lower, run, i);
    LegitimateIsUnflagged(lower, run, j);
    GeoSeparation(run, i, j);
  }

  /** In the terms of the payloads: two legitimate events of a user whose "country" entries are
      two different non-empty strings. */
  lemma LegitimatePayloadsTravel(lower: string -> string, run: seq<Arrival>, i: nat, j: nat, from: string, dest: string)
    requires Clocked(run) && i < j < |run| && from != "" && dest != "" && from != dest
    requires Legitimate(lower, run, i) && Legitimate(lower, run, j) && run[i].event.userId == run[j].event.userId
    requires "country" in run[i].event.payload && run[i].event.payload["country"] == Text(from)
    requires "country" in run[j].event.payload && run[j].event.payload["country"] == Text(dest)
    ensures run[j].geoAt - run[i].geoAt >= 10_000_000_000
  {
    LegitimateTravel(lower, run, i, j);
  }
}
