/** The three fraud rules of pkg/domain/fraud/rules.go and the state they share. */
module FraudRules {
  import opened Events

  const WINDOW := 5_000_000_000      // 5 s
  const BURST := 10
  const TRAVEL := 10_000_000_000     // 10 s

  /** What a rule says about an event: a score in tenths, and why. A zero score is silence. */
  datatype Finding = Finding(score: nat, reason: string)

  const SILENT := Finding(0, "")
  const NO_AGENT := Finding(4, "empty user-agent")
  const BOT := Finding(8, "known bot/crawler " + "user-agent " + "signature")
  const TOO_FAST := Finding(7, "high-frequency events " + "from single IP " + "(rate limit exceeded)")
  const TELEPORT := Finding(9, "geo-velocity anomaly: " + "user IP location " + "changed too fast")

  // ------------------------------------------------------------------ BotRule

  const SIGNATURES := ["bot", "crawler", "headless", "spider", "python-requests", "curl"]

  predicate Contains(s: string, sub: string) {
    exists i :: 0 <= i <= |s| && sub <= s[i..]
  }

  /** `lower` is the runtime's lower-casing. */
  function BotFinding(lower: string -> string, userAgent: string): Finding {
    var ua := lower(userAgent);
    if ua == "" then NO_AGENT
    else if exists k :: 0 <= k < |SIGNATURES| && Contains(ua, SIGNATURES[k]) then BOT
    else SILENT
  }

  /** Some slice of the text is one of the six signatures. */
  ghost predicate NamesABot(text: string) {
    exists i, j :: 0 <= i <= j <= |text| &&
      text[i..j] in {"bot", "crawler", "headless", "spider", "python-requests", "curl"}
  }

  /** Every user agent is either missing, or names a bot, or passes. */
  lemma BotFindingReadsTheAgent(lower: string -> string, userAgent: string)
    ensures BotFinding(lower, userAgent) == NO_AGENT <==> lower(userAgent) == ""
    ensures BotFinding(lower, userAgent) == BOT <==> NamesABot(lower(userAgent))
    ensures BotFinding(lower, userAgent) == SILENT <==> lower(userAgent) != "" && !NamesABot(lower(userAgent))
  {
    SignaturesAreSlices(lower(userAgent));
    hide NamesABot, Contains;
    assert NO_AGENT.score == 4 && BOT.score == 8 && SILENT.score == 0;
  }

  lemma SignaturesAreSlices(text: string)
    ensures NamesABot(text) <==> exists k :: 0 <= k < |SIGNATURES| && Contains(text, SIGNATURES[k])
    ensures NamesABot(text) ==> text != ""
  {
    forall i, j | 0 <= i <= j <= |text|
      && text[i..j] in {"bot", "crawler", "headless", "spider", "python-requests", "curl"}
      ensures exists k :: 0 <= k < |SIGNATURES| && Contains(text, SIGNATURES[k])
    {
      var k := IndexOfSignature(text[i..j]);
      assert text[i..j] <= text[i..];
      assert Contains(text, SIGNATURES[k]);
    }
    forall k | 0 <= k < |SIGNATURES| && Contains(text, SIGNATURES[k]) ensures NamesABot(text) {
      var i :| 0 <= i <= |text| && SIGNATURES[k] <= text[i..];
      var j := i + |SIGNATURES[k]|;
      assert text[i..j] == SIGNATURES[k];
      SignaturesListed(k);
    }
  }

  lemma IndexOfSignature(s: string) returns (k: nat)
    requires s in {"bot", "crawler", "headless", "spider", "python-requests", "curl"}
    ensures k < |SIGNATURES| && SIGNATURES[k] == s && s != ""
  {
    k := if s == "bot" then 0 else if s == "crawler" then 1 else if s == "headless" then 2
         else if s == "spider" then 3 else if s == "python-requests" then 4 else 5;
  }

  lemma SignaturesListed(k: nat)
    requires k < |SIGNATURES|
    ensures SIGNATURES[k] in {"bot", "crawler", "headless", "spider", "python-requests", "curl"}
  {
  }

  // ------------------------------------------------------- the shared state

  datatype Sighting = Sighting(country: string, at: int)

  datatype Memory = Memory(ipHistory: map<Address, seq<int>>, userHistory: map<string, Sighting>)

  const BLANK := Memory(map[], map[])

  /** The stamps younger than the window at instant `now`. */
  function Active(stamps: seq<int>, now: int): seq<int> {
    if stamps == [] then [] else
    var rest, t := Active(stamps[..|stamps| - 1], now), stamps[|stamps| - 1];
    if now - t < WINDOW then rest + [t] else rest
  }

  function History(m: Memory, ip: Address): seq<int> {
    if ip in m.ipHistory then m.ipHistory[ip] else []
  }

  /** The history that evaluating the limiter for `ip` at `now` leaves behind. */
  function Extended(m: Memory, ip: Address, now: int): seq<int> {
    Active(History(m, ip), now) + [now]
  }

  function RateFinding(m: Memory, ip: Address, now: int): Finding {
    if |Extended(m, ip, now)| > BURST then TOO_FAST else SILENT
  }

  /** A sighting with no country is not looked at. */
  function GeoFinding(m: Memory, user: string, country: string, now: int): Finding {
    if country != "" && user in m.userHistory &&
       m.userHistory[user].country != country && now - m.userHistory[user].at < TRAVEL
    then TELEPORT else SILENT
  }

  function AfterRate(m: Memory, ip: Address, now: int): Memory {
    m.(ipHistory := m.ipHistory[ip := Extended(m, ip, now)])
  }

  function AfterGeo(m: Memory, user: string, country: string, now: int): Memory {
    if country == "" || GeoFinding(m, user, country, now) == TELEPORT then m
    else m.(userHistory := m.userHistory[user := Sighting(country, now)])
  }

  class RuleState {
    var ipHistory: map<Address, seq<int>>
    var userHistory: map<string, Sighting>

    ghost function Model(): Memory
      reads this
    {
      Memory(ipHistory, userHistory)
    }

    constructor ()
      ensures Model() == BLANK
    {
      ipHistory, userHistory := map[], map[];
    }

    /** RateLimitRule.Evaluate; `now` is the clock read under the lock. */
    method EvaluateRate(event: TrackingEvent, now: int) returns (f: Finding)
      modifies this
      ensures f == RateFinding(old(Model()), event.ip, now)
      ensures Model() == AfterRate(old(Model()), event.ip, now)
    {
      var history := if event.ip in ipHistory then ipHistory[event.ip] else [];
      var active := [];
      var i := 0;
      while i < |history|
        invariant 0 <= i <= |history|
        invariant active == Active(history[..i], now)
      {
        assert history[..i + 1][..i] == history[..i];
        if now - history[i] < WINDOW {
          active := active + [history[i]];
        }
        i := i + 1;
      }
      assert history[..i] == history;
      active := active + [now];
      ipHistory := ipHistory[event.ip := active];
      f := if |active| > BURST then TOO_FAST else SILENT;
    }

    /** GeoVelocityRule.Evaluate. */
    method EvaluateGeo(event: TrackingEvent, now: int) returns (f: Finding)
      modifies this
      ensures f == GeoFinding(old(Model()), event.userId, TextOf(event.payload, "country"), now)
      ensures Model() == AfterGeo(old(Model()), event.userId, TextOf(event.payload, "country"), now)
    {
      if "country" !in event.payload {
        return SILENT;
      }
      var value := event.payload["country"];
      if !value.Text? || value.s == "" {
        return SILENT;
      }
      if event.userId in userHistory {
        var last := userHistory[event.userId];
        if last.country != value.s && now - last.at < TRAVEL {
          return TELEPORT;
        }
      }
      userHistory := userHistory[event.userId := Sighting(value.s, now)];
      return SILENT;
    }
  }
}
