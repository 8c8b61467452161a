/** The ingest endpoint of pkg/domain/ingest/handler.go, from the decoded event on. */
module IngestServers {
  import opened Events
  import opened Consent
  import opened Telemetry
  import opened Broker
  import Pipeline
  import PipelineInv
  import B = Bus

  /** The event that HandleIngest publishes: stamped if it came without a time, masked. */
  function Prepared(e: TrackingEvent, now: int): TrackingEvent
    requires WellFormed(e.ip)
  {
    e.(timestamp := if e.timestamp == 0 then now else e.timestamp, ip := Masked(e.ip))
  }

  /** The response codes of HandleIngest. */
  const ACCEPTED := 202
  const BAD_REQUEST := 400
  const INTERNAL_ERROR := 500

  predicate Named(e: TrackingEvent) {
    e.eventId != "" && e.userId != "" && e.eventType != ""
  }

  function Answer(e: TrackingEvent, published: B.Status): int {
    if !Named(e) || !ConsentGiven(e.eventType, e.consent) then BAD_REQUEST
    else if published == B.Accepted then ACCEPTED
    else INTERNAL_ERROR
  }

  /** net.ParseIP, as far as the masking sees it: fresh bytes that read as the address. */
  method Parse(a: Address) returns (parsed: array?<bv8>)
    requires WellFormed(a)
    ensures parsed == null <==> a.Unreadable?
    ensures parsed != null ==> fresh(parsed) && parsed.Length == 16 && Read(parsed[..]) == a
  {
    match a
    case Unreadable(_) => parsed := null;
    case V6(bytes) =>
      parsed := new bv8[16](i requires 0 <= i < 16 => bytes[i]);
      assert parsed[..] == bytes;
    case V4(octets) =>
      var prefix: seq<bv8> := [0, 0, 0, 0, 0, 0, 0, 0, 0, 0, 0xff, 0xff];
      parsed := new bv8[16](i requires 0 <= i < 16 => (prefix + octets)[i]);
      assert parsed[..] == prefix + octets;
      assert parsed[12..] == octets;
  }

  class IngestServer {
    const broker: InMemoryBroker
    const tracker: MemoryTelemetryTracker

    constructor (broker: InMemoryBroker, tracker: MemoryTelemetryTracker)
      ensures this.broker == broker && this.tracker == tracker
    {
      this.broker, this.tracker := broker, tracker;
    }

    /** `env` is what the selects of the publication see, on the request's context. */
    method HandleIngest(e: TrackingEvent, now: int, env: nat -> Select) returns (code: int)
      requires broker.Valid() && WellFormed(e.ip)
      modifies broker, tracker
      ensures broker.Valid() && broker.closed == old(broker.closed) && broker.screenedSubs == old(broker.screenedSubs)
      ensures var open := StatusOf(old(broker.rawSubs), broker.bufferSize, env);
              code == Answer(e, if broker.closed then B.Refused else open)
      // 400 for a missing field or missing consent, and otherwise 202 or 500
      ensures code == 400 <==> e.eventId == "" || e.userId == "" || e.eventType == ""
                               || (!e.consent && e.eventType in {"click", "view_item"})
      ensures code in {202, 400, 500}
      ensures code == 202 ==> !broker.closed && StatusOf(old(broker.rawSubs), broker.bufferSize, env) == B.Accepted
      ensures code == 500 ==> broker.closed || StatusOf(old(broker.rawSubs), broker.bufferSize, env) == B.Cancelled
      // an incomplete event leaves no trace
      ensures !Named(e) ==> broker.rawSubs == old(broker.rawSubs) && tracker.Model() == old(tracker.Model())
      // the ingest counter moves for a rejection and for a publication that went through
      ensures Named(e) ==> tracker.Model() == if code == INTERNAL_ERROR then old(tracker.Model())
                                              else Bumped(old(tracker.Model()), "total_received", 1)
      // and nothing without consent reaches a channel
      ensures Named(e) && ConsentGiven(e.eventType, e.consent) && !broker.closed ==>
                broker.rawSubs == Published(old(broker.rawSubs), broker.bufferSize, Prepared(e, now), env)
      ensures Named(e) && (!ConsentGiven(e.eventType, e.consent) || broker.closed) ==>
          broker.rawSubs == old(broker.rawSubs)
    {
      hide Bumped, Published, Reached;
      ConsentByType(e.eventType, e.consent);
      if e.eventId == "" || e.userId == "" || e.eventType == "" {
        return BAD_REQUEST;
      }
      var event := e;
      if event.timestamp == 0 {
        event := event.(timestamp := now);
      }
      if !ConsentGiven(event.eventType, event.consent) {
        tracker.IncrementMetric("total_received", 1);
        return BAD_REQUEST;
      }
      var parsed := Parse(event.ip);
      var masked := AnonymizeIP(parsed);
      assert masked == Masked(e.ip);
      event := event.(ip := masked);
      var status := broker.PublishRaw(event, env);
      if status != B.Accepted {
        return INTERNAL_ERROR;
      }
      tracker.IncrementMetric("total_received", 1);
      code := ACCEPTED;
    }
  }

  /** Publishing changes nothing of the event but its address, and its timestamp if it has none. */
  lemma PreparedKeepsTheRest(e: TrackingEvent, now: int)
    requires WellFormed(e.ip)
    ensures var p := Prepared(e, now);
            && p.eventId == e.eventId && p.userId == e.userId && p.eventType == e.eventType
            && p.userAgent == e.userAgent && p.payload == e.payload && p.consent == e.consent
            && p.ip == Masked(e.ip)
            && (e.timestamp != 0 ==> p.timestamp == e.timestamp) && (e.timestamp == 0 ==> p.timestamp == now)
  {
  }

  /** What is published is clean, is what the whole-system model publishes for the stamped
      event, and carries of the sender's address exactly the network. */
  lemma PreparedEventsAreClean(e: TrackingEvent, now: int)
    requires WellFormed(e.ip) && Named(e) && ConsentGiven(e.eventType, e.consent)
    ensures PipelineInv.Clean(Prepared(e, now))
    ensures var stamped := e.(timestamp := Prepared(e, now).timestamp);
            Pipeline.Complete(stamped) && Prepared(e, now) == Pipeline.Anonymised(stamped)
    ensures Network(Prepared(e, now).ip) == Network(e.ip)
  {
    MaskKeepsExactlyTheNetwork(e.ip, e.ip);
  }

  /** At any moment at which the broker's lock lets a publication begin, the whole-system model
      lets a handler publish an event, or count its rejection, exactly when HandleIngest would. */
  lemma HandlersAreTheMachines(s: Pipeline.State, e: TrackingEvent, now: int)
    requires WellFormed(e.ip) && s.bus.closer == B.NotClosing
    ensures var stamped := e.(timestamp := Prepared(e, now).timestamp);
            && (Pipeline.Enabled(s, Pipeline.Ingest(Pipeline.Accept(stamped))) <==> Answer(e, B.Accepted) == 202)
            && (Pipeline.Enabled(s, Pipeline.Ingest(Pipeline.Reject(stamped))) <==>
                  Answer(e, B.Accepted) == 400 && e.eventId != "" && e.userId != "" && e.eventType != "")
  {
    hide Masked;
    ConsentByType(e.eventType, e.consent);
  }

  /** A request answered 500 because its context was done may all the same have been
      delivered: exactly when a subscriber ahead of the select that gave up had room. */
  lemma FailedIngestDeliversExactly(subs: seq<Channel<TrackingEvent>>, cap: nat, e: TrackingEvent, env: nat -> Select)
    requires StatusOf(subs, cap, env) == B.Cancelled
    ensures Published(subs, cap, e, env) != subs
       <==> exists k: nat :: k < Reached(subs, cap, env, 0) && |subs[k].queue| < cap
    ensures |subs| <= 1 ==> Published(subs, cap, e, env) == subs
  {
    var subs', n := Published(subs, cap, e, env), Reached(subs, cap, env, 0);
    forall k: nat | k < n ensures subs'[k] != subs[k] <==> |subs[k].queue| < cap {
      assert |subs'[k].queue| == |subs[k].queue| + (if |subs[k].queue| < cap then 1 else 0);
    }
    if subs' != subs {
      var k: nat :| k < |subs| && subs'[k] != subs[k];
      assert k < n;
    }
  }

  /** A context that is done from the second select on. */
  function DoneAfterOne(i: nat): Select {
    Select(i > 0, true)
  }

  lemma FailedIngestMayDeliver(e: TrackingEvent)
    ensures var subs := [Channel([], false), Channel([], false)];
            && StatusOf(subs, 1, DoneAfterOne) == B.Cancelled
            && Published(subs, 1, e, DoneAfterOne) == [Channel([e], false), Channel([], false)]
  {
    var subs: seq<Channel<TrackingEvent>> := [Channel([], false), Channel([], false)];
    assert Reached(subs, 1, DoneAfterOne, 1) == 1;
    assert Reached(subs, 1, DoneAfterOne, 0) == 1;
    var subs' := Published(subs, 1, e, DoneAfterOne);
    assert subs'[0].queue == [e];
    assert subs' == [subs'[0], subs'[1]];
  }
}
