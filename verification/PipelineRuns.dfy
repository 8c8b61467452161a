/** What the whole in-memory system guarantees in every reachable state: conservation of
    events and counters, CRM safety, provenance of stored data. */
module PipelineRuns {
  import opened Events
  import opened Contacts
  import opened Pipeline
  import opened PipelineInv
  import Consent
  import B = Bus
  import BusRuns
  import Sets

  ghost predicate Reachable(bufferSize: int, acts: seq<Action>, s: State) {
    Runs(Initial(bufferSize), acts) && s == Exec(Initial(bufferSize), acts)
  }

  lemma ReachableIsSound(bufferSize: int, acts: seq<Action>, s: State)
    requires Reachable(bufferSize, acts, s)
    ensures Inv(s)
  {
    InitialInv(bufferSize);
    InvAlways(Initial(bufferSize), acts);
  }

  // -------------------------------------------------------------- conservation

  /** The raw calls of a status that went past subscriber `k`, and those that did not. */
  ghost function Past(t: B.Topic<TrackingEvent>, st: B.Status, k: nat): set<nat> {
    set i: nat | i < |t.calls| && t.calls[i].status == st && k < t.calls[i].next
  }

  ghost function Short(t: B.Topic<TrackingEvent>, st: B.Status, k: nat): set<nat> {
    set i: nat | i < |t.calls| && t.calls[i].status == st && !(k < t.calls[i].next)
  }

  ghost function WithStatus(t: B.Topic<TrackingEvent>, st: B.Status): set<nat> {
    set i: nat | i < |t.calls| && t.calls[i].status == st
  }

  /** Accepted calls whose handler has not counted them yet. */
  ghost function Uncounted(s: State): set<nat> {
    WithStatus(s.bus.raw, B.Accepted) - s.counted
  }

  lemma {:induction false} DistinctCount(xs: seq<nat>, members: set<nat>)
    requires B.Distinct(xs) && forall j :: j in xs <==> j in members
    ensures |xs| == |members|
  {
    if xs == [] {
      assert members == {};
    } else {
      var n := |xs| - 1;
      forall j ensures j in xs[..n] <==> j in members - {xs[n]} {
      }
      DistinctCount(xs[..n], members - {xs[n]});
    }
  }

  lemma OfferedOrNot(t: B.Topic<TrackingEvent>, cap: nat, k: nat, j: nat)
    requires B.TopicInv(t, cap) && k < |t.subs|
    ensures j in t.subs[k].offered <==>
              j in Past(t, B.Accepted, k) + Past(t, B.Active, k) + Past(t, B.Cancelled, k)
    ensures j in Short(t, B.Accepted, k) ==> t.calls[j].width <= k
  {
    assert B.OfferedExactly(t, k);
    if j < |t.calls| {
      assert B.CallInv(t, j);
    }
  }

  /** Past subscriber `k` went the accepted calls it was there for, some still running, and
      some cancelled further on; nothing else was offered to it. */
  lemma OfferedByOutcome(t: B.Topic<TrackingEvent>, cap: nat, k: nat)
    requires B.TopicInv(t, cap) && k < |t.subs|
    ensures |t.subs[k].offered| == |Past(t, B.Accepted, k)| + |Past(t, B.Active, k)| + |Past(t, B.Cancelled, k)|
    ensures |WithStatus(t, B.Accepted)| == |Past(t, B.Accepted, k)| + |Short(t, B.Accepted, k)|
    ensures forall i :: i in Short(t, B.Accepted, k) ==> t.calls[i].width <= k
  {
    var a, r, c := Past(t, B.Accepted, k), Past(t, B.Active, k), Past(t, B.Cancelled, k);
    assert WithStatus(t, B.Accepted) == a + Short(t, B.Accepted, k);
    assert a !! r && (a + r) !! c && a !! Short(t, B.Accepted, k);
    forall j: nat
      ensures j in t.subs[k].offered <==> j in a + r + c
      ensures j in Short(t, B.Accepted, k) ==> t.calls[j].width <= k
    {
      OfferedOrNot(t, cap, k, j);
    }
    assert B.SubInv(t.subs[k], cap);
    hide B.TopicInv, Past, Short, WithStatus;
    DistinctCount(t.subs[k].offered, a + r + c);
  }

  lemma ProcessedAreTheCounted(w: FraudWorker)
    requires 0 <= CountedN(w) <= |w.log|
    ensures |Verdicts(w, false)| + |Verdicts(w, true)| == CountedN(w)
  {
    Sets.Interval(0, CountedN(w), Verdicts(w, false) + Verdicts(w, true));
  }

  /** The event in the fraud worker's hand, taken but not yet in a verdict counter. */
  function InHandUncounted(w: FraudWorker): int {
    |w.log| - CountedN(w)
  }

  /** Every accepted raw event is lost before the fraud worker subscribed, dropped on a full
      buffer, queued, in the worker's hand, or in exactly one verdict counter. Calls still
      running past the worker's channel, or cancelled after it, account for the difference;
      and the ingest counter is the rejections plus the accepted calls already counted. */
  lemma Conservation(s: State)
    requires Inv(s) && s.fraud.seat.Seat?
    ensures var k, t := s.fraud.seat.k, s.bus.raw;
            && |WithStatus(t, B.Accepted)| + |Past(t, B.Active, k)| + |Past(t, B.Cancelled, k)|
                 == |Short(t, B.Accepted, k)| + |t.subs[k].dropped| + |t.subs[k].queue|
                    + InHandUncounted(s.fraud) + s.meters.legitimate + s.meters.fraudulent
            && s.meters.total == s.rejected + |s.counted|
            && |WithStatus(t, B.Accepted)| == |s.counted| + |Uncounted(s)|
  {
    var k, t := s.fraud.seat.k, s.bus.raw;
    assert k < |t.subs| && |t.subs[k].received| == |s.fraud.log| && TallyInv(s.fraud, s.meters);
    CountedAreAccepted(s);
    OfferedByOutcome(t, s.bus.cap, k);
    hide Inv, Past, Short, WithStatus, Verdicts;
    BusRuns.Delivery(t, s.bus.cap, k);
    ProcessedAreTheCounted(s.fraud);
  }

  lemma CountedAreAccepted(s: State)
    requires IngestInv(s)
    ensures s.counted <= WithStatus(s.bus.raw, B.Accepted)
    ensures |WithStatus(s.bus.raw, B.Accepted)| == |s.counted| + |Uncounted(s)|
  {
    assert WithStatus(s.bus.raw, B.Accepted) == s.counted + Uncounted(s);
  }

  /** The verdict counters run ahead of the ingest counter by at most the publish calls that
      have passed the worker's channel and whose handler has not counted them. */
  lemma VerdictsAheadOfIngest(s: State)
    requires Inv(s) && s.fraud.seat.Seat?
    ensures s.meters.legitimate + s.meters.fraudulent
              <= s.meters.total + |Uncounted(s)| + |Past(s.bus.raw, B.Active, s.fraud.seat.k)|
                 + |Past(s.bus.raw, B.Cancelled, s.fraud.seat.k)|
  {
    Conservation(s);
  }

  /** So the dashboard's verdicts are within what it says was received exactly when as many
      events are lost, dropped, queued, in hand or rejected as have been delivered without
      being counted yet. `Overtaking` has a run where they are not. */
  lemma VerdictsWithinIngestExactly(s: State)
    requires Inv(s) && s.fraud.seat.Seat?
    ensures var k, t := s.fraud.seat.k, s.bus.raw;
            s.meters.legitimate + s.meters.fraudulent <= s.meters.total <==>
              |Uncounted(s)| + |Past(t, B.Active, k)| + |Past(t, B.Cancelled, k)|
              <= |Short(t, B.Accepted, k)| + |t.subs[k].dropped| + |t.subs[k].queue|
                 + InHandUncounted(s.fraud) + s.rejected
  {
    Conservation(s);
  }

  /** With the fraud worker as the only raw subscriber a cancelled call has offered nothing. */
  lemma SoleSubscriberSeesNoCancelledCall(s: State)
    requires Inv(s) && s.fraud.seat == Seat(0) && |s.bus.raw.subs| == 1
    ensures Past(s.bus.raw, B.Cancelled, 0) == {}
  {
    forall i: nat | i < |s.bus.raw.calls| ensures i !in Past(s.bus.raw, B.Cancelled, 0) {
      assert B.CallInv(s.bus.raw, i);
    }
  }

  /** Once every ingest handler has finished, the counters agree: what was received and not
      rejected is in a verdict counter, in the worker's hand, queued, dropped, or missed by a
      late subscription. So no verdict is counted for an event that is not. */
  lemma QuietCountersAgree(s: State)
    requires Inv(s) && s.fraud.seat == Seat(0) && |s.bus.raw.subs| == 1
    requires Uncounted(s) == {} && WithStatus(s.bus.raw, B.Active) == {}
    ensures var sub := s.bus.raw.subs[0];
            s.meters.legitimate + s.meters.fraudulent + InHandUncounted(s.fraud) + |sub.queue| + |sub.dropped|
            + |Short(s.bus.raw, B.Accepted, 0)| == s.meters.total - s.rejected
    ensures s.meters.legitimate + s.meters.fraudulent <= s.meters.total - s.rejected
  {
    Conservation(s);
    SoleSubscriberSeesNoCancelledCall(s);
    assert Past(s.bus.raw, B.Active, 0) <= WithStatus(s.bus.raw, B.Active);
    assert Past(s.bus.raw, B.Active, 0) == {};
  }

  // ------------------------------------------------------------------ provenance

  lemma {:induction false} ItemBelongs(log: seq<Item>, n: nat, user: string, x: nat)
    requires n <= |log|
    ensures x in ItemsOf(log, n, user) <==> x < n && log[x].verdict.event.userId == user
    decreases n
  {
    if n > 0 {
      ItemBelongs(log, n - 1, user, x);
    }
  }

  /** Everything stored for a user came in through HandleIngest: complete, with consent where
      consent is needed, with its address masked, and under the user's own name. */
  lemma StoredEventsAreClean(s: State, user: string, i: nat)
    requires Inv(s) && i < |EventsOf(s.store, user)|
    ensures var item := EventsOf(s.store, user)[i].item;
            && item < |s.fraud.log| && Clean(s.fraud.log[item].verdict.event)
            && var e := s.fraud.log[item].verdict.event;
               && e.userId == user && e.eventId != "" && e.userId != "" && e.eventType != ""
               && (e.consent || e.eventType !in {"click", "view_item"})
               && Consent.WellFormed(e.ip) && e.ip == Consent.Masked(e.ip)
  {
    assert EventsInv(s, user);
    StoredItemsBelong(s, user, i);
    LoggedEventsAreClean(s, EventsOf(s.store, user)[i].item);
    CleanMeans(s.fraud.log[EventsOf(s.store, user)[i].item].verdict.event);
    hide Inv, EventsInv, Clean;
  }

  lemma CleanMeans(e: TrackingEvent)
    requires Clean(e)
    ensures e.eventId != "" && e.userId != "" && e.eventType != ""
    ensures e.consent || e.eventType !in {"click", "view_item"}
    ensures Consent.WellFormed(e.ip) && e.ip == Consent.Masked(e.ip)
  {
    Consent.ConsentByType(e.eventType, e.consent);
  }

  lemma StoredItemsBelong(s: State, user: string, i: nat)
    requires EventsInv(s, user) && i < |EventsOf(s.store, user)|
    ensures var item := EventsOf(s.store, user)[i].item;
            item < |s.fraud.log| && s.fraud.log[item].verdict.event.userId == user
  {
    var n := SavedN(s.fraud);
    var all, es := ItemsOf(s.fraud.log, n, user), EventsOf(s.store, user);
    assert Items(es)[i] == es[i].item && Items(es)[i] in all;
    ItemBelongs(s.fraud.log, n, user, es[i].item);
  }

  lemma LoggedEventsAreClean(s: State, x: nat)
    requires FraudInv(s) && IngestInv(s) && x < |s.fraud.log|
    ensures Clean(s.fraud.log[x].verdict.event)
  {
    hide Clean;
    assert Clean(s.bus.raw.calls[s.fraud.log[x].call].event);
  }

  /** A user nobody has purged has every event the worker saved, once, in order. */
  lemma UnpurgedUsersLoseNothing(s: State, user: string)
    requires Inv(s) && Wiped(s.store, user) == 0
    ensures Items(EventsOf(s.store, user)) == ItemsOf(s.fraud.log, SavedN(s.fraud), user)
  {
    assert EventsInv(s, user);
    var all := ItemsOf(s.fraud.log, SavedN(s.fraud), user);
    assert all[0..] == all;
  }

  /** After a purge's delete steps, whatever is stored for the user was stored later. */
  lemma StoredAfterThePurge(s: State, i: nat)
    requires Inv(s) && i < |s.purges|
    ensures var p := s.purges[i];
            && (p.stage != Asked ==>
                forall j :: 0 <= j < |EventsOf(s.store, p.user)| ==> p.eventsAt <= EventsOf(s.store, p.user)[j].at)
            && (p.stage == Purged && p.user in s.store.contacts ==> p.contactAt <= s.store.contacts[p.user].at)
  {
    assert PurgeInv(s, i);
  }

  // ------------------------------------------------------------------ CRM safety

  lemma AttemptedAreDue(s: State, j: nat)
    requires Inv(s) && j in s.crm.attempted
    ensures j < |s.bus.screened.calls| && j < |s.fraud.log| && s.bus.screened.calls[j].event == s.fraud.log[j].verdict
    ensures Qualifies(s.fraud.log[j].verdict) && j in Verdicts(s.fraud, false)
    ensures !s.fraud.log[j].verdict.fraudulent
    ensures s.fraud.log[j].verdict.event.eventType in {"signup", "checkout_completed", "cart_abandoned"}
  {
    hide Workflow, B.Inv, LogInv, TallyInv, IngestInv, StoreInv, ContactInv, PurgesInv;
    assert j in Qualified(s.crm, s.bus.screened);
    WorkflowsByType(s.fraud.log[j].verdict.event.eventType);
  }

  /** Only clean signup, checkout and cart events are ever attempted; every attempt is a
      legitimate verdict already counted, and is a success, a failure, or the one in hand. */
  lemma CrmSafety(s: State)
    requires Inv(s)
    ensures forall j :: j in s.crm.attempted ==>
              && j < |s.bus.screened.calls| && j < |s.fraud.log|
              && s.bus.screened.calls[j].event == s.fraud.log[j].verdict
              && Qualifies(s.fraud.log[j].verdict) && !s.fraud.log[j].verdict.fraudulent
              && s.fraud.log[j].verdict.event.eventType in {"signup", "checkout_completed", "cart_abandoned"}
              && j in Verdicts(s.fraud, false)
    ensures var inHand := if s.crm.stage.Syncing? || s.crm.stage.Settling? then 1 else 0;
            s.meters.attempts == s.meters.successes + s.meters.failures + inHand
    ensures s.meters.attempts <= s.meters.legitimate
  {
    forall j | j in s.crm.attempted
      ensures j < |s.bus.screened.calls| && j < |s.fraud.log| && s.bus.screened.calls[j].event == s.fraud.log[j].verdict
      ensures Qualifies(s.fraud.log[j].verdict) && j in Verdicts(s.fraud, false)
      ensures !s.fraud.log[j].verdict.fraudulent
      ensures s.fraud.log[j].verdict.event.eventType in {"signup", "checkout_completed", "cart_abandoned"}
    {
      AttemptedAreDue(s, j);
    }
    hide Inv, Qualifies;
    Sets.Smaller(s.crm.attempted, Verdicts(s.fraud, false));
  }

  /** A stored contact is settled, never pending, and was built from an attempted event of
      that user. */
  lemma StoredContacts(s: State, user: string)
    requires Inv(s) && user in s.store.contacts
    ensures var f := s.store.contacts[user];
            && f.contact.userId == user && f.contact.status in {Synced, Failed}
            && f.call in s.crm.attempted && f.call < |s.fraud.log|
            && s.fraud.log[f.call].verdict.event.userId == user
            && f.contact.workflow == Workflow(s.fraud.log[f.call].verdict.event.eventType) != ""
            && f.contact.email == EmailOf(s.fraud.log[f.call].verdict.event)
  {
    CrmSafety(s);
    var f := s.store.contacts[user];
    assert ContactOk(f, user, s.crm.attempted, s.bus.screened.calls, s.clock);
    hide Workflow, EmailOf;
  }
}
