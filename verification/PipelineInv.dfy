/** The invariant of the pipeline, one part per component, and its preservation. */
module PipelineInv {
  import opened Events
  import opened Contacts
  import opened Pipeline
  import opened Telemetry
  import Consent
  import B = Bus
  import BusRuns

  // ------------------------------------------- what a broker step leaves alone

  /** Calls are only added, and keep their event and, once returned, their outcome. */
  ghost predicate CallsGrow<E>(t: B.Topic<E>, t': B.Topic<E>) {
    && |t.calls| <= |t'.calls|
    && forall i :: 0 <= i < |t.calls| ==>
         && t'.calls[i].event == t.calls[i].event
         && (t.calls[i].status != B.Active ==> t'.calls[i].status == t.calls[i].status)
  }

  /** Subscriber `k` has received what `t` says and nothing since. */
  ghost predicate Unread<E>(t: B.Topic<E>, t': B.Topic<E>, k: nat) {
    k < |t.subs| ==> k < |t'.subs| && t'.subs[k].received == t.subs[k].received
  }

  /** Subscriber `k` has received the head of its queue since. */
  ghost predicate ReadOne<E>(t: B.Topic<E>, t': B.Topic<E>, k: nat) {
    && k < |t.subs| && k < |t'.subs| && t.subs[k].queue != []
    && t'.subs[k].received == t.subs[k].received + [t.subs[k].queue[0]]
  }

  lemma TopicFrame<E>(t: B.Topic<E>, cap: nat, closed: bool, a: B.TopicAction<E>)
    requires B.TopicEnabled(t, cap, a)
    ensures var t' := B.ApplyTopic(t, cap, closed, a);
            && CallsGrow(t, t')
            && |t'.calls| == |t.calls| + (if a.Begin? then 1 else 0)
            && (a.Begin? ==> t'.calls[|t.calls|].event == a.event)
            && |t.subs| <= |t'.subs|
            && (a.Subscribe? ==> |t'.subs| == |t.subs| + 1 && t'.subs[|t.subs|] == B.EmptySub())
            && (forall k: nat :: a != B.Receive(k) ==> Unread(t, t', k))
            && (a.Receive? ==> ReadOne(t, t', a.sub))
  {
  }

  lemma ShutFrame<E>(t: B.Topic<E>, j: nat)
    requires j < |t.subs|
    ensures var t' := B.Shut(t, j);
            CallsGrow(t, t') && |t'.calls| == |t.calls| && |t.subs| <= |t'.subs| && forall k: nat :: Unread(t, t', k)
  {
  }

  type TheBus = B.Bus<TrackingEvent, ScreenedEvent>
  type BusAction = B.Action<TrackingEvent, ScreenedEvent>

  lemma BusFrame(b: TheBus, a: BusAction)
    requires B.Enabled(b, a)
    ensures var b' := B.Apply(b, a);
            && CallsGrow(b.raw, b'.raw) && CallsGrow(b.screened, b'.screened)
            && |b.raw.subs| <= |b'.raw.subs| && |b.screened.subs| <= |b'.screened.subs|
            && (!(a.Raw? && a.a.Begin?) ==> |b'.raw.calls| == |b.raw.calls|)
            && (!(a.Screened? && a.b.Begin?) ==> |b'.screened.calls| == |b.screened.calls|)
            && (forall k: nat :: a != B.Raw(B.Receive(k)) ==> Unread(b.raw, b'.raw, k))
            && (forall k: nat :: a != B.Screened(B.Receive(k)) ==> Unread(b.screened, b'.screened, k))
  {
    match a
    case Raw(x) => TopicFrame(b.raw, b.cap, b.closed, x);
    case Screened(x) => TopicFrame(b.screened, b.cap, b.closed, x);
    case CloseNext =>
      var k := b.closer.k;
      if k < |b.raw.subs| { ShutFrame(b.raw, k); } else { ShutFrame(b.screened, k - |b.raw.subs|); }
    case BeginClose =>
    case EndClose =>
  }

  // ------------------------------------------------------------ the fraud worker

  predicate InHand(st: FraudStage) {
    st in {Saving, Counting, Publishing, Sending}
  }

  /** How many of the taken events have been saved, counted, published. */
  function SavedN(w: FraudWorker): int {
    |w.log| - if w.stage == Saving then 1 else 0
  }

  function CountedN(w: FraudWorker): int {
    |w.log| - if w.stage == Saving || w.stage == Counting then 1 else 0
  }

  function PublishedN(w: FraudWorker): int {
    |w.log| - if w.stage == Saving || w.stage == Counting || w.stage == Publishing then 1 else 0
  }

  function Verdicts(w: FraudWorker, fraudulent: bool): set<nat> {
    set i: nat | i < |w.log| && i < CountedN(w) && w.log[i].verdict.fraudulent == fraudulent
  }

  /** The log is what the worker's channel delivered, in order, with verdicts on those events. */
  ghost predicate LogInv(w: FraudWorker, raw: B.Topic<TrackingEvent>) {
    && (w.seat == NoSeat ==> w.log == [] && w.stage in {Unsubscribed, Ended})
    && (w.stage == Unsubscribed ==> w.seat == NoSeat)
    && (InHand(w.stage) ==> w.log != [])
    && (w.seat.Seat? ==>
          && w.seat.k < |raw.subs|
          && |raw.subs[w.seat.k].received| == |w.log|
          && forall i :: 0 <= i < |w.log| ==> raw.subs[w.seat.k].received[i] == w.log[i].call)
    && (forall i :: 0 <= i < |w.log| ==>
          w.log[i].call < |raw.calls| && w.log[i].verdict.event == raw.calls[w.log[i].call].event)
  }

  /** Every taken event is published once, in order, after it was counted. */
  ghost predicate OutInv(w: FraudWorker, screened: B.Topic<ScreenedEvent>) {
    && |screened.calls| == PublishedN(w)
    && forall i :: 0 <= i < |screened.calls| ==> screened.calls[i].event == w.log[i].verdict
  }

  ghost predicate TallyInv(w: FraudWorker, m: Meters) {
    && m.legitimate == |Verdicts(w, false)|
    && m.fraudulent == |Verdicts(w, true)|
  }

  ghost predicate FraudInv(s: State) {
    LogInv(s.fraud, s.bus.raw) && OutInv(s.fraud, s.bus.screened) && TallyInv(s.fraud, s.meters)
  }

  // --------------------------------------------------------- the ingest handlers

  ghost predicate Clean(e: TrackingEvent) {
    Complete(e) && Consent.ConsentGiven(e.eventType, e.consent) && e.ip == Consent.Masked(e.ip)
  }

  ghost predicate IngestInv(s: State) {
    && (forall i :: i in s.counted ==> i < |s.bus.raw.calls| && s.bus.raw.calls[i].status == B.Accepted)
    && s.meters.total == s.rejected + |s.counted|
    && (forall i :: 0 <= i < |s.bus.raw.calls| ==> Clean(s.bus.raw.calls[i].event))
  }

  // -------------------------------------------------------- the marketing worker

  predicate CrmInHand(st: CrmStage) {
    st.Attempting? || st.Syncing? || st.Settling? || st.Storing?
  }

  /** The received screened calls that qualify for a sync. */
  ghost function Qualified(w: CrmWorker, screened: B.Topic<ScreenedEvent>): set<nat>
    requires w.seat.Seat? ==> w.seat.k < |screened.subs|
  {
    if w.seat == NoSeat then {} else
    set j: nat | j in screened.subs[w.seat.k].received && j < |screened.calls| && Qualifies(screened.calls[j].event)
  }

  ghost predicate CrmInv(w: CrmWorker, screened: B.Topic<ScreenedEvent>, m: Meters) {
    && (w.seat == NoSeat ==> w.stage in {Off, Stopped})
    && (w.stage == Off ==> w.seat == NoSeat)
    && (w.seat.Seat? ==>
          w.seat.k < |screened.subs| && forall j :: j in screened.subs[w.seat.k].received ==> j < |screened.calls|)
    && (CrmInHand(w.stage) ==> w.current in Qualified(w, screened))
    && w.attempted == Qualified(w, screened) - (if w.stage.Attempting? then {w.current} else {})
    && m.attempts == |w.attempted| && m.successes >= 0 && m.failures >= 0
    && m.attempts == m.successes + m.failures + (if w.stage.Syncing? || w.stage.Settling? then 1 else 0)
  }

  // ------------------------------------------------------------------- the store

  /** The items of the first `n` log entries that belong to `user`, in order. */
  function ItemsOf(log: seq<Item>, n: nat, user: string): seq<nat>
    requires n <= |log|
  {
    if n == 0 then [] else
    ItemsOf(log, n - 1, user) + if log[n - 1].verdict.event.userId == user then [n - 1] else []
  }

  function Items(es: seq<Saved>): seq<nat> {
    seq(|es|, i requires 0 <= i < |es| => es[i].item)
  }

  /** A user's stored events are the first `n` saved ones, in order, less a wiped prefix. */
  ghost predicate EventsOk(log: seq<Item>, n: nat, st: Store, clock: nat, user: string)
    requires n <= |log|
  {
    var all, gone, es := ItemsOf(log, n, user), Wiped(st, user), EventsOf(st, user);
    && gone <= |all|
    && Items(es) == all[gone..]
    && forall i :: 0 <= i < |es| ==> es[i].at < clock
  }

  ghost predicate EventsInv(s: State, user: string) {
    0 <= SavedN(s.fraud) <= |s.fraud.log| && EventsOk(s.fraud.log, SavedN(s.fraud), s.store, s.clock, user)
  }

  ghost predicate StoreInv(s: State) {
    forall user :: EventsInv(s, user)
  }

  /** A stored contact is the settled contact of an attempted, qualifying screened event. */
  ghost predicate ContactOk(f: Filed, user: string, attempted: set<nat>, calls: seq<B.Call<ScreenedEvent>>,
                            clock: nat) {
    && f.contact.userId == user && f.at < clock
    && f.call in attempted && f.call < |calls|
    && f.contact.status != Pending
    && f.contact == SettledContact(calls[f.call].event.event, f.contact.syncedAt, f.contact.status == Synced)
  }

  ghost predicate ContactInv(s: State) {
    forall user :: user in s.store.contacts ==>
      ContactOk(s.store.contacts[user], user, s.crm.attempted, s.bus.screened.calls, s.clock)
  }

  // ------------------------------------------------------------------ the purges

  ghost predicate PurgeInv(s: State, i: nat)
    requires i < |s.purges|
  {
    var p := s.purges[i];
    && p.eventsAt <= s.clock && p.contactAt <= s.clock
    && (p.stage != Asked ==>
          forall j :: 0 <= j < |EventsOf(s.store, p.user)| ==> EventsOf(s.store, p.user)[j].at >= p.eventsAt)
    && (p.stage == Purged && p.user in s.store.contacts ==> s.store.contacts[p.user].at >= p.contactAt)
  }

  ghost predicate PurgesInv(s: State) {
    forall i :: 0 <= i < |s.purges| ==> PurgeInv(s, i)
  }

  ghost predicate Inv(s: State) {
    && B.Inv(s.bus)
    && FraudInv(s) && IngestInv(s) && CrmInv(s.crm, s.bus.screened, s.meters)
    && StoreInv(s) && ContactInv(s) && PurgesInv(s)
  }

  lemma InitialInv(bufferSize: int)
    ensures Inv(Initial(bufferSize))
  {
    var s := Initial(bufferSize);
    assert Verdicts(s.fraud, false) == {} && Verdicts(s.fraud, true) == {};
    forall user ensures EventsInv(s, user) {
    }
  }

  // ---------------------------------------------------------------- preservation

  lemma BusStep(s: State, a: Action)
    requires B.Inv(s.bus) && Enabled(s, a)
    ensures B.Inv(Next(s, a).bus)
  {
    if BusPartOf(s, a).Part? {
      B.Step(s.bus, BusPartOf(s, a).a);
    }
  }

  /** What a step leaves of the broker as each worker sees it. */
  ghost predicate BusKept(s: State, a: Action, s': State) {
    && CallsGrow(s.bus.raw, s'.bus.raw) && CallsGrow(s.bus.screened, s'.bus.screened)
    && |s.bus.raw.subs| <= |s'.bus.raw.subs| && |s.bus.screened.subs| <= |s'.bus.screened.subs|
    && (!(a.Fraud? && a.f.Publish?) ==> |s'.bus.screened.calls| == |s.bus.screened.calls|)
    && (!(a.Ingest? && a.i.Accept?) ==> |s'.bus.raw.calls| == |s.bus.raw.calls|)
    && (s.fraud.seat.Seat? && !(a.Fraud? && a.f.TakeRaw?) ==> Unread(s.bus.raw, s'.bus.raw, s.fraud.seat.k))
    && (s.crm.seat.Seat? && !(a.Crm? && a.c.TakeScreened?) ==> Unread(s.bus.screened, s'.bus.screened, s.crm.seat.k))
  }

  lemma BusIsKept(s: State, a: Action)
    requires Enabled(s, a)
    ensures BusKept(s, a, Next(s, a))
  {
    if BusPartOf(s, a).Part? {
      BusFrame(s.bus, BusPartOf(s, a).a);
    }
  }

  /** Each group of actions keeps to its own fields. */
  lemma OwnWorkerOnly(s: State, a: Action)
    requires Enabled(s, a)
    ensures var s' := Next(s, a);
            && s'.clock == s.clock + 1
            && (!a.Fraud? ==> s'.fraud == s.fraud && s'.meters.legitimate == s.meters.legitimate
                              && s'.meters.fraudulent == s.meters.fraudulent)
            && (!a.Crm? ==> s'.crm == s.crm && s'.meters.attempts == s.meters.attempts
                            && s'.meters.successes == s.meters.successes && s'.meters.failures == s.meters.failures)
  {
  }

  lemma OwnHandlersOnly(s: State, a: Action)
    requires Enabled(s, a)
    ensures var s' := Next(s, a);
            && (!a.Ingest? ==> s'.counted == s.counted && s'.rejected == s.rejected
                               && s'.meters.total == s.meters.total)
            && (!a.Privacy? ==> s'.purges == s.purges && s'.exports == s.exports)
  {
  }

  lemma OwnStoreOnly(s: State, a: Action)
    requires Enabled(s, a) && !a.Privacy? && a != Fraud(Save) && a != Crm(File)
    ensures Next(s, a).store == s.store
  {
  }

  /** A worker's seat is fixed from its subscription on. */
  lemma SeatsAreFixed(s: State, a: Action)
    requires Enabled(s, a)
    ensures Next(s, a).bus == BusAfter(s, a)
    ensures Next(s, a).fraud.seat == s.fraud.seat
         || (BusPartOf(s, a) == Part(B.Raw(B.Subscribe)) && Next(s, a).fraud.seat == Seat(|s.bus.raw.subs|))
    ensures Next(s, a).crm.seat == s.crm.seat
         || (BusPartOf(s, a) == Part(B.Screened(B.Subscribe)) && Next(s, a).crm.seat == Seat(|s.bus.screened.subs|))
  {
    hide B.Apply, B.Enabled;
  }

  // The fraud worker.

  lemma LogCarriesOver(w: FraudWorker, raw: B.Topic<TrackingEvent>, raw': B.Topic<TrackingEvent>)
    requires LogInv(w, raw) && CallsGrow(raw, raw') && (w.seat.Seat? ==> Unread(raw, raw', w.seat.k))
    ensures LogInv(w, raw')
  {
  }

  lemma SameVerdicts(w: FraudWorker, w': FraudWorker)
    requires CountedN(w) == CountedN(w') && CountedN(w) <= |w.log| && w.log <= w'.log
    ensures Verdicts(w', false) == Verdicts(w, false) && Verdicts(w', true) == Verdicts(w, true)
  {
  }

  lemma TakeKeepsLog(w: FraudWorker, raw: B.Topic<TrackingEvent>, raw': B.Topic<TrackingEvent>, v: ScreenedEvent)
    requires LogInv(w, raw) && w.seat.Seat? && CallsGrow(raw, raw') && ReadOne(raw, raw', w.seat.k)
    requires var head := raw.subs[w.seat.k].queue[0]; head < |raw.calls| && v.event == raw.calls[head].event
    ensures LogInv(w.(stage := Saving, log := w.log + [Item(raw.subs[w.seat.k].queue[0], v)]), raw')
  {
  }

  lemma TallyKeepsTally(w: FraudWorker, m: Meters)
    requires TallyInv(w, m) && w.stage == Counting && w.log != []
    ensures TallyInv(w.(stage := Publishing), Counted(m, w.log[|w.log| - 1].verdict.fraudulent))
  {
    var f := w.log[|w.log| - 1].verdict.fraudulent;
    VerdictsAfterTally(w, f);
    VerdictsAfterTally(w, !f);
    hide Verdicts;
  }

  lemma VerdictsAfterTally(w: FraudWorker, f: bool)
    requires w.stage == Counting && w.log != []
    ensures |w.log| - 1 !in Verdicts(w, f)
    ensures Verdicts(w.(stage := Publishing), f) ==
              Verdicts(w, f) + if w.log[|w.log| - 1].verdict.fraudulent == f then {|w.log| - 1} else {}
  {
  }

  lemma PublishKeepsOut(w: FraudWorker, screened: B.Topic<ScreenedEvent>, screened': B.Topic<ScreenedEvent>)
    requires OutInv(w, screened) && w.stage == Publishing && w.log != [] && CallsGrow(screened, screened')
    requires |screened'.calls| == |screened.calls| + 1
    requires screened'.calls[|screened.calls|].event == w.log[|w.log| - 1].verdict
    ensures OutInv(w.(stage := Sending), screened')
  {
  }

  lemma TakeKeepsFraudInv(s: State, v: ScreenedEvent)
    requires FraudInv(s) && Enabled(s, Fraud(TakeRaw(v))) && BusKept(s, Fraud(TakeRaw(v)), Next(s, Fraud(TakeRaw(v))))
    ensures FraudInv(Next(s, Fraud(TakeRaw(v))))
  {
    var w, s' := s.fraud, Next(s, Fraud(TakeRaw(v)));
    TopicFrame(s.bus.raw, s.bus.cap, s.bus.closed, B.Receive(w.seat.k));
    TakeKeepsLog(w, s.bus.raw, s'.bus.raw, v);
    SameVerdicts(w, s'.fraud);
  }

  lemma PublishKeepsFraudInv(s: State)
    requires FraudInv(s) && Enabled(s, Fraud(Publish)) && BusKept(s, Fraud(Publish), Next(s, Fraud(Publish)))
    ensures FraudInv(Next(s, Fraud(Publish)))
  {
    var w, s' := s.fraud, Next(s, Fraud(Publish));
    TopicFrame(s.bus.screened, s.bus.cap, s.bus.closed, B.Begin(Hand(s).verdict));
    PublishKeepsOut(w, s.bus.screened, s'.bus.screened);
    SameVerdicts(w, s'.fraud);
  }

  lemma JoinKeepsFraudInv(s: State)
    requires FraudInv(s) && Enabled(s, Fraud(SubscribeRaw))
    requires BusKept(s, Fraud(SubscribeRaw), Next(s, Fraud(SubscribeRaw)))
    ensures FraudInv(Next(s, Fraud(SubscribeRaw)))
  {
    if !s.bus.closed {
      TopicFrame(s.bus.raw, s.bus.cap, s.bus.closed, B.Subscribe);
    }
    SameVerdicts(s.fraud, Next(s, Fraud(SubscribeRaw)).fraud);
  }

  lemma TallyKeepsFraudInv(s: State)
    requires FraudInv(s) && Enabled(s, Fraud(Tally))
    ensures FraudInv(Next(s, Fraud(Tally)))
  {
    var s' := Next(s, Fraud(Tally));
    TallyKeepsTally(s.fraud, s.meters);
    assert s'.fraud == s.fraud.(stage := Publishing) && s'.meters == Counted(s.meters, Hand(s).verdict.fraudulent);
    assert s'.bus == s.bus;
    hide TallyInv, Next, Enabled, Verdicts;
  }

  lemma OutCarriesOver(w: FraudWorker, w': FraudWorker, t: B.Topic<ScreenedEvent>, t': B.Topic<ScreenedEvent>)
    requires OutInv(w, t) && w'.log == w.log && PublishedN(w') == PublishedN(w)
    requires CallsGrow(t, t') && |t'.calls| == |t.calls|
    ensures OutInv(w', t')
  {
  }

  /** Save, MoveScreened, Release and EndFraud only move the stage on. */
  lemma StageOnly(s: State, f: FraudAction)
    requires Enabled(s, Fraud(f)) && (f.Save? || f.MoveScreened? || f.Release? || f.EndFraud?)
    ensures var w, w' := s.fraud, Next(s, Fraud(f)).fraud;
            && w' == w.(stage := w'.stage) && Next(s, Fraud(f)).meters == s.meters
            && PublishedN(w') == PublishedN(w) && CountedN(w') == CountedN(w)
            && w.stage != Unsubscribed && w'.stage != Unsubscribed
            && (InHand(w'.stage) ==> InHand(w.stage)) && (w.stage == Ended ==> w'.stage == Ended)
  {
    hide B.Apply, B.Enabled;
  }

  lemma StageKeepsFraudInv(s: State, f: FraudAction)
    requires FraudInv(s) && Enabled(s, Fraud(f)) && BusKept(s, Fraud(f), Next(s, Fraud(f)))
    requires f.Save? || f.MoveScreened? || f.Release? || f.EndFraud?
    ensures FraudInv(Next(s, Fraud(f)))
  {
    StageOnly(s, f);
    hide Next, Enabled, BusPartOf;
    var s' := Next(s, Fraud(f));
    LogCarriesOver(s.fraud, s.bus.raw, s'.bus.raw);
    OutCarriesOver(s.fraud, s'.fraud, s.bus.screened, s'.bus.screened);
    SameVerdicts(s.fraud, s'.fraud);
    hide Verdicts, OutInv, CallsGrow;
  }

  lemma OwnStepKeepsFraudInv(s: State, f: FraudAction)
    requires FraudInv(s) && Enabled(s, Fraud(f)) && BusKept(s, Fraud(f), Next(s, Fraud(f)))
    ensures FraudInv(Next(s, Fraud(f)))
  {
    hide FraudInv, BusKept, Next, BusPartOf;
    match f {
      case TakeRaw(v) => TakeKeepsFraudInv(s, v);
      case Publish => PublishKeepsFraudInv(s);
      case Tally => TallyKeepsFraudInv(s);
      case SubscribeRaw => JoinKeepsFraudInv(s);
      case _ => StageKeepsFraudInv(s, f);
    }
  }

  lemma OthersKeepFraudInv(s: State, a: Action)
    requires FraudInv(s) && Enabled(s, a) && !a.Fraud? && BusKept(s, a, Next(s, a))
    ensures FraudInv(Next(s, a))
  {
    OwnWorkerOnly(s, a);
    LogCarriesOver(s.fraud, s.bus.raw, Next(s, a).bus.raw);
  }

  // The ingest handlers.

  lemma AnonymisedIsClean(e: TrackingEvent)
    requires Complete(e) && Consent.ConsentGiven(e.eventType, e.consent)
    ensures Clean(Anonymised(e))
  {
    Consent.MaskKeepsExactlyTheNetwork(e.ip, e.ip);
  }

  lemma AcceptKeepsIngestInv(s: State, e: TrackingEvent)
    requires IngestInv(s) && Enabled(s, Ingest(Accept(e)))
    ensures IngestInv(Next(s, Ingest(Accept(e))))
  {
    TopicFrame(s.bus.raw, s.bus.cap, s.bus.closed, B.Begin(Anonymised(e)));
    AnonymisedIsClean(e);
    hide Clean, Anonymised;
  }

  lemma StepKeepsIngestInv(s: State, a: Action)
    requires IngestInv(s) && Enabled(s, a) && BusKept(s, a, Next(s, a)) && !(a.Ingest? && a.i.Accept?)
    ensures IngestInv(Next(s, a))
  {
    hide Clean, Anonymised;
    OwnHandlersOnly(s, a);
  }

  // The marketing worker.

  lemma QualifiedCarriesOver(w: CrmWorker, t: B.Topic<ScreenedEvent>, t': B.Topic<ScreenedEvent>, m: Meters)
    requires CrmInv(w, t, m) && CallsGrow(t, t') && (w.seat.Seat? ==> Unread(t, t', w.seat.k))
    ensures CrmInv(w, t', m)
  {
    assert Qualified(w, t') == Qualified(w, t);
  }

  lemma HeadIsNew(t: B.Topic<ScreenedEvent>, cap: nat, k: nat)
    requires B.TopicInv(t, cap) && k < |t.subs| && t.subs[k].queue != []
    ensures t.subs[k].queue[0] !in t.subs[k].received
  {
    var s := t.subs[k];
    BusRuns.Delivery(t, cap, k);
    assert (s.received + s.queue)[|s.received|] == s.queue[0];
    forall i | 0 <= i < |s.received| ensures s.received[i] != s.queue[0] {
      assert (s.received + s.queue)[i] == s.received[i];
    }
  }

  lemma TakeKeepsCrmInv(w: CrmWorker, t: B.Topic<ScreenedEvent>, t': B.Topic<ScreenedEvent>, m: Meters, at: int)
    requires CrmInv(w, t, m) && w.stage == Idle && w.seat.Seat?
    requires t.subs[w.seat.k].queue != [] && t.subs[w.seat.k].queue[0] !in t.subs[w.seat.k].received
    requires CallsGrow(t, t') && ReadOne(t, t', w.seat.k) && t.subs[w.seat.k].queue[0] < |t.calls|
    ensures var head := t.subs[w.seat.k].queue[0];
            if Qualifies(t.calls[head].event)
            then CrmInv(w.(stage := Attempting, current := head, stamp := at), t', m)
            else CrmInv(w, t', m)
  {
    hide Qualifies;
    var head := t.subs[w.seat.k].queue[0];
    assert head in t'.subs[w.seat.k].received;
    if Qualifies(t.calls[head].event) {
      assert Qualified(w, t') == Qualified(w, t) + {head};
    } else {
      assert Qualified(w, t') == Qualified(w, t);
    }
  }

  lemma AttemptKeepsCrmInv(w: CrmWorker, t: B.Topic<ScreenedEvent>, m: Meters)
    requires CrmInv(w, t, m) && w.stage == Attempting
    ensures CrmInv(w.(stage := Syncing, attempted := w.attempted + {w.current}), t, m.(attempts := m.attempts + 1))
  {
    assert w.current !in w.attempted;
  }

  lemma TakeScreenedKeepsCrmInv(s: State, at: int)
    requires CrmInv(s.crm, s.bus.screened, s.meters) && B.TopicInv(s.bus.screened, s.bus.cap)
    requires Enabled(s, Crm(TakeScreened(at)))
    ensures var s' := Next(s, Crm(TakeScreened(at))); CrmInv(s'.crm, s'.bus.screened, s'.meters)
  {
    TopicFrame(s.bus.screened, s.bus.cap, s.bus.closed, B.Receive(s.crm.seat.k));
    HeadIsNew(s.bus.screened, s.bus.cap, s.crm.seat.k);
    TakeKeepsCrmInv(s.crm, s.bus.screened, Next(s, Crm(TakeScreened(at))).bus.screened, s.meters, at);
  }

  lemma JoinKeepsCrmInv(s: State)
    requires CrmInv(s.crm, s.bus.screened, s.meters) && Enabled(s, Crm(SubscribeScreened))
    ensures var s' := Next(s, Crm(SubscribeScreened)); CrmInv(s'.crm, s'.bus.screened, s'.meters)
  {
    hide Qualifies;
    if !s.bus.closed {
      TopicFrame(s.bus.screened, s.bus.cap, s.bus.closed, B.Subscribe);
    }
  }

  lemma AttemptStepKeepsCrmInv(s: State)
    requires CrmInv(s.crm, s.bus.screened, s.meters) && Enabled(s, Crm(Attempt))
    ensures var s' := Next(s, Crm(Attempt)); CrmInv(s'.crm, s'.bus.screened, s'.meters)
  {
    AttemptKeepsCrmInv(s.crm, s.bus.screened, s.meters);
    hide CrmInv;
  }

  /** Sync, Settle, File and EndCrm only move the stage and the outcome meters on. */
  lemma StageKeepsCrmInv(s: State, c: CrmAction)
    requires CrmInv(s.crm, s.bus.screened, s.meters) && (c.Sync? || c.Settle? || c.File? || c.EndCrm?)
    requires Enabled(s, Crm(c))
    ensures var s' := Next(s, Crm(c)); CrmInv(s'.crm, s'.bus.screened, s'.meters)
  {
    hide Qualifies, SettledContact;
    assert Qualified(Next(s, Crm(c)).crm, s.bus.screened) == Qualified(s.crm, s.bus.screened);
    hide Qualified;
  }

  lemma OwnStepKeepsCrmInv(s: State, c: CrmAction)
    requires CrmInv(s.crm, s.bus.screened, s.meters) && B.TopicInv(s.bus.screened, s.bus.cap)
    requires Enabled(s, Crm(c))
    ensures var s' := Next(s, Crm(c)); CrmInv(s'.crm, s'.bus.screened, s'.meters)
  {
    hide CrmInv, Next, B.TopicInv;
    match c {
      case TakeScreened(at) => TakeScreenedKeepsCrmInv(s, at);
      case SubscribeScreened => JoinKeepsCrmInv(s);
      case Attempt => AttemptStepKeepsCrmInv(s);
      case _ => StageKeepsCrmInv(s, c);
    }
  }

  lemma OthersKeepCrmInv(s: State, a: Action)
    requires CrmInv(s.crm, s.bus.screened, s.meters) && Enabled(s, a) && !a.Crm? && BusKept(s, a, Next(s, a))
    ensures var s' := Next(s, a); CrmInv(s'.crm, s'.bus.screened, s'.meters)
  {
    OwnWorkerOnly(s, a);
    QualifiedCarriesOver(s.crm, s.bus.screened, Next(s, a).bus.screened, s.meters);
  }

  // The stores.

  lemma {:induction false} ItemsOfPrefix(log: seq<Item>, more: seq<Item>, n: nat, user: string)
    requires n <= |log| && log <= more
    ensures ItemsOf(more, n, user) == ItemsOf(log, n, user)
    decreases n
  {
    if n > 0 {
      ItemsOfPrefix(log, more, n - 1, user);
    }
  }

  /** The parts of the state that the event store's invariant reads are as they were. */
  lemma EventsCarryOver(s: State, s': State, user: string)
    requires EventsInv(s, user)
    requires SavedN(s'.fraud) == SavedN(s.fraud) && s.fraud.log <= s'.fraud.log && s.clock <= s'.clock
    requires EventsOf(s'.store, user) == EventsOf(s.store, user) && Wiped(s'.store, user) == Wiped(s.store, user)
    ensures EventsInv(s', user)
  {
    ItemsOfPrefix(s.fraud.log, s'.fraud.log, SavedN(s.fraud), user);
  }

  lemma SaveKeepsEvents(log: seq<Item>, n: nat, st: Store, clock: nat, user: string)
    requires n < |log| && EventsOk(log, n, st, clock, user)
    ensures EventsOk(log, n + 1, WithEvent(st, log[n].verdict.event.userId, Saved(n, clock)), clock + 1, user)
  {
    var all, gone, es := ItemsOf(log, n, user), Wiped(st, user), EventsOf(st, user);
    var owner, e := log[n].verdict.event.userId, Saved(n, clock);
    assert ItemsOf(log, n + 1, user) == all + if owner == user then [n] else [];
    WithEventFacts(st, owner, e, user);
    hide ItemsOf, Items, WithEvent, EventsOf, Wiped;
    if owner == user {
      SliceGrows(all, gone, es, e);
    } else {
      assert all + [] == all && es + [] == es;
    }
  }

  lemma WithEventFacts(st: Store, owner: string, e: Saved, user: string)
    ensures EventsOf(WithEvent(st, owner, e), user) == EventsOf(st, user) + if owner == user then [e] else []
    ensures Wiped(WithEvent(st, owner, e), user) == Wiped(st, user)
  {
    assert EventsOf(st, user) + [] == EventsOf(st, user);
  }

  lemma SliceGrows(all: seq<nat>, gone: nat, es: seq<Saved>, e: Saved)
    requires gone <= |all| && Items(es) == all[gone..]
    ensures Items(es + [e]) == (all + [e.item])[gone..]
  {
    assert (all + [e.item])[gone..] == all[gone..] + [e.item];
    assert Items(es + [e]) == Items(es) + [e.item];
  }

  lemma WipeKeepsEvents(log: seq<Item>, n: nat, st: Store, clock: nat, wiped: string, user: string)
    requires n <= |log| && EventsOk(log, n, st, clock, user)
    ensures EventsOk(log, n, WithoutEvents(st, wiped), clock + 1, user)
  {
    assert |Items(EventsOf(st, user))| == |ItemsOf(log, n, user)[Wiped(st, user)..]|;
  }

  lemma StepKeepsEventsInv(s: State, a: Action, user: string)
    requires EventsInv(s, user) && Enabled(s, a)
    ensures EventsInv(Next(s, a), user)
  {
    hide EventsOk, ItemsOf, Items;
    var s' := Next(s, a);
    match a {
      case Fraud(Save) => SaveKeepsEvents(s.fraud.log, |s.fraud.log| - 1, s.store, s.clock, user);
      case Privacy(WipeEvents(i)) =>
        WipeKeepsEvents(s.fraud.log, SavedN(s.fraud), s.store, s.clock, s.purges[i].user, user);
      case Fraud(_) => EventsCarryOver(s, s', user);
      case Privacy(_) => EventsCarryOver(s, s', user);
      case _ =>
        OwnWorkerOnly(s, a);
        EventsCarryOver(s, s', user);
    }
  }

  lemma StepKeepsStoreInv(s: State, a: Action)
    requires StoreInv(s) && Enabled(s, a)
    ensures StoreInv(Next(s, a))
  {
    hide EventsInv, Next;
    forall user ensures EventsInv(Next(s, a), user) {
      StepKeepsEventsInv(s, a, user);
    }
  }

  lemma FileKeepsContactInv(s: State)
    requires ContactInv(s) && CrmInv(s.crm, s.bus.screened, s.meters) && Enabled(s, Crm(File))
    ensures ContactInv(Next(s, Crm(File)))
  {
    hide Workflow, EmailOf, Qualifies;
  }

  lemma ContactsOnlyGo(s: State, a: Action)
    requires Enabled(s, a) && a != Crm(File)
    ensures var c, c' := s.store.contacts, Next(s, a).store.contacts;
            forall user :: user in c' ==> user in c && c'[user] == c[user]
    ensures s.crm.attempted <= Next(s, a).crm.attempted
  {
    match a {
      case Fraud(Save) =>
      case Privacy(_) =>
      case _ => OwnStoreOnly(s, a);
    }
  }

  lemma StepKeepsContactInv(s: State, a: Action)
    requires ContactInv(s) && Enabled(s, a) && BusKept(s, a, Next(s, a)) && a != Crm(File)
    ensures ContactInv(Next(s, a))
  {
    ContactsOnlyGo(s, a);
    OwnWorkerOnly(s, a);
    hide SettledContact, Next;
  }

  // The purges.

  /** Later saves only make the stored records younger. */
  ghost predicate StoreGrows(s: State, s': State, user: string) {
    && s.clock <= s'.clock
    && (forall j :: 0 <= j < |EventsOf(s'.store, user)| ==>
          (j < |EventsOf(s.store, user)| && EventsOf(s'.store, user)[j] == EventsOf(s.store, user)[j])
          || EventsOf(s'.store, user)[j].at >= s.clock)
    && (user in s'.store.contacts ==>
          (user in s.store.contacts && s'.store.contacts[user] == s.store.contacts[user])
          || s'.store.contacts[user].at >= s.clock)
  }

  lemma StoreOnlyGrowsYounger(s: State, a: Action, user: string)
    requires Enabled(s, a)
    ensures StoreGrows(s, Next(s, a), user)
  {
    match a {
      case Fraud(Save) =>
      case Crm(File) =>
      case Privacy(_) =>
      case _ => OwnStoreOnly(s, a);
    }
  }

  lemma StepKeepsPurgeInv(s: State, a: Action, i: nat)
    requires PurgesInv(s) && Enabled(s, a) && i < |Next(s, a).purges|
    ensures PurgeInv(Next(s, a), i)
  {
    if i < |s.purges| {
      assert PurgeInv(s, i);
      StoreOnlyGrowsYounger(s, a, s.purges[i].user);
    }
    if !a.Privacy? {
      OwnHandlersOnly(s, a);
    }
  }

  // All together.

  lemma Step(s: State, a: Action)
    requires Inv(s) && Enabled(s, a)
    ensures Inv(Next(s, a))
  {
    hide FraudInv, IngestInv, CrmInv, StoreInv, ContactInv, PurgeInv, BusKept, Next, BusPartOf;
    BusStep(s, a);
    BusIsKept(s, a);
    if a.Fraud? { OwnStepKeepsFraudInv(s, a.f); } else { OthersKeepFraudInv(s, a); }
    match a {
      case Crm(c) => OwnStepKeepsCrmInv(s, c);
      case _ => OthersKeepCrmInv(s, a);
    }
    match a {
      case Ingest(Accept(e)) => AcceptKeepsIngestInv(s, e);
      case _ => StepKeepsIngestInv(s, a);
    }
    StepKeepsStoreInv(s, a);
    if a == Crm(File) { FileKeepsContactInv(s); } else { StepKeepsContactInv(s, a); }
    forall i | 0 <= i < |Next(s, a).purges| ensures PurgeInv(Next(s, a), i) {
      StepKeepsPurgeInv(s, a, i);
    }
  }

  lemma {:induction false} InvAlways(s: State, acts: seq<Action>)
    requires Inv(s) && Runs(s, acts)
    ensures Inv(Exec(s, acts))
    decreases |acts|
  {
    if acts != [] {
      Step(s, acts[0]);
      InvAlways(Next(s, acts[0]), acts[1..]);
    }
  }
}
