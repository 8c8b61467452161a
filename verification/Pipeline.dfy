/** The in-memory system as an interleaving state machine: ingest handlers, the broker, the
    fraud worker, the broker again, the marketing worker, with purges, exports and shutdown
    running beside them. Every access to shared state is a step of its own; what a goroutine
    computes on its own between two of them is part of the step that follows.

    The verdict of the fraud rules and the outcome of a CRM sync are arbitrary here, so what
    is proved holds for every rule set and every CRM. */
module Pipeline {
  import opened Events
  import opened Contacts
  import opened Telemetry
  import Consent
  import B = Bus

  // --------------------------------------------------------------------- state

  /** A worker's place in a subscriber list, once it has one. */
  datatype Seat = NoSeat | Seat(k: nat)

  datatype FraudStage = Unsubscribed | Waiting | Saving | Counting | Publishing | Sending | Ended

  /** An event the fraud worker took: the raw call that published it, and its verdict. */
  datatype Item = Item(call: nat, verdict: ScreenedEvent)

  /** `log` holds every event the worker has taken; in the stages from Saving to Sending the
      last of them is in hand. */
  datatype FraudWorker = FraudWorker(stage: FraudStage, seat: Seat, log: seq<Item>)

  datatype CrmStage = Off | Idle | Attempting | Syncing | Settling(ok: bool) | Storing(ok: bool) | Stopped

  /** `current` is the screened call in hand, `stamp` the contact's SyncedAt. `attempted`
      (history) holds the screened calls whose attempt has been counted. */
  datatype CrmWorker = CrmWorker(stage: CrmStage, seat: Seat, current: nat, stamp: int, attempted: set<nat>)

  /** A stored event points into the fraud worker's log; `at` is the step that saved it. */
  datatype Saved = Saved(item: nat, at: nat)

  /** A stored contact, the screened call it came from, and the step that saved it. */
  datatype Filed = Filed(contact: Contact, call: nat, at: nat)

  /** `wiped` (history) counts the saved events of a user that purges have removed. */
  datatype Store = Store(events: map<string, seq<Saved>>, contacts: map<string, Filed>, wiped: map<string, nat>)

  /** HandleGDPRDelete: the event store is wiped, the store's callback drops the contact, the
      handler drops it again. */
  datatype PurgeStage = Asked | EventsGone | CallbackDone | Purged

  datatype Purge = Purge(user: string, stage: PurgeStage, eventsAt: nat, contactAt: nat)

  /** HandleCCPAExport: two reads. */
  datatype ExportStage = Requested | EventsRead | Answered

  datatype Export = Export(user: string, stage: ExportStage, events: seq<Saved>, contact: seq<Contact>)

  /** `counted` (history) holds the accepted raw calls whose handler has counted them,
      `rejected` the number of handlers that counted a rejection. */
  datatype State = State(
    bus: B.Bus<TrackingEvent, ScreenedEvent>,
    counted: set<nat>, rejected: nat,
    fraud: FraudWorker, crm: CrmWorker,
    store: Store, meters: Meters,
    purges: seq<Purge>, exports: seq<Export>,
    cancelled: bool, clock: nat)

  function Initial(bufferSize: int): State {
    State(B.NewBus(bufferSize), {}, 0,
          FraudWorker(Unsubscribed, NoSeat, []), CrmWorker(Off, NoSeat, 0, 0, {}),
          Store(map[], map[], map[]), Meters(0, 0, 0, 0, 0, 0), [], [], false, 0)
  }

  // ------------------------------------------------------------------- actions

  /** What a running Publish call can do next. */
  datatype CallMove = Expire | Offer | Cancel | Return

  datatype IngestAction =
    | Reject(event: TrackingEvent)
    | Accept(event: TrackingEvent)          // anonymise and enter PublishRaw
    | Move(call: nat, move: CallMove)
    | Count(call: nat)

  datatype FraudAction =
    | SubscribeRaw
    | TakeRaw(verdict: ScreenedEvent)       // receive and run the rules
    | Save
    | Tally
    | Publish
    | MoveScreened(move: CallMove)
    | Release
    | EndFraud

  datatype CrmAction =
    | SubscribeScreened
    | TakeScreened(at: int)
    | Attempt
    | Sync(ok: bool)
    | Settle
    | File
    | EndCrm

  datatype PrivacyAction =
    | AskPurge(user: string)
    | WipeEvents(purge: nat)
    | Callback(purge: nat)
    | DropContact(purge: nat)
    | AskExport(user: string)
    | ReadEvents(export_: nat)
    | ReadContact(export_: nat)

  /** The rest of the world: shutdown, and other subscribers. */
  datatype WorldAction =
    | CancelContext
    | BeginClose | CloseNext | EndClose
    | JoinRaw | JoinScreened
    | DrainRaw(k: nat) | DrainScreened(k: nat)

  datatype Action =
    | Ingest(i: IngestAction) | Fraud(f: FraudAction) | Crm(c: CrmAction)
    | Privacy(p: PrivacyAction) | World(w: WorldAction)

  function TopicMove<E>(call: nat, m: CallMove): B.TopicAction<E> {
    match m
    case Expire => B.Expire(call)
    case Offer => B.Offer(call)
    case Cancel => B.Cancel(call)
    case Return => B.Return(call)
  }

  // -------------------------------------------------------- the broker's share

  /** The broker step an action takes part in, if any. */
  datatype BusPart = NoPart | Part(a: B.Action<TrackingEvent, ScreenedEvent>)

  function Anonymised(e: TrackingEvent): TrackingEvent
    requires Consent.WellFormed(e.ip)
  {
    e.(ip := Consent.Masked(e.ip))
  }

  function Hand(s: State): Item
    requires s.fraud.log != []
  {
    s.fraud.log[|s.fraud.log| - 1]
  }

  function BusPartOf(s: State, a: Action): BusPart {
    match a
    case Ingest(Accept(e)) => if Consent.WellFormed(e.ip) then Part(B.Raw(B.Begin(Anonymised(e)))) else NoPart
    case Ingest(Move(call, m)) => Part(B.Raw(TopicMove(call, m)))
    case Fraud(SubscribeRaw) => if s.bus.closed then NoPart else Part(B.Raw(B.Subscribe))
    case Fraud(TakeRaw(_)) => if s.fraud.seat.Seat? then Part(B.Raw(B.Receive(s.fraud.seat.k))) else NoPart
    case Fraud(Publish) => if s.fraud.log != [] then Part(B.Screened(B.Begin(Hand(s).verdict))) else NoPart
    case Fraud(MoveScreened(m)) =>
      if s.bus.screened.calls != [] then Part(B.Screened(TopicMove(|s.bus.screened.calls| - 1, m))) else NoPart
    case Crm(SubscribeScreened) => if s.bus.closed then NoPart else Part(B.Screened(B.Subscribe))
    case Crm(TakeScreened(_)) => if s.crm.seat.Seat? then Part(B.Screened(B.Receive(s.crm.seat.k))) else NoPart
    case World(BeginClose) => Part(B.BeginClose)
    case World(CloseNext) => Part(B.CloseNext)
    case World(EndClose) => Part(B.EndClose)
    case World(JoinRaw) => Part(B.Raw(B.Subscribe))
    case World(JoinScreened) => Part(B.Screened(B.Subscribe))
    case World(DrainRaw(k)) => Part(B.Raw(B.Receive(k)))
    case World(DrainScreened(k)) => Part(B.Screened(B.Receive(k)))
    case _ => NoPart
  }

  function BusAfter(s: State, a: Action): B.Bus<TrackingEvent, ScreenedEvent>
    requires BusPartOf(s, a).Part? ==> B.Enabled(s.bus, BusPartOf(s, a).a)
  {
    match BusPartOf(s, a)
    case NoPart => s.bus
    case Part(b) => B.Apply(s.bus, b)
  }

  // ------------------------------------------------------------------- enabled

  /** The fields HandleIngest requires. */
  predicate Complete(e: TrackingEvent) {
    e.eventId != "" && e.userId != "" && e.eventType != "" && Consent.WellFormed(e.ip)
  }

  predicate IngestEnabled(s: State, i: IngestAction) {
    match i
    case Reject(e) => Complete(e) && !Consent.ConsentGiven(e.eventType, e.consent)
    case Accept(e) => Complete(e) && Consent.ConsentGiven(e.eventType, e.consent)
    case Move(_, _) => true
    case Count(call) => call < |s.bus.raw.calls| && s.bus.raw.calls[call].status == B.Accepted && call !in s.counted
  }

  /** A closed and drained channel reports that it is closed. */
  predicate SeatDrained<E>(t: B.Topic<E>, seat: Seat) {
    seat.Seat? && seat.k < |t.subs| && t.subs[seat.k].closed && t.subs[seat.k].queue == []
  }

  predicate SeatReady<E>(t: B.Topic<E>, seat: Seat) {
    seat.Seat? && seat.k < |t.subs| && t.subs[seat.k].queue != [] && t.subs[seat.k].queue[0] < |t.calls|
  }

  predicate FraudEnabled(s: State, f: FraudAction) {
    match f
    case SubscribeRaw => s.fraud.stage == Unsubscribed && B.Unlocked(s.bus)
    case TakeRaw(v) =>
      && s.fraud.stage == Waiting && SeatReady(s.bus.raw, s.fraud.seat)
      && v.event == s.bus.raw.calls[s.bus.raw.subs[s.fraud.seat.k].queue[0]].event
    case Save => s.fraud.stage == Saving && s.fraud.log != []
    case Tally => s.fraud.stage == Counting && s.fraud.log != []
    case Publish => s.fraud.stage == Publishing && s.fraud.log != []
    case MoveScreened(_) => s.fraud.stage == Sending && s.bus.screened.calls != []
    case Release =>
      && s.fraud.stage == Sending && s.bus.screened.calls != []
      && s.bus.screened.calls[|s.bus.screened.calls| - 1].status != B.Active
    case EndFraud => s.fraud.stage == Waiting && (s.cancelled || SeatDrained(s.bus.raw, s.fraud.seat))
  }

  predicate CrmEnabled(s: State, c: CrmAction) {
    match c
    case SubscribeScreened => s.crm.stage == Off && B.Unlocked(s.bus)
    case TakeScreened(_) => s.crm.stage == Idle && SeatReady(s.bus.screened, s.crm.seat)
    case Attempt => s.crm.stage == Attempting
    case Sync(_) => s.crm.stage == Syncing
    case Settle => s.crm.stage.Settling?
    case File => s.crm.stage.Storing? && s.crm.current < |s.bus.screened.calls|
    case EndCrm => s.crm.stage == Idle && (s.cancelled || SeatDrained(s.bus.screened, s.crm.seat))
  }

  predicate PrivacyEnabled(s: State, p: PrivacyAction) {
    match p
    case AskPurge(user) => user != ""
    case WipeEvents(i) => i < |s.purges| && s.purges[i].stage == Asked
    case Callback(i) => i < |s.purges| && s.purges[i].stage == EventsGone
    case DropContact(i) => i < |s.purges| && s.purges[i].stage == CallbackDone
    case AskExport(user) => user != ""
    case ReadEvents(i) => i < |s.exports| && s.exports[i].stage == Requested
    case ReadContact(i) => i < |s.exports| && s.exports[i].stage == EventsRead
  }

  predicate Enabled(s: State, a: Action) {
    && (BusPartOf(s, a).Part? ==> B.Enabled(s.bus, BusPartOf(s, a).a))
    && match a
       case Ingest(i) => IngestEnabled(s, i)
       case Fraud(f) => FraudEnabled(s, f)
       case Crm(c) => CrmEnabled(s, c)
       case Privacy(p) => PrivacyEnabled(s, p)
       case World(DrainRaw(k)) => s.fraud.seat != Seat(k)
       case World(DrainScreened(k)) => s.crm.seat != Seat(k)
       case World(_) => true
  }

  // --------------------------------------------------------------------- apply

  function EventsOf(st: Store, user: string): seq<Saved> {
    if user in st.events then st.events[user] else []
  }

  function Wiped(st: Store, user: string): nat {
    if user in st.wiped then st.wiped[user] else 0
  }

  function WithEvent(st: Store, user: string, e: Saved): Store {
    st.(events := st.events[user := EventsOf(st, user) + [e]])
  }

  function WithoutEvents(st: Store, user: string): Store {
    st.(events := st.events - {user}, wiped := st.wiped[user := Wiped(st, user) + |EventsOf(st, user)|])
  }

  function WithContact(st: Store, f: Filed): Store {
    st.(contacts := st.contacts[f.contact.userId := f])
  }

  function WithoutContact(st: Store, user: string): Store {
    st.(contacts := st.contacts - {user})
  }

  function IngestStep(s: State, i: IngestAction): State
    requires IngestEnabled(s, i)
  {
    match i
    case Reject(_) => s.(rejected := s.rejected + 1, meters := s.meters.(total := s.meters.total + 1))
    case Count(call) => s.(counted := s.counted + {call}, meters := s.meters.(total := s.meters.total + 1))
    case _ => s
  }

  function Counted(m: Meters, fraudulent: bool): Meters {
    if fraudulent then m.(fraudulent := m.fraudulent + 1) else m.(legitimate := m.legitimate + 1)
  }

  function FraudStep(s: State, f: FraudAction): State
    requires FraudEnabled(s, f)
  {
    var w := s.fraud;
    match f
    case SubscribeRaw =>
      if s.bus.closed then s.(fraud := w.(stage := Ended))
      else s.(fraud := w.(stage := Waiting, seat := Seat(|s.bus.raw.subs|)))
    case TakeRaw(v) =>
      s.(fraud := w.(stage := Saving, log := w.log + [Item(s.bus.raw.subs[w.seat.k].queue[0], v)]))
    case Save =>
      s.(fraud := w.(stage := Counting),
         store := WithEvent(s.store, Hand(s).verdict.event.userId, Saved(|w.log| - 1, s.clock)))
    case Tally => s.(fraud := w.(stage := Publishing), meters := Counted(s.meters, Hand(s).verdict.fraudulent))
    case Publish => s.(fraud := w.(stage := Sending))
    case MoveScreened(_) => s
    case Release => s.(fraud := w.(stage := Waiting))
    case EndFraud => s.(fraud := w.(stage := Ended))
  }

  function Settled(m: Meters, ok: bool): Meters {
    if ok then m.(successes := m.successes + 1) else m.(failures := m.failures + 1)
  }

  function CrmStep(s: State, c: CrmAction): State
    requires CrmEnabled(s, c)
  {
    var w := s.crm;
    match c
    case SubscribeScreened =>
      if s.bus.closed then s.(crm := w.(stage := Stopped))
      else s.(crm := w.(stage := Idle, seat := Seat(|s.bus.screened.subs|)))
    case TakeScreened(at) =>
      var call := s.bus.screened.subs[w.seat.k].queue[0];
      if Qualifies(s.bus.screened.calls[call].event)
      then s.(crm := w.(stage := Attempting, current := call, stamp := at)) else s
    case Attempt =>
      s.(crm := w.(stage := Syncing, attempted := w.attempted + {w.current}),
         meters := s.meters.(attempts := s.meters.attempts + 1))
    case Sync(ok) => s.(crm := w.(stage := Settling(ok)))
    case Settle => s.(crm := w.(stage := Storing(w.stage.ok)), meters := Settled(s.meters, w.stage.ok))
    case File =>
      var contact := SettledContact(s.bus.screened.calls[w.current].event.event, w.stamp, w.stage.ok);
      s.(crm := w.(stage := Idle), store := WithContact(s.store, Filed(contact, w.current, s.clock)))
    case EndCrm => s.(crm := w.(stage := Stopped))
  }

  function PrivacyStep(s: State, p: PrivacyAction): State
    requires PrivacyEnabled(s, p)
  {
    match p
    case AskPurge(user) => s.(purges := s.purges + [Purge(user, Asked, 0, 0)])
    case WipeEvents(i) =>
      s.(purges := s.purges[i := s.purges[i].(stage := EventsGone, eventsAt := s.clock)],
         store := WithoutEvents(s.store, s.purges[i].user))
    case Callback(i) =>
      s.(purges := s.purges[i := s.purges[i].(stage := CallbackDone)],
         store := WithoutContact(s.store, s.purges[i].user))
    case DropContact(i) =>
      s.(purges := s.purges[i := s.purges[i].(stage := Purged, contactAt := s.clock)],
         store := WithoutContact(s.store, s.purges[i].user))
    case AskExport(user) => s.(exports := s.exports + [Export(user, Requested, [], [])])
    case ReadEvents(i) =>
      var x := s.exports[i];
      s.(exports := s.exports[i := x.(stage := EventsRead, events := EventsOf(s.store, x.user))])
    case ReadContact(i) =>
      var x := s.exports[i];
      var found := if x.user in s.store.contacts then [s.store.contacts[x.user].contact] else [];
      s.(exports := s.exports[i := x.(stage := Answered, contact := found)])
  }

  /** The step without its share in the broker and without the clock. */
  function Local(s: State, a: Action): State
    requires Enabled(s, a)
  {
    match a
    case Ingest(i) => IngestStep(s, i)
    case Fraud(f) => FraudStep(s, f)
    case Crm(c) => CrmStep(s, c)
    case Privacy(p) => PrivacyStep(s, p)
    case World(CancelContext) => s.(cancelled := true)
    case World(_) => s
  }

  function Next(s: State, a: Action): State
    requires Enabled(s, a)
  {
    Local(s, a).(bus := BusAfter(s, a), clock := s.clock + 1)
  }

  // ---------------------------------------------------------------------- runs

  ghost predicate Runs(s: State, acts: seq<Action>)
    decreases |acts|
  {
    acts == [] || (Enabled(s, acts[0]) && Runs(Next(s, acts[0]), acts[1..]))
  }

  ghost function Exec(s: State, acts: seq<Action>): State
    requires Runs(s, acts)
    decreases |acts|
  {
    if acts == [] then s else Exec(Next(s, acts[0]), acts[1..])
  }
}
