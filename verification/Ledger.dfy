/** What the actions of a run add up to: each counter, list and flag of the whole system as a
    fact about which actions the run contains. */
module Ledger {
  import opened Events
  import opened Contacts
  import opened Pipeline
  import opened PipelineInv
  import opened PipelineRuns
  import opened Continuations
  import B = Bus

  predicate IsReject(a: Action) {
    a.Ingest? && a.i.Reject?
  }

  predicate IsCount(a: Action) {
    a.Ingest? && a.i.Count?
  }

  predicate IsAttempt(a: Action) {
    a == Crm(Attempt)
  }

  predicate IsAccepting(a: Action) {
    a == Crm(Sync(true))
  }

  predicate IsRefusing(a: Action) {
    a == Crm(Sync(false))
  }

  predicate IsTally(a: Action) {
    a == Fraud(Tally)
  }

  function HowMany(acts: seq<Action>, p: Action -> bool): nat {
    if acts == [] then 0 else (if p(acts[0]) then 1 else 0) + HowMany(acts[1..], p)
  }

  lemma Regroup<T>(xs: seq<T>, ys: seq<T>, zs: seq<T>)
    ensures (xs + ys) + zs == xs + (ys + zs)
  {
  }

  // ------------------------------------------------------------- the ingest counter

  lemma IngestEntry(s: State, a: Action)
    requires Enabled(s, a)
    ensures var s' := Next(s, a);
            && s'.rejected == s.rejected + (if IsReject(a) then 1 else 0)
            && s'.meters.total == s.meters.total + (if IsReject(a) || IsCount(a) then 1 else 0)
            && (IsCount(a) ==> a.i.call !in s.counted && s'.counted == s.counted + {a.i.call})
            && (!IsCount(a) ==> s'.counted == s.counted)
  {
    if !a.Ingest? {
      OwnHandlersOnly(s, a);
    }
    hide BusAfter, BusPartOf;
  }

  lemma {:induction false} IngestAddsUp(s: State, acts: seq<Action>)
    requires Runs(s, acts)
    ensures var s' := Exec(s, acts);
            && s'.rejected == s.rejected + HowMany(acts, IsReject)
            && s'.meters.total == s.meters.total + HowMany(acts, IsReject) + HowMany(acts, IsCount)
            && |s'.counted| == |s.counted| + HowMany(acts, IsCount)
            && forall c :: c in s'.counted <==> c in s.counted || Ingest(Count(c)) in acts
    decreases |acts|
  {
    hide Next, Enabled, Runs, Exec;
    if acts == [] {
      NoneYet(s);
    } else {
      FirstOff(s, acts);
      IngestEntry(s, acts[0]);
      IngestAddsUp(Next(s, acts[0]), acts[1..]);
      forall c ensures c in Exec(s, acts).counted <==> c in s.counted || Ingest(Count(c)) in acts {
        assert Ingest(Count(c)) in acts <==> acts[0] == Ingest(Count(c)) || Ingest(Count(c)) in acts[1..];
      }
    }
  }

  // ------------------------------------------------------------------ the CRM counters

  lemma CrmEntry(s: State, a: Action)
    requires Enabled(s, a)
    ensures var s' := Next(s, a);
            && s'.meters.attempts == s.meters.attempts + (if IsAttempt(a) then 1 else 0)
            && s'.meters.successes + Unsettled(s', true)
                 == s.meters.successes + Unsettled(s, true) + (if IsAccepting(a) then 1 else 0)
            && s'.meters.failures + Unsettled(s', false)
                 == s.meters.failures + Unsettled(s, false) + (if IsRefusing(a) then 1 else 0)
  {
    if !a.Crm? {
      OwnWorkerOnly(s, a);
    }
    hide BusAfter, BusPartOf;
  }

  /** A sync with the given outcome that is not in the counters yet. */
  function Unsettled(s: State, ok: bool): nat {
    if s.crm.stage == Settling(ok) then 1 else 0
  }

  lemma {:induction false} CrmAddsUp(s: State, acts: seq<Action>)
    requires Runs(s, acts)
    ensures var s' := Exec(s, acts);
            && s'.meters.attempts == s.meters.attempts + HowMany(acts, IsAttempt)
            && s'.meters.successes + Unsettled(s', true)
                 == s.meters.successes + Unsettled(s, true) + HowMany(acts, IsAccepting)
            && s'.meters.failures + Unsettled(s', false)
                 == s.meters.failures + Unsettled(s, false) + HowMany(acts, IsRefusing)
    decreases |acts|
  {
    hide Next, Enabled, Runs, Exec, Unsettled;
    if acts == [] {
      NoneYet(s);
    } else {
      FirstOff(s, acts);
      CrmEntry(s, acts[0]);
      CrmAddsUp(Next(s, acts[0]), acts[1..]);
    }
  }

  // ------------------------------------------------------------ the verdicts taken

  /** The verdicts of the run, in the order in which the worker took the events. */
  function Taken(acts: seq<Action>): seq<ScreenedEvent> {
    if acts == [] then [] else VerdictOf(acts[0]) + Taken(acts[1..])
  }

  function VerdictOf(a: Action): seq<ScreenedEvent> {
    if a.Fraud? && a.f.TakeRaw? then [a.f.verdict] else []
  }

  function VerdictsIn(log: seq<Item>): seq<ScreenedEvent> {
    seq(|log|, i requires 0 <= i < |log| => log[i].verdict)
  }

  lemma TakenEntry(s: State, a: Action)
    requires Enabled(s, a)
    ensures VerdictsIn(Next(s, a).fraud.log)
              == VerdictsIn(s.fraud.log) + VerdictOf(a)
    ensures Next(s, a).meters.legitimate + Next(s, a).meters.fraudulent
              == s.meters.legitimate + s.meters.fraudulent + if IsTally(a) then 1 else 0
  {
    if !a.Fraud? {
      OwnWorkerOnly(s, a);
    }
    hide BusAfter, BusPartOf;
  }

  lemma {:induction false} TakenAddsUp(s: State, acts: seq<Action>)
    requires Runs(s, acts)
    ensures var s' := Exec(s, acts);
            && VerdictsIn(s'.fraud.log) == VerdictsIn(s.fraud.log) + Taken(acts)
            && s'.meters.legitimate + s'.meters.fraudulent
                 == s.meters.legitimate + s.meters.fraudulent + HowMany(acts, IsTally)
    decreases |acts|
  {
    hide Next, Enabled, Runs, Exec, VerdictsIn;
    if acts == [] {
      NoneYet(s);
    } else {
      FirstOff(s, acts);
      TakenEntry(s, acts[0]);
      TakenAddsUp(Next(s, acts[0]), acts[1..]);
      Regroup(VerdictsIn(s.fraud.log), VerdictOf(acts[0]), Taken(acts[1..]));
    }
  }

  // ------------------------------------------------------- purges, exports, shutdown

  function PurgeOf(a: Action): seq<string> {
    if a.Privacy? && a.p.AskPurge? then [a.p.user] else []
  }

  function ExportOf(a: Action): seq<string> {
    if a.Privacy? && a.p.AskExport? then [a.p.user] else []
  }

  function PurgesAsked(acts: seq<Action>): seq<string> {
    if acts == [] then [] else PurgeOf(acts[0]) + PurgesAsked(acts[1..])
  }

  function ExportsAsked(acts: seq<Action>): seq<string> {
    if acts == [] then [] else ExportOf(acts[0]) + ExportsAsked(acts[1..])
  }

  function PurgeUsers(s: State): seq<string> {
    seq(|s.purges|, i requires 0 <= i < |s.purges| => s.purges[i].user)
  }

  function ExportUsers(s: State): seq<string> {
    seq(|s.exports|, i requires 0 <= i < |s.exports| => s.exports[i].user)
  }

  lemma RequestEntry(s: State, a: Action)
    requires Enabled(s, a)
    ensures var s' := Next(s, a);
            && PurgeUsers(s') == PurgeUsers(s) + PurgeOf(a) && ExportUsers(s') == ExportUsers(s) + ExportOf(a)
            && (s'.cancelled <==> s.cancelled || a == World(CancelContext))
            && s'.clock == s.clock + 1
  {
    OwnWorkerOnly(s, a);
    if !a.Privacy? {
      OwnHandlersOnly(s, a);
    }
    hide BusAfter, BusPartOf;
  }

  lemma {:induction false} PurgesAddUp(s: State, acts: seq<Action>)
    requires Runs(s, acts)
    ensures PurgeUsers(Exec(s, acts)) == PurgeUsers(s) + PurgesAsked(acts)
    decreases |acts|
  {
    hide Next, Enabled, Runs, Exec, PurgeUsers;
    if acts == [] {
      NoneYet(s);
    } else {
      FirstOff(s, acts);
      RequestEntry(s, acts[0]);
      PurgesAddUp(Next(s, acts[0]), acts[1..]);
      Regroup(PurgeUsers(s), PurgeOf(acts[0]), PurgesAsked(acts[1..]));
    }
  }

  lemma {:induction false} ExportsAddUp(s: State, acts: seq<Action>)
    requires Runs(s, acts)
    ensures ExportUsers(Exec(s, acts)) == ExportUsers(s) + ExportsAsked(acts)
    decreases |acts|
  {
    hide Next, Enabled, Runs, Exec, ExportUsers;
    if acts == [] {
      NoneYet(s);
    } else {
      FirstOff(s, acts);
      RequestEntry(s, acts[0]);
      ExportsAddUp(Next(s, acts[0]), acts[1..]);
      Regroup(ExportUsers(s), ExportOf(acts[0]), ExportsAsked(acts[1..]));
    }
  }

  /** No request comes without a user. */
  lemma {:induction false} RequestsAreNamed(s: State, acts: seq<Action>)
    requires Runs(s, acts)
    ensures "" !in PurgesAsked(acts) && "" !in ExportsAsked(acts)
    decreases |acts|
  {
    hide Next, Runs, Exec;
    if acts != [] {
      FirstOff(s, acts);
      RequestsAreNamed(Next(s, acts[0]), acts[1..]);
      assert "" !in PurgeOf(acts[0]) && "" !in ExportOf(acts[0]);
    }
  }

  lemma {:induction false} FlagsAddUp(s: State, acts: seq<Action>)
    requires Runs(s, acts)
    ensures Exec(s, acts).cancelled <==> s.cancelled || World(CancelContext) in acts
    ensures Exec(s, acts).clock == s.clock + |acts|
    decreases |acts|
  {
    hide Next, Enabled, Runs, Exec;
    if acts == [] {
      NoneYet(s);
    } else {
      FirstOff(s, acts);
      RequestEntry(s, acts[0]);
      FlagsAddUp(Next(s, acts[0]), acts[1..]);
      assert World(CancelContext) in acts <==> acts[0] == World(CancelContext) || World(CancelContext) in acts[1..];
    }
  }

  // ------------------------------------------------------- what a sync is filed with

  /** The outcome of the last sync, and the stamp of the last event taken for one. */
  function LastOutcome(acts: seq<Action>, before: bool): bool {
    if acts == [] then before
    else LastOutcome(acts[1..], if acts[0].Crm? && acts[0].c.Sync? then acts[0].c.ok else before)
  }

  function LastStamp(acts: seq<Action>, before: int): int {
    if acts == [] then before
    else LastStamp(acts[1..], if acts[0].Crm? && acts[0].c.TakeScreened? then acts[0].c.at else before)
  }

  /** What the worker is about to file has this outcome and this stamp. */
  ghost predicate Carries(w: CrmWorker, ok: bool, at: int) {
    && (w.stage.Settling? ==> w.stage.ok == ok) && (w.stage.Storing? ==> w.stage.ok == ok)
    && (CrmInHand(w.stage) ==> w.stamp == at)
  }

  lemma CarryEntry(s: State, a: Action, ok: bool, at: int)
    requires Enabled(s, a) && Carries(s.crm, ok, at)
    ensures Carries(Next(s, a).crm, if a.Crm? && a.c.Sync? then a.c.ok else ok,
                    if a.Crm? && a.c.TakeScreened? then a.c.at else at)
  {
    if !a.Crm? {
      OwnWorkerOnly(s, a);
    }
    hide BusAfter, BusPartOf, Qualifies, SettledContact;
  }

  lemma {:induction false} CarriesAddUp(s: State, acts: seq<Action>, ok: bool, at: int)
    requires Runs(s, acts) && Carries(s.crm, ok, at)
    ensures Carries(Exec(s, acts).crm, LastOutcome(acts, ok), LastStamp(acts, at))
    decreases |acts|
  {
    hide Next, Enabled, Runs, Exec, Carries;
    if acts == [] {
      NoneYet(s);
    } else {
      FirstOff(s, acts);
      CarryEntry(s, acts[0], ok, at);
      CarriesAddUp(Next(s, acts[0]), acts[1..], if acts[0].Crm? && acts[0].c.Sync? then acts[0].c.ok else ok,
                   if acts[0].Crm? && acts[0].c.TakeScreened? then acts[0].c.at else at);
    }
  }

  // ------------------------------------------------------------ the stamps of the run

  /** The store of `s'` holds for `user` only what `s` held and what saves and filings among the
      steps between have put there, each stamped with its own step. */
  ghost predicate StampedBetween(s: State, acts: seq<Action>, s': State, user: string) {
    && (forall e :: e in EventsOf(s'.store, user) ==>
          || e in EventsOf(s.store, user)
          || (s.clock <= e.at < s.clock + |acts| && acts[e.at - s.clock] == Fraud(Save)))
    && (user in s'.store.contacts ==>
          || (user in s.store.contacts && s.store.contacts[user] == s'.store.contacts[user])
          || (var at := s'.store.contacts[user].at;
              s.clock <= at < s.clock + |acts| && acts[at - s.clock] == Crm(File)))
  }

  lemma StampEntry(s: State, a: Action, user: string)
    requires Enabled(s, a)
    ensures StampedBetween(s, [a], Next(s, a), user)
  {
    if !a.Privacy? && a != Fraud(Save) && a != Crm(File) {
      OwnStoreOnly(s, a);
    }
    hide BusAfter, BusPartOf, SettledContact, B.Enabled;
  }

  lemma StampsChain(s: State, a: Action, mid: State, rest: seq<Action>, s': State, user: string)
    requires StampedBetween(s, [a], mid, user) && StampedBetween(mid, rest, s', user) && mid.clock == s.clock + 1
    ensures StampedBetween(s, [a] + rest, s', user)
  {
  }

  lemma {:induction false} StampsAddUp(s: State, acts: seq<Action>, user: string)
    requires Runs(s, acts)
    ensures StampedBetween(s, acts, Exec(s, acts), user)
    decreases |acts|
  {
    hide Next, Enabled, Runs, Exec;
    if acts == [] {
      NoneYet(s);
    } else {
      hide StampedBetween;
      FirstOff(s, acts);
      var mid := Next(s, acts[0]);
      StampEntry(s, acts[0], user);
      StampsAddUp(mid, acts[1..], user);
      RequestEntry(s, acts[0]);
      StampsChain(s, acts[0], mid, acts[1..], Exec(s, acts), user);
      assert acts == [acts[0]] + acts[1..];
    }
  }

  /** A purge keeps its user, and the instants of the steps it has made. */
  ghost predicate PurgeGoesOn(p: Purge, p': Purge) {
    && p'.user == p.user
    && (p.stage != Asked ==> p'.stage != Asked && p'.eventsAt == p.eventsAt)
    && (p.stage == Purged ==> p'.stage == Purged && p'.contactAt == p.contactAt)
  }

  lemma PurgeEntry(s: State, a: Action, i: nat)
    requires Enabled(s, a) && i < |s.purges|
    ensures i < |Next(s, a).purges| && PurgeGoesOn(s.purges[i], Next(s, a).purges[i])
  {
    if !a.Privacy? {
      OwnHandlersOnly(s, a);
    }
    hide BusAfter, BusPartOf;
  }

  lemma {:induction false} PurgesGoOn(s: State, acts: seq<Action>, i: nat)
    requires Runs(s, acts) && i < |s.purges|
    ensures i < |Exec(s, acts).purges| && PurgeGoesOn(s.purges[i], Exec(s, acts).purges[i])
    decreases |acts|
  {
    hide Next, Enabled, Runs, Exec;
    if acts == [] {
      NoneYet(s);
    } else {
      FirstOff(s, acts);
      PurgeEntry(s, acts[0], i);
      PurgesGoOn(Next(s, acts[0]), acts[1..], i);
    }
  }

  lemma PurgeStamps(s: State, i: nat)
    ensures Enabled(s, Privacy(WipeEvents(i))) ==>
              && i < |s.purges| && i < |Next(s, Privacy(WipeEvents(i))).purges|
              && var p := Next(s, Privacy(WipeEvents(i))).purges[i]; p.stage != Asked && p.eventsAt == s.clock
    ensures Enabled(s, Privacy(DropContact(i))) ==>
              && i < |s.purges| && i < |Next(s, Privacy(DropContact(i))).purges|
              && var p := Next(s, Privacy(DropContact(i))).purges[i]; p.stage == Purged && p.contactAt == s.clock
  {
  }

  // --------------------------------------------------------- from the system's start

  /** The ingest counter is the number of rejections and of counting handlers in the run, and
      `counted` holds exactly the calls that those named, once each. */
  lemma ReceivedIsWhatHandlersCounted(bufferSize: int, acts: seq<Action>)
    requires Runs(Initial(bufferSize), acts)
    ensures var s := Exec(Initial(bufferSize), acts);
            && s.rejected == HowMany(acts, IsReject)
            && s.meters.total == HowMany(acts, IsReject) + HowMany(acts, IsCount)
            && |s.counted| == HowMany(acts, IsCount)
            && forall c :: c in s.counted <==> Ingest(Count(c)) in acts
  {
    hide Exec, Runs;
    IngestAddsUp(Initial(bufferSize), acts);
  }

  /** The other counters: attempts, the syncs that went well and those that did not, once
      settled, and one verdict for each tally; the worker's log holds the verdicts given. */
  lemma CountersAreWhatTheWorkersDid(bufferSize: int, acts: seq<Action>)
    requires Runs(Initial(bufferSize), acts)
    ensures var s := Exec(Initial(bufferSize), acts);
            && s.meters.attempts == HowMany(acts, IsAttempt)
            && s.meters.successes + (if s.crm.stage == Settling(true) then 1 else 0) == HowMany(acts, IsAccepting)
            && s.meters.failures + (if s.crm.stage == Settling(false) then 1 else 0) == HowMany(acts, IsRefusing)
            && s.meters.legitimate + s.meters.fraudulent == HowMany(acts, IsTally)
            && |s.fraud.log| == |Taken(acts)|
            && forall i :: 0 <= i < |s.fraud.log| ==> s.fraud.log[i].verdict == Taken(acts)[i]
  {
    hide Exec, Runs;
    CrmAddsUp(Initial(bufferSize), acts);
    TakenAddsUp(Initial(bufferSize), acts);
    assert VerdictsIn(Exec(Initial(bufferSize), acts).fraud.log) == Taken(acts);
  }

  /** Purges and exports are those asked for, in order and for those users; the context is
      cancelled exactly by a cancellation. */
  lemma RequestsAreThoseMade(bufferSize: int, acts: seq<Action>)
    requires Runs(Initial(bufferSize), acts)
    ensures var s := Exec(Initial(bufferSize), acts);
            && PurgeUsers(s) == PurgesAsked(acts) && ExportUsers(s) == ExportsAsked(acts)
            && "" !in PurgesAsked(acts) && "" !in ExportsAsked(acts)
            && (s.cancelled <==> World(CancelContext) in acts)
            && s.clock == |acts|
  {
    var s0 := Initial(bufferSize);
    assert PurgeUsers(s0) == [] && ExportUsers(s0) == [] && !s0.cancelled && s0.clock == 0;
    hide Initial, Exec, Runs, PurgeUsers, ExportUsers, PurgesAsked, ExportsAsked;
    PurgesAddUp(s0, acts);
    ExportsAddUp(s0, acts);
    FlagsAddUp(s0, acts);
    RequestsAreNamed(s0, acts);
  }

  /** A contact is filed with the outcome of its own sync, and the stamp of its own event. */
  lemma FiledAsSynced(bufferSize: int, acts: seq<Action>)
    requires Runs(Initial(bufferSize), acts) && Enabled(Exec(Initial(bufferSize), acts), Crm(File))
    ensures var s := Exec(Initial(bufferSize), acts);
            var s' := Next(s, Crm(File));
            && s.crm.current < |s.bus.screened.calls|
            && var e := s.bus.screened.calls[s.crm.current].event.event;
               && e.userId in s'.store.contacts
               && s'.store.contacts[e.userId].contact.status == (if LastOutcome(acts, false) then Synced else Failed)
               && s'.store.contacts[e.userId].contact.syncedAt == LastStamp(acts, 0)
  {
    CarriesAddUp(Initial(bufferSize), acts, false, 0);
    var s := Exec(Initial(bufferSize), acts);
    FileEntry(s);
    hide Runs, Exec, Next;
  }

  /** If step `n` wipes the events of purge `i`, whatever is stored for its user at the end was
      put there by a save at a later step; and if step `n` is its last, a contact stored for
      the user at the end was put there by a filing at a later step. */
  lemma StoredByLaterSteps(bufferSize: int, acts: seq<Action>, n: nat, i: nat)
    requires Runs(Initial(bufferSize), acts) && n < |acts|
    ensures var s := Exec(Initial(bufferSize), acts);
            && (acts[n] == Privacy(WipeEvents(i)) ==>
                  && i < |s.purges|
                  && forall e :: e in EventsOf(s.store, s.purges[i].user) ==>
                                   n < e.at < |acts| && acts[e.at] == Fraud(Save))
            && (acts[n] == Privacy(DropContact(i)) ==>
                  && i < |s.purges|
                  && (var user := s.purges[i].user;
                      user in s.store.contacts ==>
                        var at := s.store.contacts[user].at; n < at < |acts| && acts[at] == Crm(File)))
  {
    var s := Exec(Initial(bufferSize), acts);
    PurgeStampsAreSteps(bufferSize, acts, n, i);
    InitialInv(bufferSize);
    hide Inv, Next, Enabled, Runs, Exec, StampedBetween, EventsOf;
    InvAlways(Initial(bufferSize), acts);
    if acts[n] == Privacy(WipeEvents(i)) {
      StampsAddUp(Initial(bufferSize), acts, s.purges[i].user);
      EventsAfterTheWipe(bufferSize, acts, s, i);
    }
    if acts[n] == Privacy(DropContact(i)) {
      StampsAddUp(Initial(bufferSize), acts, s.purges[i].user);
      ContactAfterTheDrop(bufferSize, acts, s, i);
    }
  }

  lemma PurgeStampsAreSteps(bufferSize: int, acts: seq<Action>, n: nat, i: nat)
    requires Runs(Initial(bufferSize), acts) && n < |acts|
    ensures var s := Exec(Initial(bufferSize), acts);
            && (acts[n] == Privacy(WipeEvents(i)) ==>
                  i < |s.purges| && s.purges[i].stage != Asked && s.purges[i].eventsAt == n)
            && (acts[n] == Privacy(DropContact(i)) ==>
                  i < |s.purges| && s.purges[i].stage == Purged && s.purges[i].contactAt == n)
  {
    var s0 := Initial(bufferSize);
    assert s0.clock == 0;
    hide Initial, Next, Enabled, Runs, Exec;
    RunsCut(s0, acts, n);
    var mid, rest := Exec(s0, acts[..n]), acts[n..];
    FirstOff(mid, rest);
    assert rest[0] == acts[n];
    FlagsAddUp(s0, acts[..n]);
    PurgeStamps(mid, i);
    if acts[n] == Privacy(WipeEvents(i)) || acts[n] == Privacy(DropContact(i)) {
      PurgesGoOn(Next(mid, acts[n]), rest[1..], i);
    }
  }

  lemma EventsAfterTheWipe(bufferSize: int, acts: seq<Action>, s: State, i: nat)
    requires Inv(s) && i < |s.purges| && s.purges[i].stage != Asked
    requires StampedBetween(Initial(bufferSize), acts, s, s.purges[i].user)
    requires s.purges[i].eventsAt < |acts| && acts[s.purges[i].eventsAt] != Fraud(Save)
    ensures forall e :: e in EventsOf(s.store, s.purges[i].user) ==>
                          s.purges[i].eventsAt < e.at < |acts| && acts[e.at] == Fraud(Save)
  {
    hide Inv;
    StoredAfterThePurge(s, i);
    assert EventsOf(Initial(bufferSize).store, s.purges[i].user) == [];
  }

  lemma ContactAfterTheDrop(bufferSize: int, acts: seq<Action>, s: State, i: nat)
    requires Inv(s) && i < |s.purges| && s.purges[i].stage == Purged
    requires StampedBetween(Initial(bufferSize), acts, s, s.purges[i].user)
    requires s.purges[i].contactAt < |acts| && acts[s.purges[i].contactAt] != Crm(File)
    ensures var user := s.purges[i].user;
            user in s.store.contacts ==>
              var at := s.store.contacts[user].at; s.purges[i].contactAt < at < |acts| && acts[at] == Crm(File)
  {
    hide Inv;
    StoredAfterThePurge(s, i);
    var user := s.purges[i].user;
    assert Initial(bufferSize).store.contacts == map[] && Initial(bufferSize).clock == 0;
    hide Initial, EventsOf;
    if user in s.store.contacts {
      var at := s.store.contacts[user].at;
      assert 0 <= at < |acts| && acts[at - 0] == Crm(File);
    }
  }

  lemma FileEntry(s: State)
    requires Enabled(s, Crm(File))
    ensures s.crm.stage.Storing? && s.crm.current < |s.bus.screened.calls|
    ensures var e := s.bus.screened.calls[s.crm.current].event.event;
            && e.userId in Next(s, Crm(File)).store.contacts
            && var c := Next(s, Crm(File)).store.contacts[e.userId].contact;
               c.status == (if s.crm.stage.ok then Synced else Failed) && c.syncedAt == s.crm.stamp
  {
    hide Workflow, EmailOf;
  }
}
