/** When a purge is final: exactly when, at the moment it is asked for, nothing of its user is
    on its way into either store. */
module Purges {
  import opened Contacts
  import opened Pipeline
  import opened PipelineInv
  import opened Continuations
  import opened Resurrections
  import opened ContactReturns
  import B = Bus

  /** Nothing of the user is on its way into the event store or the contact store. */
  ghost predicate Clear(s: State, user: string) {
    StoreClear(s, user) && ContactClear(s, user)
  }

  /** No event of the user is in an ingest handler, a channel or a worker's hand. */
  ghost predicate NothingInFlight(s: State, user: string) {
    && (forall i: nat :: i < |s.bus.raw.calls| && s.bus.raw.calls[i].event.userId == user ==>
          && s.bus.raw.calls[i].status != B.Active
          && forall k :: 0 <= k < |s.bus.raw.subs| ==> i !in s.bus.raw.subs[k].queue)
    && (forall i: nat :: i < |s.bus.screened.calls| && s.bus.screened.calls[i].event.event.userId == user ==>
          && s.bus.screened.calls[i].status != B.Active
          && forall k :: 0 <= k < |s.bus.screened.subs| ==> i !in s.bus.screened.subs[k].queue)
    && (InHand(s.fraud.stage) && s.fraud.log != [] ==> Hand(s).verdict.event.userId != user)
    && InHandClear(s, user)
  }

  /** The plain case; `Clear` leaves more in flight, namely what cannot reach a store. */
  lemma NothingInFlightIsClear(s: State, user: string)
    requires NothingInFlight(s, user)
    ensures Clear(s, user)
  {
    hide Qualifies, Workflow;
  }

  // ----------------------------------------------------------------- erasure

  /** What purge `i` has erased is still gone. */
  ghost predicate Erased(s: State, i: nat)
    requires i < |s.purges|
  {
    var p := s.purges[i];
    && (p.stage != Asked ==> EventsOf(s.store, p.user) == [])
    && (p.stage == Purged ==> p.user !in s.store.contacts)
  }

  lemma PurgesOnlyMoveOn(s: State, a: Action, i: nat)
    requires Enabled(s, a) && i < |s.purges|
    ensures i < |Next(s, a).purges| && Next(s, a).purges[i].user == s.purges[i].user
    ensures s.purges[i].stage == Purged ==> Next(s, a).purges[i].stage == Purged
    ensures var p, p', st := s.purges[i], Next(s, a).purges[i], Next(s, a).store;
            && (p.stage == Asked && p'.stage != Asked ==> EventsOf(st, p.user) == [])
            && (p.stage != Purged && p'.stage == Purged ==> p.user !in st.contacts)
            && (p'.stage == Asked ==> p.stage == Asked)
  {
    if !a.Privacy? {
      OwnHandlersOnly(s, a);
    }
    hide B.Apply;
  }

  lemma StaysErased(s: State, a: Action, i: nat)
    requires i < |s.purges| && Inv(s) && Clear(s, s.purges[i].user) && Enabled(s, a) && Erased(s, i)
    requires !Admits(a, s.purges[i].user)
    ensures i < |Next(s, a).purges| && Next(s, a).purges[i].user == s.purges[i].user
    ensures Inv(Next(s, a)) && Clear(Next(s, a), s.purges[i].user) && Erased(Next(s, a), i)
  {
    hide Inv, Next, Enabled, StoreClear, ContactClear, HandsAreReal;
    var user := s.purges[i].user;
    SoundHandsAreReal(s);
    if EventsOf(s.store, user) == [] {
      ClearStoreStaysEmpty(s, a, user);
    }
    if user !in s.store.contacts {
      ClearContactsStayEmpty(s, a, user);
    }
    PurgesOnlyMoveOn(s, a, i);
    StaysStoreClear(s, a, user);
    StaysContactClear(s, a, user);
    Step(s, a);
  }

  lemma RestIngestsNothing(acts: seq<Action>, user: string)
    requires acts != [] && NoIngestOf(acts, user)
    ensures !Admits(acts[0], user) && NoIngestOf(acts[1..], user)
  {
    forall j | 0 <= j < |acts| - 1 ensures !Admits(acts[1..][j], user) {
      assert acts[1..][j] == acts[j + 1];
    }
  }

  /** While both stores are clear of its user, what a purge has erased stays erased in every
      continuation that ingests nothing for the user. */
  lemma {:induction false} PurgeHolds(s: State, acts: seq<Action>, i: nat)
    requires i < |s.purges| && Inv(s) && Clear(s, s.purges[i].user) && Erased(s, i)
    requires Runs(s, acts) && NoIngestOf(acts, s.purges[i].user)
    ensures var s' := Exec(s, acts);
            && i < |s'.purges| && s'.purges[i].user == s.purges[i].user
            && Erased(s', i) && Clear(s', s.purges[i].user) && Inv(s')
    decreases |acts|
  {
    hide Inv, Next, Enabled, Clear, Erased, NoIngestOf;
    if acts != [] {
      RestIngestsNothing(acts, s.purges[i].user);
      StaysErased(s, acts[0], i);
      PurgeHolds(Next(s, acts[0]), acts[1..], i);
    }
  }

  lemma {:induction false} PurgesPersist(s: State, acts: seq<Action>, i: nat)
    requires i < |s.purges| && Runs(s, acts)
    ensures i < |Exec(s, acts).purges| && Exec(s, acts).purges[i].user == s.purges[i].user
    ensures s.purges[i].stage == Purged ==> Exec(s, acts).purges[i].stage == Purged
    decreases |acts|
  {
    hide Next, Enabled;
    if acts != [] {
      PurgesOnlyMoveOn(s, acts[0], i);
      PurgesPersist(Next(s, acts[0]), acts[1..], i);
    }
  }

  // ----------------------------------------------------------------- exports

  /** The exports of `user` numbered `from` and up have found nothing so far. */
  ghost predicate ExportsEmpty(s: State, from: nat, user: string) {
    forall x :: from <= x < |s.exports| && s.exports[x].user == user ==>
      s.exports[x].events == [] && s.exports[x].contact == []
  }

  lemma ExportsStayEmpty(s: State, a: Action, from: nat, user: string)
    requires Enabled(s, a) && ExportsEmpty(s, from, user)
    requires EventsOf(s.store, user) == [] && user !in s.store.contacts
    ensures ExportsEmpty(Next(s, a), from, user) && |s.exports| <= |Next(s, a).exports|
  {
    if !a.Privacy? {
      OwnHandlersOnly(s, a);
    }
    hide B.Apply;
  }

  lemma {:induction false} ExportsFindNothing(s: State, acts: seq<Action>, i: nat, from: nat)
    requires i < |s.purges| && Inv(s) && Clear(s, s.purges[i].user) && Erased(s, i) && s.purges[i].stage == Purged
    requires Runs(s, acts) && NoIngestOf(acts, s.purges[i].user) && ExportsEmpty(s, from, s.purges[i].user)
    ensures ExportsEmpty(Exec(s, acts), from, s.purges[i].user)
    decreases |acts|
  {
    hide Inv, Next, Enabled, Clear, NoIngestOf, ExportsEmpty;
    if acts != [] {
      RestIngestsNothing(acts, s.purges[i].user);
      ExportsStayEmpty(s, acts[0], from, s.purges[i].user);
      StaysErased(s, acts[0], i);
      PurgesOnlyMoveOn(s, acts[0], i);
      ExportsFindNothing(Next(s, acts[0]), acts[1..], i, from);
    }
  }

  /** The whole promise. If both stores are clear of the user when the purge is asked for, and
      the user is not ingested again, then from the purge's last step on both stores are empty
      for the user, and every export asked for from then on finds nothing, whatever else runs. */
  lemma PurgeIsFinal(s: State, upToPurged: seq<Action>, later: seq<Action>, i: nat)
    requires i < |s.purges| && Inv(s) && Clear(s, s.purges[i].user) && s.purges[i].stage == Asked
    requires Runs(s, upToPurged) && NoIngestOf(upToPurged, s.purges[i].user)
    requires i < |Exec(s, upToPurged).purges| && Exec(s, upToPurged).purges[i].stage == Purged
    requires Runs(Exec(s, upToPurged), later) && NoIngestOf(later, s.purges[i].user)
    ensures var purged, s', user := Exec(s, upToPurged), Exec(Exec(s, upToPurged), later), s.purges[i].user;
            && EventsOf(s'.store, user) == [] && user !in s'.store.contacts
            && forall x :: |purged.exports| <= x < |s'.exports| && s'.exports[x].user == user ==>
                 s'.exports[x].events == [] && s'.exports[x].contact == []
  {
    hide Inv, Clear, Exec, Runs, NoIngestOf;
    var purged := Exec(s, upToPurged);
    PurgeHolds(s, upToPurged, i);
    PurgeHolds(purged, later, i);
    ExportsFindNothing(purged, later, i, |purged.exports|);
    PurgesPersist(purged, later, i);
  }

  // ------------------------------------------- the exact condition at the request

  /** Once purge `i` has run, both stores are empty for its user. */
  ghost predicate Forgotten(s: State, i: nat) {
    i < |s.purges| && s.purges[i].stage == Purged ==>
      EventsOf(s.store, s.purges[i].user) == [] && s.purges[i].user !in s.store.contacts
  }

  /** In every continuation that ingests nothing for its user, purge `i` is final. */
  ghost predicate AlwaysForgotten(s: State, i: nat)
    requires i < |s.purges|
  {
    forall acts :: Runs(s, acts) && NoIngestOf(acts, s.purges[i].user) ==> Forgotten(Exec(s, acts), i)
  }

  function PurgeMove(st: PurgeStage, i: nat): PrivacyAction {
    match st
    case Asked => WipeEvents(i)
    case EventsGone => Callback(i)
    case _ => DropContact(i)
  }

  function PurgeLeft(st: PurgeStage): nat {
    match st
    case Asked => 3
    case EventsGone => 2
    case CallbackDone => 1
    case Purged => 0
  }

  lemma PurgeMoves(s: State, i: nat)
    requires i < |s.purges| && s.purges[i].stage != Purged
    ensures var a := Privacy(PurgeMove(s.purges[i].stage, i));
            && Enabled(s, a)
            && var s' := Next(s, a);
               && s'.bus == s.bus && s'.fraud == s.fraud && s'.crm == s.crm
               && i < |s'.purges| && s'.purges[i].user == s.purges[i].user
               && PurgeLeft(s'.purges[i].stage) < PurgeLeft(s.purges[i].stage)
  {
  }

  /** A purge can run to its end at once, and leaves alone what is in flight. */
  lemma {:induction false} FinishPurge(s: State, i: nat) returns (acts: seq<Action>)
    requires Inv(s) && i < |s.purges|
    ensures Path(s, acts)
    ensures var s' := Exec(s, acts);
            && Inv(s') && s'.bus == s.bus && s'.fraud == s.fraud && s'.crm == s.crm
            && i < |s'.purges| && s'.purges[i].user == s.purges[i].user && s'.purges[i].stage == Purged
    decreases PurgeLeft(s.purges[i].stage)
  {
    hide Inv, Next, Enabled, Path, Exec, PurgeMove;
    if s.purges[i].stage == Purged {
      acts := [];
      Stay(s);
    } else {
      PurgeMoves(s, i);
      var a := Privacy(PurgeMove(s.purges[i].stage, i));
      Step(s, a);
      var rest := FinishPurge(Next(s, a), i);
      First(s, a, rest);
      acts := [a] + rest;
    }
  }

  lemma ClearIsAboutWhatIsInFlight(s: State, s': State, user: string)
    requires s'.bus == s.bus && s'.fraud == s.fraud && s'.crm == s.crm
    ensures Clear(s, user) <==> Clear(s', user)
  {
    hide ChannelClear, QueueClear, Approaches, Bound;
  }

  lemma PathsIngestNothing(s: State, acts: seq<Action>, user: string)
    requires Path(s, acts)
    ensures Runs(s, acts) && NoIngestOf(acts, user)
  {
    hide Runs;
  }

  /** Whatever keeps a store from being clear can survive the purge and land after it. */
  lemma UnclearOutlivesThePurge(s: State, i: nat) returns (acts: seq<Action>)
    requires i < |s.purges| && Inv(s) && OneSend(s) && s.bus.cap > 0 && !Clear(s, s.purges[i].user)
    ensures Runs(s, acts) && NoIngestOf(acts, s.purges[i].user) && !Forgotten(Exec(s, acts), i)
  {
    var user := s.purges[i].user;
    hide Inv, OneSend, Exec, Runs, StoreClear, ContactClear;
    var purge := FinishPurge(s, i);
    var s1 := Exec(s, purge);
    OneSendAlways(s, purge);
    ClearIsAboutWhatIsInFlight(s, s1, user);
    var land;
    if !StoreClear(s1, user) {
      land := UnclearCanLand(s1, user);
    } else {
      land := UnclearCanFile(s1, user);
    }
    Chain(s, purge, land);
    acts := purge + land;
    PathsIngestNothing(s, acts, user);
    PurgesPersist(s1, land, i);
  }

  /** A purge that has been asked for is final, in every continuation that ingests nothing for
      its user, if and only if both stores are clear of the user at that moment. */
  lemma PurgeIsFinalExactlyWhenClear(s: State, i: nat)
    requires i < |s.purges| && s.purges[i].stage == Asked
    requires Inv(s) && OneSend(s) && s.bus.cap > 0
    ensures AlwaysForgotten(s, i) <==> Clear(s, s.purges[i].user)
  {
    hide Inv, OneSend, Clear, Exec, Runs, NoIngestOf, Forgotten;
    if Clear(s, s.purges[i].user) {
      forall acts | Runs(s, acts) && NoIngestOf(acts, s.purges[i].user) ensures Forgotten(Exec(s, acts), i) {
        PurgeHolds(s, acts, i);
        ErasedIsForgotten(Exec(s, acts), i);
      }
    } else {
      var acts := UnclearOutlivesThePurge(s, i);
    }
  }

  /** So in every state that the system can reach. */
  lemma ReachablePurgesAreFinalExactlyWhenClear(bufferSize: int, before: seq<Action>, s: State, i: nat)
    requires Runs(Initial(bufferSize), before) && s == Exec(Initial(bufferSize), before)
    requires i < |s.purges| && s.purges[i].stage == Asked
    ensures AlwaysForgotten(s, i) <==> Clear(s, s.purges[i].user)
  {
    hide Inv, OneSend, Clear, Exec, Runs, Initial, AlwaysForgotten;
    ReachableStatesAreSound(bufferSize, before);
    PurgeIsFinalExactlyWhenClear(s, i);
  }

  lemma ErasedIsForgotten(s: State, i: nat)
    requires i < |s.purges| && Erased(s, i)
    ensures Forgotten(s, i)
  {
  }
}
