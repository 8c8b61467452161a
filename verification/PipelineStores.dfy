/** The stores of the whole system against the repository objects: over every run, what they
    hold is what the saves and deletions of that run, in the order they happened, leave in a
    repository. */
module PipelineStores {
  import opened Events
  import opened Contacts
  import opened Pipeline
  import opened PipelineInv
  import opened Continuations
  import B = Bus
  import R = Repositories

  // ------------------------------------------------------------- the contacts

  /** The operation an action performs on the contact store, if any. */
  ghost function ContactOps(s: State, a: Action): seq<R.ContactOp>
    requires Enabled(s, a)
  {
    match a
    case Crm(File) =>
      var event := s.bus.screened.calls[s.crm.current].event.event;
      [R.Filed(SettledContact(event, s.crm.stamp, s.crm.stage.ok))]
    case Privacy(Callback(i)) => [R.Dropped(s.purges[i].user)]
    case Privacy(DropContact(i)) => [R.Dropped(s.purges[i].user)]
    case _ => []
  }

  ghost function ContactLog(s: State, acts: seq<Action>): seq<R.ContactOp>
    requires Runs(s, acts)
    decreases |acts|
  {
    if acts == [] then [] else ContactOps(s, acts[0]) + ContactLog(Next(s, acts[0]), acts[1..])
  }

  ghost function ContactIn(st: Store, user: string): R.Found<Contact> {
    if user in st.contacts then R.Present(st.contacts[user].contact) else R.Missing
  }

  ghost predicate HoldsContact(st: Store, log: seq<R.ContactOp>, user: string) {
    R.LastFiled(log, user) == ContactIn(st, user)
  }

  /** What the operation makes of a user's contact. */
  function ContactAfter(before: R.Found<Contact>, ops: seq<R.ContactOp>, user: string): R.Found<Contact> {
    if ops == [] then before else
    match ops[|ops| - 1]
    case Filed(c) => if c.userId == user then R.Present(c) else before
    case Dropped(u) => if u == user then R.Missing else before
  }

  lemma ContactAfterOp(s: State, a: Action, user: string)
    requires Enabled(s, a)
    ensures |ContactOps(s, a)| <= 1
    ensures ContactIn(Next(s, a).store, user) == ContactAfter(ContactIn(s.store, user), ContactOps(s, a), user)
  {
    hide SettledContact, BusAfter, BusPartOf, B.Enabled;
    if !a.Privacy? && a != Fraud(Save) && a != Crm(File) {
      OwnStoreOnly(s, a);
    }
  }

  lemma LastFiledAfterOp(log: seq<R.ContactOp>, ops: seq<R.ContactOp>, user: string)
    requires |ops| <= 1
    ensures R.LastFiled(log + ops, user) == ContactAfter(R.LastFiled(log, user), ops, user)
  {
    if ops == [] {
      assert log + ops == log;
    } else {
      assert (log + ops)[..|log + ops| - 1] == log;
    }
  }

  lemma OneContactOp(s: State, a: Action, log: seq<R.ContactOp>, user: string)
    requires Enabled(s, a) && HoldsContact(s.store, log, user)
    ensures HoldsContact(Next(s, a).store, log + ContactOps(s, a), user)
  {
    hide Next, Enabled, ContactOps, ContactAfter, R.LastFiled;
    ContactAfterOp(s, a, user);
    LastFiledAfterOp(log, ContactOps(s, a), user);
  }

  lemma {:induction false} ContactsFollowTheLog(s: State, acts: seq<Action>, log: seq<R.ContactOp>, user: string)
    requires Runs(s, acts) && HoldsContact(s.store, log, user)
    ensures HoldsContact(Exec(s, acts).store, log + ContactLog(s, acts), user)
    decreases |acts|
  {
    hide HoldsContact, Next, Enabled, ContactOps;
    if acts == [] {
      assert log + ContactLog(s, acts) == log;
    } else {
      var ops := ContactOps(s, acts[0]);
      OneContactOp(s, acts[0], log, user);
      ContactsFollowTheLog(Next(s, acts[0]), acts[1..], log + ops, user);
      assert log + ops + ContactLog(Next(s, acts[0]), acts[1..]) == log + ContactLog(s, acts);
    }
  }

  // --------------------------------------------------------------- the events

  ghost function EventOps(s: State, a: Action): seq<R.EventOp>
    requires Enabled(s, a)
  {
    match a
    case Fraud(Save) => [R.Saved(Hand(s).verdict)]
    case Privacy(WipeEvents(i)) => [R.Wiped(s.purges[i].user)]
    case _ => []
  }

  ghost function EventLog(s: State, acts: seq<Action>): seq<R.EventOp>
    requires Runs(s, acts)
    decreases |acts|
  {
    if acts == [] then [] else EventOps(s, acts[0]) + EventLog(Next(s, acts[0]), acts[1..])
  }

  /** The events behind a list of stored references into the worker's log. */
  ghost function Behind(log: seq<Item>, es: seq<Saved>): seq<ScreenedEvent>
    requires forall i :: 0 <= i < |es| ==> es[i].item < |log|
  {
    seq(|es|, i requires 0 <= i < |es| => log[es[i].item].verdict)
  }

  ghost predicate HoldsEvents(es: seq<Saved>, items: seq<Item>, log: seq<R.EventOp>, user: string) {
    && (forall i :: 0 <= i < |es| ==> es[i].item < |items|)
    && R.SavedSince(log, user) == Behind(items, es)
  }

  lemma HoldsAsItemsGrow(es: seq<Saved>, items: seq<Item>, items': seq<Item>, log: seq<R.EventOp>, user: string)
    requires HoldsEvents(es, items, log, user) && items <= items'
    ensures HoldsEvents(es, items', log, user)
  {
  }

  lemma HoldsAfterSave(es: seq<Saved>, items: seq<Item>, log: seq<R.EventOp>, user: string, at: nat)
    requires HoldsEvents(es, items, log, user) && items != []
    ensures var v := items[|items| - 1].verdict;
            HoldsEvents(if v.event.userId == user then es + [Saved(|items| - 1, at)] else es,
                        items, log + [R.Saved(v)], user)
  {
    var v := items[|items| - 1].verdict;
    assert (log + [R.Saved(v)])[..|log|] == log;
    assert Behind(items, es + [Saved(|items| - 1, at)]) == Behind(items, es) + [v];
  }

  lemma HoldsAfterWipe(es: seq<Saved>, items: seq<Item>, log: seq<R.EventOp>, user: string, wiped: string)
    requires HoldsEvents(es, items, log, user)
    ensures HoldsEvents(if wiped == user then [] else es, items, log + [R.Wiped(wiped)], user)
  {
    assert (log + [R.Wiped(wiped)])[..|log|] == log;
  }

  lemma ItemsOnlyAppend(s: State, a: Action)
    requires Enabled(s, a)
    ensures s.fraud.log <= Next(s, a).fraud.log
    ensures a == Fraud(Save) ==> Next(s, a).fraud.log == s.fraud.log
  {
    if !a.Fraud? {
      OwnWorkerOnly(s, a);
    }
    hide BusAfter;
  }

  lemma EventsAfterOp(s: State, a: Action, user: string)
    requires Enabled(s, a)
    ensures var es, es', ops := EventsOf(s.store, user), EventsOf(Next(s, a).store, user), EventOps(s, a);
            if ops == [] then es' == es
            else if ops[0].Wiped? then ops == [R.Wiped(ops[0].user)] && es' == if ops[0].user == user then [] else es
            else
              && s.fraud.log != [] && ops == [R.Saved(Hand(s).verdict)] && Next(s, a).fraud.log == s.fraud.log
              && es' == if Hand(s).verdict.event.userId == user then es + [Saved(|s.fraud.log| - 1, s.clock)] else es
  {
    if a == Fraud(Save) {
      ItemsOnlyAppend(s, a);
    } else if !a.Privacy? && a != Crm(File) {
      OwnStoreOnly(s, a);
    }
    hide BusAfter, BusPartOf, SettledContact;
  }

  lemma OneEventOp(s: State, a: Action, log: seq<R.EventOp>, user: string)
    requires Enabled(s, a) && HoldsEvents(EventsOf(s.store, user), s.fraud.log, log, user)
    ensures HoldsEvents(EventsOf(Next(s, a).store, user), Next(s, a).fraud.log, log + EventOps(s, a), user)
  {
    hide Next, Enabled, EventsOf, EventOps, HoldsEvents, BusPartOf, R.SavedSince;
    ItemsOnlyAppend(s, a);
    EventsAfterOp(s, a, user);
    var ops, es := EventOps(s, a), EventsOf(s.store, user);
    if ops == [] {
      assert log + ops == log;
      HoldsAsItemsGrow(es, s.fraud.log, Next(s, a).fraud.log, log, user);
    } else if ops[0].Wiped? {
      HoldsAsItemsGrow(es, s.fraud.log, Next(s, a).fraud.log, log, user);
      HoldsAfterWipe(es, Next(s, a).fraud.log, log, user, ops[0].user);
    } else {
      HoldsAfterSave(es, s.fraud.log, log, user, s.clock);
    }
  }

  lemma {:induction false} EventsFollowTheLog(s: State, acts: seq<Action>, log: seq<R.EventOp>, user: string)
    requires Runs(s, acts) && HoldsEvents(EventsOf(s.store, user), s.fraud.log, log, user)
    ensures HoldsEvents(EventsOf(Exec(s, acts).store, user), Exec(s, acts).fraud.log, log + EventLog(s, acts), user)
    decreases |acts|
  {
    hide HoldsEvents, Next, Enabled, EventOps;
    if acts == [] {
      assert log + EventLog(s, acts) == log;
    } else {
      var ops := EventOps(s, acts[0]);
      OneEventOp(s, acts[0], log, user);
      EventsFollowTheLog(Next(s, acts[0]), acts[1..], log + ops, user);
      assert log + ops + EventLog(Next(s, acts[0]), acts[1..]) == log + EventLog(s, acts);
    }
  }

  /** From the start of the system, in every interleaving: a user's stored contact is the last
      one filed since it was last dropped, and the user's stored events are those saved since
      they were last wiped, in order. */
  lemma StoresAreTheirLogs(bufferSize: int, acts: seq<Action>, user: string)
    requires Runs(Initial(bufferSize), acts)
    ensures var s0, s := Initial(bufferSize), Exec(Initial(bufferSize), acts);
            && HoldsContact(s.store, ContactLog(s0, acts), user)
            && HoldsEvents(EventsOf(s.store, user), s.fraud.log, EventLog(s0, acts), user)
  {
    var s0 := Initial(bufferSize);
    assert HoldsContact(s0.store, [], user) && HoldsEvents(EventsOf(s0.store, user), s0.fraud.log, [], user);
    hide HoldsContact, HoldsEvents, Initial;
    ContactsFollowTheLog(s0, acts, [], user);
    EventsFollowTheLog(s0, acts, [], user);
    assert [] + ContactLog(s0, acts) == ContactLog(s0, acts);
    assert [] + EventLog(s0, acts) == EventLog(s0, acts);
  }

  // -------------------------------------------------------------- what exports read

  /** Export `x` has read the events `es`, or the contact list `cs`, and keeps what it read. */
  ghost predicate HasEvents(s: State, x: nat, es: seq<Saved>) {
    x < |s.exports| && s.exports[x].stage != Requested && s.exports[x].events == es
  }

  ghost predicate HasContact(s: State, x: nat, cs: seq<Contact>) {
    x < |s.exports| && s.exports[x].stage == Answered && s.exports[x].contact == cs
  }

  lemma ReadsStay(s: State, a: Action, x: nat)
    requires Enabled(s, a) && x < |s.exports|
    ensures x < |Next(s, a).exports| && Next(s, a).exports[x].user == s.exports[x].user
    ensures s.exports[x].stage != Requested ==> HasEvents(Next(s, a), x, s.exports[x].events)
    ensures s.exports[x].stage == Answered ==> HasContact(Next(s, a), x, s.exports[x].contact)
  {
    if !a.Privacy? {
      OwnHandlersOnly(s, a);
    }
    hide BusAfter, BusPartOf;
  }

  lemma {:induction false} ReadsLast(s: State, acts: seq<Action>, x: nat)
    requires Runs(s, acts) && x < |s.exports|
    ensures x < |Exec(s, acts).exports| && Exec(s, acts).exports[x].user == s.exports[x].user
    ensures s.exports[x].stage != Requested ==> HasEvents(Exec(s, acts), x, s.exports[x].events)
    ensures s.exports[x].stage == Answered ==> HasContact(Exec(s, acts), x, s.exports[x].contact)
    ensures s.fraud.log <= Exec(s, acts).fraud.log
    decreases |acts|
  {
    hide Next, Enabled;
    if acts != [] {
      ReadsStay(s, acts[0], x);
      ItemsOnlyAppend(s, acts[0]);
      ReadsLast(Next(s, acts[0]), acts[1..], x);
    }
  }

  lemma ReadEventsEntry(s: State, x: nat)
    requires Enabled(s, Privacy(ReadEvents(x)))
    ensures x < |s.exports| && HasEvents(Next(s, Privacy(ReadEvents(x))), x, EventsOf(s.store, s.exports[x].user))
    ensures Next(s, Privacy(ReadEvents(x))).exports[x].user == s.exports[x].user
    ensures Next(s, Privacy(ReadEvents(x))).fraud == s.fraud
  {
  }

  lemma ReadContactEntry(s: State, x: nat)
    requires Enabled(s, Privacy(ReadContact(x)))
    ensures x < |s.exports| && Next(s, Privacy(ReadContact(x))).exports[x].user == s.exports[x].user
    ensures var user := s.exports[x].user;
            HasContact(Next(s, Privacy(ReadContact(x))), x,
                       if user in s.store.contacts then [s.store.contacts[user].contact] else [])
  {
  }

  /** A run with action `acts[n]` in the middle. */
  lemma RunsThrough(s: State, acts: seq<Action>, n: nat)
    requires Runs(s, acts) && n < |acts|
    ensures Runs(s, acts[..n]) && Enabled(Exec(s, acts[..n]), acts[n])
    ensures Runs(Next(Exec(s, acts[..n]), acts[n]), acts[n + 1..])
    ensures Exec(s, acts) == Exec(Next(Exec(s, acts[..n]), acts[n]), acts[n + 1..])
  {
    hide Next, Enabled;
    RunsCut(s, acts, n);
    assert acts[n..][0] == acts[n] && acts[n..][1..] == acts[n + 1..];
  }

  /** From the step at which an export reads the events on, it shows exactly the events of its
      user that were saved before that step and not wiped since they were, in order. */
  lemma ExportsShowTheSavedEvents(bufferSize: int, acts: seq<Action>, n: nat, x: nat)
    requires Runs(Initial(bufferSize), acts) && n < |acts| && acts[n] == Privacy(ReadEvents(x))
    ensures Runs(Initial(bufferSize), acts[..n])
    ensures var s := Exec(Initial(bufferSize), acts);
            && x < |s.exports|
            && (forall i :: 0 <= i < |s.exports[x].events| ==> s.exports[x].events[i].item < |s.fraud.log|)
            && Behind(s.fraud.log, s.exports[x].events)
                 == R.SavedSince(EventLog(Initial(bufferSize), acts[..n]), s.exports[x].user)
  {
    var s0 := Initial(bufferSize);
    hide Next, Enabled, Initial, Runs, Exec, EventLog, ContactLog, HoldsContact;
    RunsThrough(s0, acts, n);
    var mid := Exec(s0, acts[..n]);
    ReadEventsEntry(mid, x);
    var user := mid.exports[x].user;
    StoresAreTheirLogs(bufferSize, acts[..n], user);
    ReadsLast(Next(mid, acts[n]), acts[n + 1..], x);
    HoldsAsItemsGrow(EventsOf(mid.store, user), mid.fraud.log, Exec(s0, acts).fraud.log, EventLog(s0, acts[..n]), user);
  }

  /** And from the step at which it reads the contact on, the user's contact as last filed
      before that step, or none. */
  lemma ExportsShowTheFiledContact(bufferSize: int, acts: seq<Action>, m: nat, x: nat)
    requires Runs(Initial(bufferSize), acts) && m < |acts| && acts[m] == Privacy(ReadContact(x))
    ensures Runs(Initial(bufferSize), acts[..m])
    ensures var s := Exec(Initial(bufferSize), acts);
            && x < |s.exports|
            && s.exports[x].contact ==
               match R.LastFiled(ContactLog(Initial(bufferSize), acts[..m]), s.exports[x].user)
               case Missing => []
               case Present(c) => [c]
  {
    var s0 := Initial(bufferSize);
    hide Next, Enabled, Initial, Runs, Exec, EventLog, ContactLog, HoldsEvents;
    RunsThrough(s0, acts, m);
    var mid := Exec(s0, acts[..m]);
    ReadContactEntry(mid, x);
    StoresAreTheirLogs(bufferSize, acts[..m], mid.exports[x].user);
    ReadsLast(Next(mid, acts[m]), acts[m + 1..], x);
  }

  /** An export can be asked for and answered at any time. */
  lemma ExportsCanBeAnswered(s: State, user: string) returns (acts: seq<Action>)
    requires user != ""
    ensures Runs(s, acts)
    ensures var s', x := Exec(s, acts), |s.exports|;
            && x < |s'.exports| && s'.exports[x].user == user && s'.exports[x].stage == Answered
            && s'.exports[x].events == EventsOf(s.store, user)
            && s'.exports[x].contact == if user in s.store.contacts then [s.store.contacts[user].contact] else []
  {
    var x := |s.exports|;
    var ask, read, last := Privacy(AskExport(user)), Privacy(ReadEvents(x)), Privacy(ReadContact(x));
    var s1 := Next(s, ask);
    assert s1.store == s.store;
    var s2 := Next(s1, read);
    assert s2.store == s.store;
    Then(s, [], ask);
    Then(s, [] + [ask], read);
    Then(s, [] + [ask] + [read], last);
    acts := [] + [ask] + [read] + [last];
  }

  // ------------------------------------------------------ what survives a deletion

  /** After the step at which a purge wipes the events, whatever is stored for its user was
      saved by a later step. */
  lemma OnlyLaterSavesSurvive(bufferSize: int, acts: seq<Action>, n: nat, i: nat)
    requires Runs(Initial(bufferSize), acts) && n < |acts| && acts[n] == Privacy(WipeEvents(i))
    ensures Runs(Initial(bufferSize), acts[..n]) && i < |Exec(Initial(bufferSize), acts[..n]).purges|
    ensures Enabled(Exec(Initial(bufferSize), acts[..n]), acts[n])
    ensures var s0, s := Initial(bufferSize), Exec(Initial(bufferSize), acts);
            var mid := Exec(s0, acts[..n]);
            var user := mid.purges[i].user;
            && Runs(Next(mid, acts[n]), acts[n + 1..])
            && HoldsEvents(EventsOf(s.store, user), s.fraud.log, EventLog(Next(mid, acts[n]), acts[n + 1..]), user)
  {
    var s0 := Initial(bufferSize);
    RunsThrough(s0, acts, n);
    var mid := Exec(s0, acts[..n]);
    assert i < |mid.purges|;
    var s1, user := Next(mid, acts[n]), mid.purges[i].user;
    WipedNow(mid, i);
    hide Next, Enabled, Initial, Runs, Exec, EventLog, HoldsEvents;
    EventsFollowTheLog(s1, acts[n + 1..], [], user);
    assert [] + EventLog(s1, acts[n + 1..]) == EventLog(s1, acts[n + 1..]);
  }

  lemma WipedNow(s: State, i: nat)
    requires Enabled(s, Privacy(WipeEvents(i)))
    ensures i < |s.purges|
    ensures var s' := Next(s, Privacy(WipeEvents(i)));
            HoldsEvents(EventsOf(s'.store, s.purges[i].user), s'.fraud.log, [], s.purges[i].user)
  {
  }

  /** After the purge's last step, whatever contact is stored for its user was filed later. */
  lemma OnlyLaterFilingsSurvive(bufferSize: int, acts: seq<Action>, n: nat, i: nat)
    requires Runs(Initial(bufferSize), acts) && n < |acts| && acts[n] == Privacy(DropContact(i))
    ensures Runs(Initial(bufferSize), acts[..n]) && i < |Exec(Initial(bufferSize), acts[..n]).purges|
    ensures Enabled(Exec(Initial(bufferSize), acts[..n]), acts[n])
    ensures var s0, s := Initial(bufferSize), Exec(Initial(bufferSize), acts);
            var mid := Exec(s0, acts[..n]);
            var user := mid.purges[i].user;
            && Runs(Next(mid, acts[n]), acts[n + 1..])
            && HoldsContact(s.store, ContactLog(Next(mid, acts[n]), acts[n + 1..]), user)
  {
    var s0 := Initial(bufferSize);
    RunsThrough(s0, acts, n);
    var mid := Exec(s0, acts[..n]);
    assert i < |mid.purges|;
    var s1, user := Next(mid, acts[n]), mid.purges[i].user;
    DroppedNow(mid, i);
    hide Next, Enabled, Initial, Runs, Exec, ContactLog, HoldsContact;
    ContactsFollowTheLog(s1, acts[n + 1..], [], user);
    assert [] + ContactLog(s1, acts[n + 1..]) == ContactLog(s1, acts[n + 1..]);
  }

  lemma DroppedNow(s: State, i: nat)
    requires Enabled(s, Privacy(DropContact(i)))
    ensures i < |s.purges| && HoldsContact(Next(s, Privacy(DropContact(i))).store, [], s.purges[i].user)
  {
  }
}
