/** The marketing side of pkg/domain/marketing: the CRM adapter over the retrying client, the
    consumer of screened events, and the two privacy handlers. */
module MarketingServices {
  import opened Events
  import opened Contacts
  import opened Telemetry
  import opened Repositories
  import opened Broker
  import opened CircuitBreakers
  import opened ResilientClients

  // ------------------------------------------------------------------ one sync

  /** What surrounds one sync: the contact's SyncedAt, the instant the breaker is asked, and
      the script of the client's iterations. */
  datatype Trip = Trip(syncedAt: int, start: int, script: seq<Try>)

  /** `usable` says whether a request can be built for the configured address at all. */
  datatype Link = Link(client: Setup, usable: bool)

  predicate Scripted(l: Link, t: Trip) {
    |t.script| >= Budget(l.client)
  }

  /** The sync succeeds: only 200 counts, although any status below 500 pleases the breaker. */
  predicate Syncs(l: Link, b: Breaker, t: Trip)
    requires Scripted(l, t)
  {
    l.usable && Done(l.client, b, t.start, t.script).outcome == Delivered(200)
  }

  function AfterSync(l: Link, b: Breaker, t: Trip): Breaker
    requires Scripted(l, t)
  {
    if l.usable then Done(l.client, b, t.start, t.script).breaker else b
  }

  /** The client dereferences a nil response. */
  predicate Crashes(l: Link, b: Breaker, t: Trip)
    requires Scripted(l, t)
  {
    l.usable && Done(l.client, b, t.start, t.script).outcome == Crashed
  }

  lemma CrashesExactlyWithoutTries(l: Link, b: Breaker, t: Trip)
    requires Scripted(l, t)
    ensures Crashes(l, b, t) <==> l.usable && l.client.maxRetries < 0 && b.Admits(l.client.breaker, t.start)
    ensures Crashes(l, b, t) ==> !Syncs(l, b, t)
  {
  }

  /** A sync succeeds exactly when it is admitted, and the first reply below 500 is a 200 that
      comes before any wait is cut. */
  lemma SyncsExactlyOn200(l: Link, b: Breaker, t: Trip)
    requires Scripted(l, t)
    ensures Syncs(l, b, t) <==>
              && l.usable && b.Admits(l.client.breaker, t.start)
              && exists k: nat :: k <= l.client.maxRetries && GetsTo(t.script, k) && !Cut(t.script, k)
                                  && t.script[k].reply == Status(200)
  {
    if l.usable && b.Admits(l.client.breaker, t.start) {
      var used := Done(l.client, b, t.start, t.script).used;
      if used > 0 {
        EndsExactly(l.client, b, t.start, t.script, used - 1);
      }
      forall k: nat | k <= l.client.maxRetries && GetsTo(t.script, k) && !Cut(t.script, k)
                      && t.script[k].reply == Status(200)
        ensures Syncs(l, b, t)
      {
        EndsExactly(l.client, b, t.start, t.script, k);
      }
    }
  }

  class HTTPCRMAdapter {
    const client: ResilientClient
    const usable: bool

    ghost function Line(): Link {
      Link(client.Settings(), usable)
    }

    constructor (client: ResilientClient, usable: bool)
      ensures this.client == client && this.usable == usable
    {
      this.client, this.usable := client, usable;
    }

    /** With a negative retry count an admitted sync takes the process down with it. */
    method SyncContact(t: Trip) returns (ok: bool, crashed: bool)
      requires client.cb.Valid() && Scripted(Line(), t)
      modifies client.cb
      ensures client.cb.Valid()
      ensures ok == Syncs(Line(), old(client.cb.Model()), t)
      ensures client.cb.Model() == AfterSync(Line(), old(client.cb.Model()), t)
      ensures crashed == Crashes(Line(), old(client.cb.Model()), t)
      ensures crashed <==>
              usable && client.maxRetries < 0 && old(client.cb.Model()).Admits(client.cb.config, t.start)
    {
      CrashesExactlyWithoutTries(Line(), client.cb.Model(), t);
      if !usable {
        return false, false;
      }
      var outcome, _ := client.Do(t.start, t.script);
      if !outcome.Delivered? {
        return false, outcome == Crashed;
      }
      return outcome.code == 200, false;
    }
  }

  // -------------------------------------------------------------- the consumer

  /** What the consumer changes: the breaker, the counters, the contact store's log. */
  datatype Office = Office(breaker: Breaker, meters: Meters, log: seq<ContactOp>)

  function AfterWorkflow(l: Link, o: Office, e: TrackingEvent, t: Trip): Office
    requires Scripted(l, t)
  {
    if Workflow(e.eventType) == "" then o else
    var ok := Syncs(l, o.breaker, t);
    Office(AfterSync(l, o.breaker, t),
           Bumped(Bumped(o.meters, "crm_attempts", 1), if ok then "crm_successes" else "crm_failures", 1),
           o.log + [Filed(SettledContact(e, t.syncedAt, ok))])
  }

  /** What a sync that crashes leaves: an attempt without an outcome, and no contact. */
  function AfterCrash(l: Link, o: Office, t: Trip): Office
    requires Scripted(l, t)
  {
    Office(AfterSync(l, o.breaker, t), Bumped(o.meters, "crm_attempts", 1), o.log)
  }

  ghost predicate AllScripted(l: Link, env: nat -> Trip) {
    forall i :: Scripted(l, env(i))
  }

  /** The first `n` events, one after the other; fraudulent ones are passed over. */
  ghost function AfterConsuming(l: Link, o: Office, events: seq<ScreenedEvent>, env: nat -> Trip, n: nat): Office
    requires n <= |events| && AllScripted(l, env)
  {
    if n == 0 then o else
    var before := AfterConsuming(l, o, events, env, n - 1);
    if events[n - 1].fraudulent then before else AfterWorkflow(l, before, events[n - 1].event, env(n - 1))
  }

  /** Event `i` is one whose sync crashes. */
  ghost predicate CrashesAt(l: Link, o: Office, events: seq<ScreenedEvent>, env: nat -> Trip, i: nat)
    requires i < |events| && AllScripted(l, env)
  {
    Qualifies(events[i]) && Crashes(l, AfterConsuming(l, o, events, env, i).breaker, env(i))
  }

  lemma NothingConsumed(l: Link, o: Office, events: seq<ScreenedEvent>, env: nat -> Trip)
    requires AllScripted(l, env)
    ensures AfterConsuming(l, o, events, env, 0) == o
  {
  }

  lemma OneMoreConsumed(l: Link, o: Office, events: seq<ScreenedEvent>, env: nat -> Trip, n: nat)
    requires n < |events| && AllScripted(l, env)
    ensures var before, e := AfterConsuming(l, o, events, env, n), events[n];
            && AfterConsuming(l, o, events, env, n + 1) ==
               (if e.fraudulent then before else AfterWorkflow(l, before, e.event, env(n)))
            && (CrashesAt(l, o, events, env, n) <==>
                  !e.fraudulent && Workflow(e.event.eventType) != "" && Crashes(l, before.breaker, env(n)))
  {
    hide AfterWorkflow, Workflow, Crashes;
  }

  /** Which takes a negative retry count. */
  lemma NoCrashWithTries(l: Link, o: Office, events: seq<ScreenedEvent>, env: nat -> Trip, i: nat)
    requires i < |events| && AllScripted(l, env) && l.client.maxRetries >= 0
    ensures !CrashesAt(l, o, events, env, i)
  {
    CrashesExactlyWithoutTries(l, AfterConsuming(l, o, events, env, i).breaker, env(i));
  }

  // ------------------------------------------------------ what a run amounts to

  /** The events among the first `n` that the consumer syncs. */
  ghost function Due(events: seq<ScreenedEvent>, n: nat): seq<nat>
    requires n <= |events|
  {
    if n == 0 then [] else Due(events, n - 1) + if Qualifies(events[n - 1]) then [n - 1] else []
  }

  /** The contact filed for event `i`: settled by what the client made of the breaker as the
      events before it left it. */
  ghost function ContactFor(l: Link, o: Office, events: seq<ScreenedEvent>, env: nat -> Trip, i: nat): Contact
    requires i < |events| && AllScripted(l, env)
  {
    SettledContact(events[i].event, env(i).syncedAt, Syncs(l, AfterConsuming(l, o, events, env, i).breaker, env(i)))
  }

  ghost function Filings(l: Link, o: Office, events: seq<ScreenedEvent>, env: nat -> Trip, n: nat): seq<ContactOp>
    requires n <= |events| && AllScripted(l, env)
  {
    if n == 0 then [] else
    Filings(l, o, events, env, n - 1)
    + if Qualifies(events[n - 1]) then [Filed(ContactFor(l, o, events, env, n - 1))] else []
  }

  predicate Successful(op: ContactOp) {
    op.Filed? && op.contact.status == Synced
  }

  function Count(log: seq<ContactOp>): (n: nat)
    ensures n <= |log|
  {
    if log == [] then 0
    else Count(log[..|log| - 1]) + if Successful(log[|log| - 1]) then 1 else 0
  }

  /** The counters after some attempts, of which some succeeded and the others failed. */
  function WithAttempts(m: Meters, attempts: int, successes: int): Meters {
    m.(attempts := m.attempts + attempts, successes := m.successes + successes,
       failures := m.failures + attempts - successes)
  }

  lemma AttemptCounter(m: Meters)
    ensures Bumped(m, "crm_attempts", 1) == m.(attempts := m.attempts + 1)
  {
  }

  lemma AttemptCounters(m: Meters, ok: bool)
    ensures Bumped(Bumped(m, "crm_attempts", 1), if ok then "crm_successes" else "crm_failures", 1)
              == WithAttempts(m, 1, if ok then 1 else 0)
  {
  }

  lemma CountAppends(log: seq<ContactOp>, op: ContactOp)
    ensures Count(log + [op]) == Count(log) + if Successful(op) then 1 else 0
  {
    assert (log + [op])[..|log|] == log;
  }

  /** The contacts filed are those of the qualifying events, in order, and the counters agree
      with them: one attempt each, a success exactly for those filed as synced. */
  lemma {:induction false} ConsumingFilesAndCounts(l: Link, o: Office, events: seq<ScreenedEvent>, env: nat -> Trip,
                                                   n: nat)
    requires n <= |events| && AllScripted(l, env)
    ensures var o', filed := AfterConsuming(l, o, events, env, n), Filings(l, o, events, env, n);
            && |filed| == |Due(events, n)|
            && o'.log == o.log + filed
            && o'.meters == WithAttempts(o.meters, |filed|, Count(filed))
  {
    hide Syncs, AfterSync, Workflow, EmailOf, Bumped;
    if n > 0 {
      ConsumingFilesAndCounts(l, o, events, env, n - 1);
      if Qualifies(events[n - 1]) {
        var before, c := AfterConsuming(l, o, events, env, n - 1), ContactFor(l, o, events, env, n - 1);
        AttemptCounters(before.meters, Syncs(l, before.breaker, env(n - 1)));
        CountAppends(Filings(l, o, events, env, n - 1), Filed(c));
      } else {
        assert Filings(l, o, events, env, n) == Filings(l, o, events, env, n - 1);
      }
    }
  }

  /** The last qualifying event of `user` among the first `n`. */
  ghost function LastDue(events: seq<ScreenedEvent>, user: string, n: nat): (r: Found<nat>)
    requires n <= |events|
    ensures r.Present? ==> r.value < n
  {
    if n == 0 then Missing
    else if Qualifies(events[n - 1]) && events[n - 1].event.userId == user then Present(n - 1)
    else LastDue(events, user, n - 1)
  }

  /** A user's stored contact is that of the user's last qualifying event, and untouched if
      there was none. */
  lemma {:induction false} StoredContactIsTheLastDue(l: Link, o: Office, events: seq<ScreenedEvent>,
                                                     env: nat -> Trip, n: nat, user: string)
    requires n <= |events| && AllScripted(l, env)
    ensures LastFiled(AfterConsuming(l, o, events, env, n).log, user) ==
              match LastDue(events, user, n)
              case Missing => LastFiled(o.log, user)
              case Present(i) => Present(ContactFor(l, o, events, env, i))
  {
    hide Syncs, AfterSync, Workflow, EmailOf, Bumped;
    if n > 0 {
      StoredContactIsTheLastDue(l, o, events, env, n - 1, user);
      var before := AfterConsuming(l, o, events, env, n - 1);
      if Qualifies(events[n - 1]) {
        var log := before.log + [Filed(ContactFor(l, o, events, env, n - 1))];
        assert log[..|log| - 1] == before.log;
      }
    }
  }

  // ------------------------------------------------- a CRM that refuses everything

  /** Every reply is a refusal: a status other than 200 that is no server error. */
  ghost predicate AllRefuse(l: Link, t: Trip) {
    && Scripted(l, t)
    && forall k :: 0 <= k < |t.script| ==>
         t.script[k].reply.Status? && t.script[k].reply.code < 500 && t.script[k].reply.code != 200
  }

  /** A sync that is answered by a refusal succeeds for the breaker and fails for the contact,
      after a single request. */
  lemma RefusalPleasesTheBreaker(l: Link, b: Breaker, t: Trip)
    requires AllRefuse(l, t) && l.client.maxRetries >= 0 && b.state == Closed
    ensures !Syncs(l, b, t)
    ensures l.usable ==> Done(l.client, b, t.start, t.script).used == 1
    ensures AfterSync(l, b, t) == if l.usable then b.(failures := 0) else b
  {
    var tries := t.script[..Budget(l.client)];
    assert tries[0].reply.Good();
    assert Ends(tries, 0);
    assert FirstEnd(tries) == 0;
  }

  /** So a CRM that refuses every contact never trips the breaker: the consumer goes on to
      send one request for each qualifying event, and every one is filed as failed. */
  lemma {:induction false} RefusingCrmNeverTripsTheBreaker(l: Link, o: Office, events: seq<ScreenedEvent>,
                                                           env: nat -> Trip, n: nat)
    requires n <= |events| && AllScripted(l, env) && l.client.maxRetries >= 0 && o.breaker.state == Closed
    requires forall i :: AllRefuse(l, env(i))
    ensures var o' := AfterConsuming(l, o, events, env, n);
            && o'.breaker.state == Closed && o'.breaker.notified == o.breaker.notified
            && o'.breaker.failures <= o.breaker.failures
            && o'.meters.successes == o.meters.successes
            && o'.meters.failures == o.meters.failures + |Due(events, n)|
            && Count(Filings(l, o, events, env, n)) == 0
  {
    ConsumingFilesAndCounts(l, o, events, env, n);
    hide Syncs, AfterSync, AfterWorkflow, Qualifies, SettledContact;
    if n > 0 {
      RefusingCrmNeverTripsTheBreaker(l, o, events, env, n - 1);
      var before := AfterConsuming(l, o, events, env, n - 1);
      RefusalPleasesTheBreaker(l, before.breaker, env(n - 1));
      WorkflowTouchesTheBreakerBySyncing(l, before, events[n - 1].event, env(n - 1));
      CountAppends(Filings(l, o, events, env, n - 1), Filed(ContactFor(l, o, events, env, n - 1)));
      assert Filings(l, o, events, env, n - 1) + [] == Filings(l, o, events, env, n - 1);
      assert ContactFor(l, o, events, env, n - 1).status == Contacts.Failed by {
        FailedSyncsFileFailures(events[n - 1].event, env(n - 1).syncedAt);
      }
    }
  }

  lemma WorkflowTouchesTheBreakerBySyncing(l: Link, o: Office, e: TrackingEvent, t: Trip)
    requires Scripted(l, t)
    ensures var b := AfterWorkflow(l, o, e, t).breaker; b == o.breaker || b == AfterSync(l, o.breaker, t)
  {
  }

  lemma FailedSyncsFileFailures(e: TrackingEvent, at: int)
    ensures SettledContact(e, at, false).status == Contacts.Failed
  {
  }

  // ------------------------------------------------------------------ the object

  class MarketingService {
    const broker: InMemoryBroker
    const repo: MemoryMarketingRepository
    const tracker: MemoryTelemetryTracker
    const fraudEvents: MemoryFraudRepository
    const crm: HTTPCRMAdapter
    const hash: string -> string      // SHA-256, printed in hexadecimal
    const salt: string

    ghost predicate Valid()
      reads broker, repo, fraudEvents, fraudEvents.crmStore, crm.client.cb
    {
      && broker.Valid() && repo.Valid() && fraudEvents.Valid() && crm.client.cb.Valid()
      && (fraudEvents.crmStore != null ==> fraudEvents.crmStore.Valid())
    }

    ghost function Model(): Office
      reads repo, tracker, crm.client.cb
    {
      Office(crm.client.cb.Model(), tracker.Model(), repo.log)
    }

    constructor (broker: InMemoryBroker, repo: MemoryMarketingRepository, tracker: MemoryTelemetryTracker,
                 fraudEvents: MemoryFraudRepository, crm: HTTPCRMAdapter, hash: string -> string, salt: string)
      ensures this.broker == broker && this.repo == repo && this.tracker == tracker && this.fraudEvents == fraudEvents
      ensures this.crm == crm && this.hash == hash && this.salt == salt
    {
      this.broker, this.repo, this.tracker, this.fraudEvents := broker, repo, tracker, fraudEvents;
      this.crm, this.hash, this.salt := crm, hash, salt;
    }

    /** The workflow that an event type triggers, or the empty string. */
    method Triggered(eventType: string) returns (workflow: string)
      ensures workflow == Workflow(eventType)
    {
      if eventType == "signup" {
        workflow := "Welcome & Onboarding Campaign";
      } else if eventType == "checkout_completed" {
        workflow := "Loyalty Rewards Activation";
      } else if eventType == "cart_abandoned" {
        workflow := "Recovery Email Sequence";
      } else {
        workflow := "";
      }
    }

    method EmailFor(event: TrackingEvent) returns (email: string)
      ensures email == EmailOf(event)
    {
      email := event.userId + "@example.com";
      if "email" in event.payload {
        var value := event.payload["email"];
        if value.Text? && value.s != "" {
          email := value.s;
        }
      }
    }

    method ProcessMarketingWorkflow(event: TrackingEvent, t: Trip) returns (crashed: bool)
      requires Valid() && Scripted(crm.Line(), t)
      modifies repo, tracker, crm.client.cb
      ensures Valid() && repo.privacy == old(repo.privacy)
      ensures crashed <==> Workflow(event.eventType) != "" && Crashes(crm.Line(), old(Model()).breaker, t)
      ensures Model() == if crashed then AfterCrash(crm.Line(), old(Model()), t)
                         else AfterWorkflow(crm.Line(), old(Model()), event, t)
      ensures crashed ==>
          && tracker.Model() == old(tracker.Model()).(attempts := old(tracker.Model()).attempts + 1)
          && repo.log == old(repo.log) && repo.crm == old(repo.crm)
    {
      hide Workflow, EmailOf, Bumped, Syncs, AfterSync, Crashes;
      var workflow := Triggered(event.eventType);
      if workflow == "" {
        return false;
      }
      var email := EmailFor(event);
      var contact := Contact(event.userId, email, workflow, Pending, t.syncedAt);
      tracker.IncrementMetric("crm_attempts", 1);
      var ok;
      ok, crashed := crm.SyncContact(t);
      if crashed {
        AttemptCounter(old(tracker.Model()));
        return;
      }
      if ok {
        contact := contact.(status := Synced);
        tracker.IncrementMetric("crm_successes", 1);
      } else {
        contact := contact.(status := Failed);
        tracker.IncrementMetric("crm_failures", 1);
      }
      repo.SaveCRMContact(contact);
    }

    /** The loop of StartConsumer on channel `sub`, run for as long as it need not wait. */
    method Consume(sub: nat, ctx: nat -> Select, env: nat -> Trip) returns (n: nat, ending: Ending)
      requires Valid() && sub < |broker.screenedSubs| && AllScripted(crm.Line(), env)
      modifies broker, repo, tracker, crm.client.cb
      ensures Valid() && broker.closed == old(broker.closed) && broker.rawSubs == old(broker.rawSubs)
      ensures |broker.screenedSubs| == |old(broker.screenedSubs)|
      ensures forall k :: 0 <= k < |broker.screenedSubs| && k != sub ==>
          broker.screenedSubs[k] == old(broker.screenedSubs)[k]
      ensures n <= |old(broker.screenedSubs)[sub].queue|
      ensures forall i: nat :: i < n ==>
        !CrashesAt(crm.Line(), old(Model()), old(broker.screenedSubs)[sub].queue, env, i)
      ensures ending != WorkerCrashed ==>
        && broker.screenedSubs[sub].queue == old(broker.screenedSubs)[sub].queue[n..]
        && Model() == AfterConsuming(crm.Line(), old(Model()), old(broker.screenedSubs)[sub].queue, env, n)
      ensures match ending
              case ContextDone => ctx(n).done
              case ChannelClosed => broker.closed && broker.screenedSubs[sub].queue == []
              case NothingToTake => !broker.closed && broker.screenedSubs[sub].queue == [] && !ctx(n).done
              case WorkerCrashed =>
                var events := old(broker.screenedSubs)[sub].queue;
                && n < |events| && broker.screenedSubs[sub].queue == events[n + 1..]
                && CrashesAt(crm.Line(), old(Model()), events, env, n)
                && Model() == AfterCrash(crm.Line(), AfterConsuming(crm.Line(), old(Model()), events, env, n), env(n))
              case NotSubscribed => false
    {
      hide AfterWorkflow, AfterCrash, AllClosed, Crashes, Workflow, CrashesAt, AfterConsuming;
      hide LastFiled, SavedSince, Listed, Replay;
      NothingConsumed(crm.Line(), Model(), broker.screenedSubs[sub].queue, env);
      n := 0;
      ghost var events := broker.screenedSubs[sub].queue;
      while true
        invariant Valid() && broker.closed == old(broker.closed) && broker.rawSubs == old(broker.rawSubs)
        invariant |broker.screenedSubs| == |old(broker.screenedSubs)|
        invariant forall k :: 0 <= k < |broker.screenedSubs| && k != sub ==>
            broker.screenedSubs[k] == old(broker.screenedSubs)[k]
        invariant n <= |events| && broker.screenedSubs[sub].queue == events[n..]
        invariant forall i: nat :: i < n ==> !CrashesAt(crm.Line(), old(Model()), events, env, i)
        invariant Model() == AfterConsuming(crm.Line(), old(Model()), events, env, n)
        decreases |broker.screenedSubs[sub].queue|
      {
        var ready := broker.closed || broker.screenedSubs[sub].queue != [];
        if ctx(n).done && (!ready || ctx(n).prefersDone) {
          return n, ContextDone;
        }
        var r := broker.ReceiveScreened(sub);
        match r
        case Drained => return n, ChannelClosed;
        case NothingYet => return n, NothingToTake;
        case Got(screened) =>
          assert screened == events[n];
          OneMoreConsumed(crm.Line(), old(Model()), events, env, n);
          if !screened.fraudulent {
            var crashed := ProcessMarketingWorkflow(screened.event, env(n));
            if crashed {
              return n, WorkerCrashed;
            }
          }
          n := n + 1;
      }
    }

    /** The purge, from the decoded user identifier on; `nanos` is the clock printed in
        decimal. Afterwards both stores are empty for the user and as before for everybody
        else, and the audit log, kept under the hashed identifier, has one more entry. */
    method HandleGDPRDelete(userId: string, now: int, nanos: string) returns (code: int, scrubbed: nat)
      requires Valid()
      modifies fraudEvents, fraudEvents.crmStore, repo
      ensures Valid()
      ensures code == if userId == "" then 400 else 200
      ensures userId == "" ==>
        && fraudEvents.log == old(fraudEvents.log)
        && repo.log == old(repo.log) && repo.privacy == old(repo.privacy)
      ensures userId != "" ==>
        && SavedSince(fraudEvents.log, userId) == [] && LastFiled(repo.log, userId) == Missing
        && (forall u :: u != userId ==> SavedSince(fraudEvents.log, u) == SavedSince(old(fraudEvents.log), u))
        && (forall u :: u != userId ==> LastFiled(repo.log, u) == LastFiled(old(repo.log), u))
        && scrubbed == |SavedSince(old(fraudEvents.log), userId)| + (if fraudEvents.crmStore == null then 0 else 1)
        && var entry := PrivacyLog("purge-" + nanos, hash(userId + salt), "GDPR_PURGE", now);
           repo.privacy == old(repo.privacy)[entry.userId := Listed(old(repo.privacy), entry.userId) + [entry]]
    {
      if userId == "" {
        return 400, 0;
      }
      scrubbed := fraudEvents.DeleteUserEvents(userId);
      assert fraudEvents.log[..|fraudEvents.log| - 1] == old(fraudEvents.log);
      label Called:
      assert forall u :: u != userId ==> LastFiled(repo.log, u) == LastFiled(old(repo.log), u);
      repo.DeleteCRMContact(userId);
      assert repo.log[..|repo.log| - 1] == old@Called(repo.log);
      var hashed := hash(userId + salt);
      repo.SavePrivacyLog(PrivacyLog("purge-" + nanos, hashed, "GDPR_PURGE", now));
      code := 200;
    }

    /** The export reads both stores and changes nothing. */
    method HandleCCPAExport(userId: string) returns (code: int, events: seq<ScreenedEvent>, contact: Found<Contact>)
      requires Valid()
      ensures code == if userId == "" then 400 else 200
      ensures code == 200 ==> events == SavedSince(fraudEvents.log, userId) && contact == LastFiled(repo.log, userId)
    {
      if userId == "" {
        return 400, [], Missing;
      }
      code := 200;
      events := fraudEvents.GetEventsByUserID(userId);
      contact := repo.GetCRMContact(userId);
    }
  }
}
