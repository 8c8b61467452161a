/** The in-memory repositories of pkg/domain/fraud/memory.go and pkg/domain/marketing/memory.go.
    Their methods run under a lock, so whatever goroutines call them, what they hold is decided
    by the order of the calls; `log` is that order. */
module Repositories {
  import opened Events
  import opened Contacts

  /** A map entry, or nothing when the key is absent. */
  function Listed<T>(m: map<string, seq<T>>, key: string): seq<T> {
    if key in m then m[key] else []
  }

  // --------------------------------------------------------- what a log leaves

  datatype EventOp = Saved(event: ScreenedEvent) | Wiped(user: string)

  /** The user's events saved since the last time they were wiped, in order. */
  function SavedSince(log: seq<EventOp>, user: string): seq<ScreenedEvent> {
    if log == [] then [] else
    var before := SavedSince(log[..|log| - 1], user);
    match log[|log| - 1]
    case Saved(e) => if e.event.userId == user then before + [e] else before
    case Wiped(u) => if u == user then [] else before
  }

  datatype ContactOp = Filed(contact: Contact) | Dropped(user: string)

  datatype Found<T> = Missing | Present(value: T)

  /** The user's contact as last filed, unless it has been dropped since. */
  function LastFiled(log: seq<ContactOp>, user: string): Found<Contact> {
    if log == [] then Missing else
    var before := LastFiled(log[..|log| - 1], user);
    match log[|log| - 1]
    case Filed(c) => if c.userId == user then Present(c) else before
    case Dropped(u) => if u == user then Missing else before
  }

  /** The log holds a wipe of `user` at `i`; whatever it leaves for the user was saved later,
      and no operation on another user made a difference. */
  lemma {:induction false} OnlyLaterSavesRemain(log: seq<EventOp>, user: string, i: nat)
    requires i < |log| && log[i] == Wiped(user)
    ensures SavedSince(log, user) == SavedSince(log[i + 1..], user)
    decreases |log|
  {
    if i < |log| - 1 {
      OnlyLaterSavesRemain(log[..|log| - 1], user, i);
      assert log[..|log| - 1][i + 1..] == log[i + 1..][..|log| - i - 2];
    } else {
      assert log[i + 1..] == [];
    }
  }

  lemma {:induction false} OnlyLaterFilingsRemain(log: seq<ContactOp>, user: string, i: nat)
    requires i < |log| && log[i] == Dropped(user)
    ensures LastFiled(log, user) == LastFiled(log[i + 1..], user)
    decreases |log|
  {
    if i < |log| - 1 {
      OnlyLaterFilingsRemain(log[..|log| - 1], user, i);
      assert log[..|log| - 1][i + 1..] == log[i + 1..][..|log| - i - 2];
    } else {
      assert log[i + 1..] == [];
    }
  }

  ghost predicate IsAbout(op: EventOp, user: string) {
    match op
    case Saved(e) => e.event.userId == user
    case Wiped(u) => u == user
  }

  /** Exactly the user's own operations matter, in their own order. */
  ghost function Own(log: seq<EventOp>, user: string): seq<EventOp> {
    if log == [] then [] else
    var before := Own(log[..|log| - 1], user);
    if IsAbout(log[|log| - 1], user) then before + [log[|log| - 1]] else before
  }

  lemma {:induction false} UsersAreIndependent(log: seq<EventOp>, user: string)
    ensures SavedSince(log, user) == SavedSince(Own(log, user), user)
  {
    if log != [] {
      UsersAreIndependent(log[..|log| - 1], user);
      var before := Own(log[..|log| - 1], user);
      assert (before + [log[|log| - 1]])[..|before|] == before;
    }
  }

  // --------------------------------------------------------------- the objects

  datatype PrivacyLog = PrivacyLog(logId: string, userId: string, action: string, timestamp: int)

  class MemoryMarketingRepository {
    var crm: map<string, Contact>
    var privacy: map<string, seq<PrivacyLog>>
    ghost var log: seq<ContactOp>

    ghost predicate Valid()
      reads this
    {
      forall user :: LastFiled(log, user) == if user in crm then Present(crm[user]) else Missing
    }

    constructor ()
      ensures Valid() && log == [] && crm == map[] && privacy == map[]
    {
      crm, privacy, log := map[], map[], [];
    }

    method SaveCRMContact(contact: Contact)
      requires Valid()
      modifies this
      ensures Valid() && log == old(log) + [Filed(contact)]
      ensures crm == old(crm)[contact.userId := contact] && privacy == old(privacy)
    {
      crm := crm[contact.userId := contact];
      log := log + [Filed(contact)];
      assert log[..|log| - 1] == old(log);
    }

    method GetCRMContact(userId: string) returns (r: Found<Contact>)
      requires Valid()
      ensures r == LastFiled(log, userId)
    {
      r := if userId in crm then Present(crm[userId]) else Missing;
    }

    method DeleteCRMContact(userId: string)
      requires Valid()
      modifies this
      ensures Valid() && log == old(log) + [Dropped(userId)]
      ensures crm == old(crm) - {userId} && privacy == old(privacy)
    {
      crm := crm - {userId};
      log := log + [Dropped(userId)];
      assert log[..|log| - 1] == old(log);
    }

    method SavePrivacyLog(entry: PrivacyLog)
      requires Valid()
      modifies this
      ensures Valid() && log == old(log) && crm == old(crm)
      ensures privacy == old(privacy)[entry.userId := Listed(old(privacy), entry.userId) + [entry]]
    {
      var entries := if entry.userId in privacy then privacy[entry.userId] else [];
      privacy := privacy[entry.userId := entries + [entry]];
    }

    method GetPrivacyLogsByUserID(userId: string) returns (r: seq<PrivacyLog>)
      ensures r == Listed(privacy, userId)
    {
      if userId !in privacy {
        return [];
      }
      r := privacy[userId];
    }
  }

  /** `crmStore` is where the deletion callback drops contacts, or null when there is none. */
  class MemoryFraudRepository {
    var events: map<string, seq<ScreenedEvent>>
    const crmStore: MemoryMarketingRepository?
    ghost var log: seq<EventOp>

    ghost predicate Valid()
      reads this
    {
      forall user :: SavedSince(log, user) == Listed(events, user)
    }

    constructor (crmStore: MemoryMarketingRepository?)
      ensures Valid() && log == [] && events == map[] && this.crmStore == crmStore
    {
      this.crmStore := crmStore;
      events, log := map[], [];
    }

    method SaveEvent(event: ScreenedEvent)
      requires Valid()
      modifies this
      ensures Valid() && log == old(log) + [Saved(event)]
    {
      var user := event.event.userId;
      var saved := if user in events then events[user] else [];
      events := events[user := saved + [event]];
      log := log + [Saved(event)];
      assert log[..|log| - 1] == old(log);
    }

    method GetEventsByUserID(userId: string) returns (r: seq<ScreenedEvent>)
      requires Valid()
      ensures r == SavedSince(log, userId)
    {
      if userId !in events {
        return [];
      }
      r := events[userId];
    }

    /** The count is the number of events, plus one whenever there is a callback. */
    method DeleteUserEvents(userId: string) returns (count: nat)
      requires Valid() && (crmStore != null ==> crmStore.Valid())
      modifies this, crmStore
      ensures Valid() && log == old(log) + [Wiped(userId)]
      ensures count == |SavedSince(old(log), userId)| + if crmStore == null then 0 else 1
      ensures crmStore != null ==>
        && crmStore.Valid() && crmStore.log == old(crmStore.log) + [Dropped(userId)]
        && crmStore.crm == old(crmStore.crm) - {userId} && crmStore.privacy == old(crmStore.privacy)
    {
      count := if userId in events then |events[userId]| else 0;
      events := events - {userId};
      log := log + [Wiped(userId)];
      assert log[..|log| - 1] == old(log);
      if crmStore != null {
        crmStore.DeleteCRMContact(userId);
        count := count + 1;
      }
    }
  }
}
