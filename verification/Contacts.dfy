/** CRM contacts and the workflows that create them, pkg/domain/marketing. */
module Contacts {
  import opened Events

  datatype SyncStatus = Pending | Synced | Failed

  datatype Contact = Contact(userId: string, email: string, workflow: string, status: SyncStatus, syncedAt: int)

  /** The workflow an event type triggers, or the empty string. */
  function Workflow(eventType: string): string {
    if eventType == "signup" then "Welcome & Onboarding Campaign"
    else if eventType == "checkout_completed" then "Loyalty Rewards Activation"
    else if eventType == "cart_abandoned" then "Recovery Email Sequence"
    else ""
  }

  /** The consumer syncs the event: it is not fraudulent and triggers a workflow. */
  predicate Qualifies(s: ScreenedEvent) {
    !s.fraudulent && Workflow(s.event.eventType) != ""
  }

  function EmailOf(e: TrackingEvent): string {
    var given := TextOf(e.payload, "email");
    if given != "" then given else e.userId + "@example.com"
  }

  function PendingContact(e: TrackingEvent, at: int): Contact {
    Contact(e.userId, EmailOf(e), Workflow(e.eventType), Pending, at)
  }

  function SettledContact(e: TrackingEvent, at: int, ok: bool): Contact {
    PendingContact(e, at).(status := if ok then Synced else Failed)
  }

  /** Three event types trigger a workflow, each its own. */
  lemma WorkflowsByType(eventType: string)
    ensures Workflow(eventType) != "" <==> eventType in {"signup", "checkout_completed", "cart_abandoned"}
    ensures eventType == "signup" ==> Workflow(eventType) == "Welcome & Onboarding Campaign"
    ensures eventType == "checkout_completed" ==> Workflow(eventType) == "Loyalty Rewards Activation"
    ensures eventType == "cart_abandoned" ==> Workflow(eventType) == "Recovery Email Sequence"
  {
  }

  /** What is filed for an event: under its user, with the payload's email when that is a
      non-empty string and one made up from the user otherwise. */
  lemma ContactsByPayload(e: TrackingEvent, at: int, ok: bool)
    ensures var c := SettledContact(e, at, ok);
            && c.userId == e.userId && c.workflow == Workflow(e.eventType) && c.syncedAt == at
            && c.status == (if ok then Synced else Failed)
            && (forall s :: s != "" && "email" in e.payload && e.payload["email"] == Text(s) ==> c.email == s)
            && ((forall s :: s != "" && "email" in e.payload ==> e.payload["email"] != Text(s)) ==>
                  c.email == e.userId + "@example.com")
  {
    hide Workflow;
    if "email" in e.payload && e.payload["email"].Text? && e.payload["email"].s != "" {
      assert e.payload["email"] == Text(e.payload["email"].s);
    }
  }
}
