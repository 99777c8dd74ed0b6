/** The webhook subscription entity and its event-list validator. */
module WebhookEntity {
  import opened Wrappers
  import opened Js

  /** The twelve event names a subscription may list. */
  const ValidEvents: seq<string> := [
    "PAIEMENT_RECU", "PAIEMENT_ENVOYE", "PAIEMENT_REJETE",
    "RTP_RECU", "RTP_REJETE", "RTP_REPONSE_REJETE",
    "ANNULATION_DEMANDE", "ANNULATION_REPONSE_REJETE", "ANNULATION_REJETE",
    "RETOUR_ENVOYE", "RETOUR_REJETE", "RETOUR_RECU"]

  /** `validEvents.includes(event)`: strict equality, so only a string can match. */
  predicate IsKnownEvent(event: Value) {
    event.Str? && event.s in ValidEvents
  }

  /** `Webhook.validateEvents`: an array every element of which is a known event name. */
  predicate ValidateEvents(events: Value) {
    events.Arr? && forall i :: 0 <= i < |events.items| ==> IsKnownEvent(events.items[i])
  }

  /** Non-arrays are refused, the empty array is accepted, and acceptance splits over concatenation. */
  lemma ValidateEventsFacts(a: seq<Value>, b: seq<Value>, v: Value)
    ensures !v.Arr? ==> !ValidateEvents(v)
    ensures ValidateEvents(Arr([]))
    ensures ValidateEvents(Arr(a + b)) <==> ValidateEvents(Arr(a)) && ValidateEvents(Arr(b))
  {
    if ValidateEvents(Arr(a)) && ValidateEvents(Arr(b)) {
      forall i | 0 <= i < |a + b| ensures IsKnownEvent((a + b)[i]) {
        if i >= |a| {
          assert (a + b)[i] == b[i - |a|];
        }
      }
    }
    if ValidateEvents(Arr(a + b)) {
      forall i | 0 <= i < |a| ensures IsKnownEvent(a[i]) {
        assert a[i] == (a + b)[i];
      }
      forall i | 0 <= i < |b| ensures IsKnownEvent(b[i]) {
        assert b[i] == (a + b)[i + |a|];
      }
    }
  }

  /** A webhook body as it arrives; every field may be missing. */
  datatype WebhookData = WebhookData(
    id: Option<string>,
    callbackUrl: Option<string>,
    events: Value,
    alias: Option<string>,
    secret: Option<string>,
    dateCreation: Option<string>,
    dateModification: Option<string>)

  /** A stored webhook, with exactly the seven fields `toJSON` renders. */
  datatype Webhook = Webhook(
    id: string,
    callbackUrl: Option<string>,
    events: Value,
    alias: Option<string>,
    secret: string,
    dateCreation: string,
    dateModification: Option<string>)

  /**
   * `new Webhook(data)`: each field is taken from the body when truthy, else defaulted:
   * a fresh uuid, `[]` events, a null alias, a fresh secret, the current time, a null
   * modification date. The uuid, the random secret and the clock are parameters.
   */
  function NewWebhook(data: WebhookData, freshId: string, freshSecret: string, now: string): (w: Webhook)
    ensures Present(data.id) ==> w.id == data.id.value
    ensures !Present(data.id) ==> w.id == freshId
    ensures w.callbackUrl == data.callbackUrl
    ensures w.events == if Truthy(data.events) then data.events else Arr([])
    ensures w.alias == if Present(data.alias) then data.alias else None
    ensures w.secret == OrElse(data.secret, freshSecret)
    ensures w.dateCreation == OrElse(data.dateCreation, now)
    ensures w.dateModification == if Present(data.dateModification) then data.dateModification else None
  {
    Webhook(
      OrElse(data.id, freshId),
      data.callbackUrl,
      if Truthy(data.events) then data.events else Arr([]),
      if Present(data.alias) then data.alias else None,
      OrElse(data.secret, freshSecret),
      OrElse(data.dateCreation, now),
      if Present(data.dateModification) then data.dateModification else None)
  }
}
