/**
 * The webhook handlers of `controllers/webhooks.js` over their module-level registry
 * (a `Map` from id to webhook): body validation, the identifier checks shared by the
 * four handlers that take an id, the cap of ten subscriptions, and the updates.
 */
module WebhooksController {
  import opened Wrappers
  import opened Js
  import opened AliasEntity
  import opened WebhookEntity

  /** One entry of `invalid-params`. */
  datatype InvalidParam = InvalidParam(name: string, reason: string)

  /** A problem reply: status, title, detail and its `invalid-params`. */
  datatype Refusal = Refusal(status: nat, title: string, detail: string, params: seq<InvalidParam>)

  datatype WebhookReply<T> = Done(status: nat, body: T) | Refused(refusal: Refusal)

  const MaxWebhooks: nat := 10

  const FieldUrl: string := "callbackUrl"
  const FieldEvents: string := "events"
  const ReasonUrlObligatoire: string := "Le champ callbackUrl est obligatoire"
  const ReasonUrlInvalide: string := "L'URL de callback est invalide"
  const ReasonEventsObligatoire: string := "Le champ events est obligatoire"
  const ReasonEventsInvalides: string := "Les événements spécifiés ne sont pas valides"

  const IdInvalide: Refusal :=
    Refusal(400, "ID invalide", "L'ID fourni n'est pas un UUID valide", [InvalidParam("id", "Format UUID invalide")])
  const WebhookInconnu: Refusal :=
    Refusal(404, "Webhook non trouvé", "Le webhook demandé n'existe pas", [InvalidParam("id", "Webhook non trouvé")])
  const LimiteAtteinte: Refusal :=
    Refusal(400, "Limite dépassée", "Le nombre maximum de webhooks a été atteint",
            [InvalidParam("webhooks", "Limite de webhooks dépassée")])

  function DonneesInvalides(errors: seq<InvalidParam>): Refusal {
    Refusal(400, "Données invalides", "Les données fournies ne sont pas valides", errors)
  }

  /** The callback URL's error, if any: missing (falsy), or not parseable by `isUrl` (`new URL`). */
  function UrlError(data: WebhookData, isUrl: string -> bool): seq<InvalidParam> {
    if !Present(data.callbackUrl) then [InvalidParam(FieldUrl, ReasonUrlObligatoire)]
    else if !isUrl(data.callbackUrl.value) then [InvalidParam(FieldUrl, ReasonUrlInvalide)]
    else []
  }

  /** The events' error, if any: missing (falsy), or not an array of known event names. */
  function EventsError(data: WebhookData): seq<InvalidParam> {
    if !Truthy(data.events) then [InvalidParam(FieldEvents, ReasonEventsObligatoire)]
    else if !ValidateEvents(data.events) then [InvalidParam(FieldEvents, ReasonEventsInvalides)]
    else []
  }

  /**
   * `validateWebhookData`: at most one error per field, the callback URL's before the
   * events'; the body is accepted exactly when the URL is present and parseable and
   * the events form an array of known names.
   */
  function ValidateWebhookData(data: WebhookData, isUrl: string -> bool): (errors: seq<InvalidParam>)
    ensures |errors| <= 2
    ensures errors == [] <==>
      Present(data.callbackUrl) && isUrl(data.callbackUrl.value) && ValidateEvents(data.events)
    ensures (exists i :: 0 <= i < |errors| && errors[i].name == FieldUrl) <==>
      !Present(data.callbackUrl) || !isUrl(data.callbackUrl.value)
    ensures (exists i :: 0 <= i < |errors| && errors[i].name == FieldEvents) <==> !ValidateEvents(data.events)
    ensures |errors| == 2 ==> errors[0].name == FieldUrl && errors[1].name == FieldEvents
  {
    var u := UrlError(data, isUrl);
    var e := EventsError(data);
    assert FieldUrl != FieldEvents by { assert |FieldUrl| != |FieldEvents|; }
    assert ValidateEvents(data.events) ==> Truthy(data.events);
    assert forall i :: 0 <= i < |u| ==> (u + e)[i] == u[i];
    assert forall i :: 0 <= i < |e| ==> (u + e)[|u| + i] == e[i];
    assert forall i :: 0 <= i < |u| + |e| ==>
      (u + e)[i].name == if i < |u| then FieldUrl else FieldEvents;
    assert |u| > 0 ==> (u + e)[0].name == FieldUrl;
    assert |e| > 0 ==> (u + e)[|u|].name == FieldEvents;
    u + e
  }

  /**
   * Which reason is given: a missing field is "obligatoire", a present but unusable one
   * "invalide", the events checked whatever the URL gave. An empty event list is truthy
   * and accepted; a non-array, or an array naming an unknown event, is refused.
   */
  lemma ValidationReasons(data: WebhookData, isUrl: string -> bool)
    ensures !Present(data.callbackUrl) ==>
      ValidateWebhookData(data, isUrl)[0] == InvalidParam(FieldUrl, ReasonUrlObligatoire)
    ensures Present(data.callbackUrl) && !isUrl(data.callbackUrl.value) ==>
      ValidateWebhookData(data, isUrl)[0] == InvalidParam(FieldUrl, ReasonUrlInvalide)
    ensures Present(data.callbackUrl) && isUrl(data.callbackUrl.value) && !Truthy(data.events) ==>
      ValidateWebhookData(data, isUrl) == [InvalidParam(FieldEvents, ReasonEventsObligatoire)]
    ensures Present(data.callbackUrl) && isUrl(data.callbackUrl.value) && data.events.Str? && data.events.s != "" ==>
      ValidateWebhookData(data, isUrl) == [InvalidParam(FieldEvents, ReasonEventsInvalides)]
    ensures Present(data.callbackUrl) && isUrl(data.callbackUrl.value) && data.events == Arr([]) ==>
      ValidateWebhookData(data, isUrl) == []
    ensures !Truthy(data.events) ==>
      var errors := ValidateWebhookData(data, isUrl);
      |errors| > 0 && errors[|errors| - 1] == InvalidParam(FieldEvents, ReasonEventsObligatoire)
    ensures Truthy(data.events) && !ValidateEvents(data.events) ==>
      var errors := ValidateWebhookData(data, isUrl);
      |errors| > 0 && errors[|errors| - 1] == InvalidParam(FieldEvents, ReasonEventsInvalides)
  {
  }

  /**
   * The identifier check shared by consultation, modification, deletion and secret
   * renewal: the id must match the version-4 uuid pattern (the same one alias keys
   * use) and name a registered webhook.
   */
  function Lookup(ws: map<string, Webhook>, id: string): (r: Result<Webhook, Refusal>)
    ensures r.Ok? <==> IsValidCle(id) && id in ws
    ensures r.Ok? ==> r.value == ws[id]
    ensures !IsValidCle(id) ==> r == Err(IdInvalide)
    ensures IsValidCle(id) && id !in ws ==> r == Err(WebhookInconnu)
    ensures r.Err? ==> r.error.status == 400 || r.error.status == 404
  {
    if !IsValidCle(id) then Err(IdInvalide)
    else if id !in ws then Err(WebhookInconnu)
    else Ok(ws[id])
  }

  /**
   * The id pattern is checked before the registry: a malformed id is a 400 whatever the
   * registry holds, so a webhook created with a body `id` outside the pattern is stored
   * but can never be consulted, modified, renewed or deleted.
   */
  lemma MalformedIdUnreachable(ws: map<string, Webhook>, w: Webhook)
    requires !IsValidCle(w.id)
    ensures w.id in ws[w.id := w]
    ensures Lookup(ws[w.id := w], w.id) == Err(IdInvalide)
    ensures forall ws' :: Lookup(ws', w.id) == Err(IdInvalide)
  {
  }

  /** The webhook a valid modification body turns `w` into, at time `now`. */
  function Modified(w: Webhook, data: WebhookData, now: string): (m: Webhook)
    ensures m.id == w.id && m.secret == w.secret && m.dateCreation == w.dateCreation
    ensures m.callbackUrl == data.callbackUrl && m.events == data.events
    ensures m.alias == (if Present(data.alias) then data.alias else None)
    ensures m.dateModification == Some(now)
  {
    w.(callbackUrl := data.callbackUrl, events := data.events,
       alias := if Present(data.alias) then data.alias else None,
       dateModification := Some(now))
  }

  /** The registry: each webhook filed under its own id, at most ten of them. */
  ghost predicate RegistryOk(ws: map<string, Webhook>) {
    |ws| <= MaxWebhooks && forall k :: k in ws ==> ws[k].id == k
  }

  /**
   * Creation below the cap files the new webhook under its id, replacing any webhook
   * with the same id; either way the registry stays well formed and grows by at most one.
   */
  lemma {:induction false} FilingKeepsRegistry(ws: map<string, Webhook>, w: Webhook)
    requires RegistryOk(ws) && |ws| < MaxWebhooks
    ensures RegistryOk(ws[w.id := w])
    ensures |ws[w.id := w]| == if w.id in ws then |ws| else |ws| + 1
  {
    if w.id in ws {
      assert ws[w.id := w].Keys == ws.Keys;
    } else {
      assert ws[w.id := w].Keys == ws.Keys + {w.id};
    }
  }

  /** Modification and secret renewal keep the id, so the registry stays well formed. */
  lemma {:induction false} UpdateKeepsRegistry(ws: map<string, Webhook>, id: string, w: Webhook)
    requires RegistryOk(ws) && id in ws && w.id == id
    ensures RegistryOk(ws[id := w])
    ensures |ws[id := w]| == |ws|
  {
    assert ws[id := w].Keys == ws.Keys;
  }

  /** Deletion removes exactly one entry. */
  lemma {:induction false} DeleteKeepsRegistry(ws: map<string, Webhook>, id: string)
    requires RegistryOk(ws) && id in ws
    ensures RegistryOk(ws - {id})
    ensures |ws - {id}| == |ws| - 1
  {
    assert (ws - {id}).Keys == ws.Keys - {id};
  }

  /** The module-level `webhooks` map and the five handlers that use it. */
  class WebhookRegistry {
    var webhooks: map<string, Webhook>

    ghost predicate Valid()
      reads this
    {
      RegistryOk(webhooks)
    }

    constructor()
      ensures Valid() && webhooks == map[]
    {
      webhooks := map[];
    }

    /** `GET /webhooks/{id}`. */
    method Consulter(id: string) returns (reply: WebhookReply<Webhook>)
      requires Valid()
      ensures reply.Done? <==> IsValidCle(id) && id in webhooks
      ensures reply.Done? ==> reply == Done(200, webhooks[id])
      ensures reply.Refused? ==> reply.refusal == Lookup(webhooks, id).error
    {
      var found := Lookup(webhooks, id);
      if found.Err? {
        return Refused(found.error);
      }
      reply := Done(200, found.value);
    }

    /**
     * `POST /webhooks`: validation first, then the cap (checked on the registry's size,
     * so at ten even a replacement is refused), then the webhook is built and filed.
     */
    method Creer(data: WebhookData, isUrl: string -> bool, freshId: string, freshSecret: string, now: string)
      returns (reply: WebhookReply<Webhook>)
      requires Valid()
      modifies this
      ensures Valid()
      ensures ValidateWebhookData(data, isUrl) != [] ==>
        reply == Refused(DonneesInvalides(ValidateWebhookData(data, isUrl))) && webhooks == old(webhooks)
      ensures ValidateWebhookData(data, isUrl) == [] && |old(webhooks)| >= MaxWebhooks ==>
        reply == Refused(LimiteAtteinte) && webhooks == old(webhooks)
      ensures reply.Done? <==> ValidateWebhookData(data, isUrl) == [] && |old(webhooks)| < MaxWebhooks
      ensures reply.Done? ==>
        reply == Done(201, NewWebhook(data, freshId, freshSecret, now)) &&
        webhooks == old(webhooks)[reply.body.id := reply.body]
    {
      var errors := ValidateWebhookData(data, isUrl);
      if |errors| > 0 {
        return Refused(DonneesInvalides(errors));
      }
      if |webhooks| >= MaxWebhooks {
        return Refused(LimiteAtteinte);
      }
      var w := NewWebhook(data, freshId, freshSecret, now);
      FilingKeepsRegistry(webhooks, w);
      webhooks := webhooks[w.id := w];
      reply := Done(201, w);
    }

    /** `PUT /webhooks/{id}`: id checks, then validation, then the fields are replaced. */
    method Modifier(id: string, data: WebhookData, isUrl: string -> bool, now: string)
      returns (reply: WebhookReply<Webhook>)
      requires Valid()
      modifies this
      ensures Valid()
      ensures Lookup(old(webhooks), id).Err? ==>
        reply == Refused(Lookup(old(webhooks), id).error) && webhooks == old(webhooks)
      ensures Lookup(old(webhooks), id).Ok? && ValidateWebhookData(data, isUrl) != [] ==>
        reply == Refused(DonneesInvalides(ValidateWebhookData(data, isUrl))) && webhooks == old(webhooks)
      ensures reply.Done? <==> Lookup(old(webhooks), id).Ok? && ValidateWebhookData(data, isUrl) == []
      ensures reply.Done? ==>
        reply == Done(200, Modified(old(webhooks)[id], data, now)) &&
        webhooks == old(webhooks)[id := reply.body]
    {
      var found := Lookup(webhooks, id);
      if found.Err? {
        return Refused(found.error);
      }
      var errors := ValidateWebhookData(data, isUrl);
      if |errors| > 0 {
        return Refused(DonneesInvalides(errors));
      }
      var m := Modified(found.value, data, now);
      UpdateKeepsRegistry(webhooks, id, m);
      webhooks := webhooks[id := m];
      reply := Done(200, m);
    }

    /** `DELETE /webhooks/{id}`. */
    method Supprimer(id: string) returns (reply: WebhookReply<()>)
      requires Valid()
      modifies this
      ensures Valid()
      ensures Lookup(old(webhooks), id).Err? ==>
        reply == Refused(Lookup(old(webhooks), id).error) && webhooks == old(webhooks)
      ensures Lookup(old(webhooks), id).Ok? ==>
        reply == Done(204, ()) && webhooks == old(webhooks) - {id} && |webhooks| == |old(webhooks)| - 1
    {
      var found := Lookup(webhooks, id);
      if found.Err? {
        return Refused(found.error);
      }
      DeleteKeepsRegistry(webhooks, id);
      webhooks := webhooks - {id};
      reply := Done(204, ());
    }

    /** `POST /webhooks/{id}/secrets`: a new secret (a parameter here) and a new modification date. */
    method SecretRenouveler(id: string, freshSecret: string, now: string) returns (reply: WebhookReply<string>)
      requires Valid()
      modifies this
      ensures Valid()
      ensures Lookup(old(webhooks), id).Err? ==>
        reply == Refused(Lookup(old(webhooks), id).error) && webhooks == old(webhooks)
      ensures Lookup(old(webhooks), id).Ok? ==>
        reply == Done(200, freshSecret) &&
        webhooks == old(webhooks)[id := old(webhooks)[id].(secret := freshSecret, dateModification := Some(now))]
    {
      var found := Lookup(webhooks, id);
      if found.Err? {
        return Refused(found.error);
      }
      var w := found.value.(secret := freshSecret, dateModification := Some(now));
      UpdateKeepsRegistry(webhooks, id, w);
      webhooks := webhooks[id := w];
      reply := Done(200, freshSecret);
    }
  }
}
