/** The PayPal webhook (`POST /api/paypal/webhook`): the choice of the API
    base URL, the pre-check that guards the signature verification, and the
    one-way update of a booking to 'bezahlt' when a verified capture event
    matches it. The verification POST itself is outside the model; its
    outcome is an input. */
module PaypalController {
  import opened Common
  import opened Money
  import opened Entities
  import L = BuchungLifecycles

  const LiveBase := "https://api-m.paypal.com"
  const SandboxBase := "https://api-m.sandbox.paypal.com"

  /** `getPaypalBase`: PAYPAL_MODE (default 'sandbox'), lower-cased, picks
      the live or the sandbox API. */
  function PaypalBase(mode: Option<string>): string {
    var m := Lower(if Filled(mode) then mode.value else "sandbox");
    if m == "live" then LiveBase else SandboxBase
  }

  /** The live API is used exactly when the mode is set and lower-cases to
      'live'; an unset or empty mode means the sandbox. */
  lemma PaypalBaseLive(mode: Option<string>)
    ensures PaypalBase(mode) == LiveBase <==> Filled(mode) && Lower(mode.value) == "live"
    ensures PaypalBase(mode) == LiveBase || PaypalBase(mode) == SandboxBase
    ensures !Filled(mode) ==> PaypalBase(mode) == SandboxBase
  {
    assert Lower("sandbox") != "live" by { assert |Lower("sandbox")| == 7; }
  }

  // ---------------------------------------------------------------------
  // Signature verification

  /** The five transmission headers PayPal signs with. */
  datatype Headers = Headers(
    transmissionId: Option<string>, transmissionTime: Option<string>, certUrl: Option<string>,
    authAlgo: Option<string>, transmissionSig: Option<string>)

  /** What the verification round trip (token, then the verify POST)
      answers: it fails (a non-OK reply or a missing token throws), or it
      returns the `verification_status`. */
  datatype VerifyReply = VerifyFailed | VerifyStatus(status: Option<string>)

  /** The outcome of `verifySignature`: it throws, or it returns a boolean. */
  datatype Verification = Threw | Returned(ok: bool)

  /** The checks made before anything is sent: a webhook id is configured
      and all five headers are present and non-empty. */
  predicate PreCheck(webhookId: Option<string>, h: Headers) {
    Filled(webhookId)
    && Filled(h.transmissionId) && Filled(h.transmissionTime) && Filled(h.certUrl)
    && Filled(h.authAlgo) && Filled(h.transmissionSig)
  }

  /** `verifySignature`; `reply` is consulted only when the pre-check passes. */
  function VerifySignature(webhookId: Option<string>, h: Headers, reply: VerifyReply): (r: Verification)
    ensures !PreCheck(webhookId, h) ==> r == Returned(false)
    ensures r == Returned(true) <==> PreCheck(webhookId, h) && reply == VerifyStatus(Some("SUCCESS"))
    ensures r == Threw <==> PreCheck(webhookId, h) && reply.VerifyFailed?
  {
    if !PreCheck(webhookId, h) then Returned(false)
    else match reply
      case VerifyFailed => Threw
      case VerifyStatus(s) => Returned(s == Some("SUCCESS"))
  }

  /** Without a webhook id or with a missing header the outcome does not
      depend on the remote side at all. */
  lemma PreCheckNeedsNoNetwork(webhookId: Option<string>, h: Headers, r1: VerifyReply, r2: VerifyReply)
    requires !PreCheck(webhookId, h)
    ensures VerifySignature(webhookId, h, r1) == VerifySignature(webhookId, h, r2) == Returned(false)
  {
  }

  // ---------------------------------------------------------------------
  // The webhook event

  /** `resource.amount` */
  datatype AmountIn = AmountIn(currency_code: JsVal, currencyCode: JsVal, value: JsVal, amount: JsVal)

  /** `resource`: `amount` is None when it is absent. */
  datatype Resource = Resource(id: JsVal, capture_id: JsVal, amount: Option<AmountIn>)

  /** The fields of the event body that the handler reads. */
  datatype WebhookBody = WebhookBody(event_type: JsVal, eventType: JsVal, resource: Option<Resource>)

  /** The acknowledgement: always status 200; `verified` is absent when
      the handler caught an exception. */
  datatype Ack = Ack(status: int, ok: bool, verified: Option<bool>)

  /** `body.event_type || body.eventType` */
  function EventType(b: WebhookBody): JsVal {
    Or(b.event_type, b.eventType)
  }

  /** `resource.id || resource.capture_id` */
  function CaptureId(b: WebhookBody): JsVal {
    if b.resource.Some? then Or(b.resource.value.id, b.resource.value.capture_id) else Undefined
  }

  /** `amt.currency_code || amt.currencyCode || null` */
  function Currency(b: WebhookBody): JsVal {
    if b.resource.Some? && b.resource.value.amount.Some? then
      Or(Or(b.resource.value.amount.value.currency_code, b.resource.value.amount.value.currencyCode), Null)
    else Null
  }

  /** `amt.value || amt.amount || null` */
  function ValueString(b: WebhookBody): JsVal {
    if b.resource.Some? && b.resource.value.amount.Some? then
      Or(Or(b.resource.value.amount.value.value, b.resource.value.amount.value.amount), Null)
    else Null
  }

  /** `valStr ? Number(valStr) : NaN` as an exact decimal in euros; None is
      NaN. A JS number is a whole number of euros here. */
  function ValueAmount(x: JsVal): (r: Option<Amount>)
    ensures !Truthy(x) ==> r.None?
    ensures x.StrV? && x.s != "" ==> r == ParseAmount(x.s)
  {
    if !Truthy(x) then None
    else match x
      case StrV(s) => ParseAmount(s)
      case NumV(n) => Some(Amount(n.v, 0))
      case Bool(_) => Some(Amount(1, 0))
      case _ => None
  }

  /** Whether a stored booking carries the capture id as its payment
      reference or as its PayPal capture id. */
  predicate Matches(b: Buchung, captureId: string) {
    b.zahlungsreferenz == Some(captureId) || b.paypalCaptureId == Some(captureId)
  }

  /** The index of the first booking that matches (the store's `findOne`). */
  function FindBooking(buchungen: seq<Buchung>, captureId: string): (r: Option<nat>)
    ensures r.Some? ==> r.value < |buchungen| && Matches(buchungen[r.value], captureId)
                        && forall j :: 0 <= j < r.value ==> !Matches(buchungen[j], captureId)
    ensures r.None? <==> forall j :: 0 <= j < |buchungen| ==> !Matches(buchungen[j], captureId)
  {
    if buchungen == [] then None
    else if Matches(buchungen[0], captureId) then Some(0)
    else match FindBooking(buchungen[1..], captureId)
      case Some(i) => Some(i + 1)
      case None => None
  }

  /** The booking after the webhook's update: paid, by PayPal, with the
      capture id as the reference; nothing else changes. */
  function MarkPaid(b: Buchung, captureId: string): Buchung {
    b.(buchungsstatus := Bezahlt, zahlungsmethode := Some("paypal"), zahlungsreferenz := Some(captureId))
  }

  /** The amount check: EUR exactly, a stored total that is a number, and a
      value within one cent of it. */
  predicate AmountOk(b: WebhookBody, existing: Buchung) {
    Currency(b) == StrV("EUR")
    && existing.gesamtpreisBrutto.Some?
    && ValueAmount(ValueString(b)).Some?
    && WithinOneCent(ValueAmount(ValueString(b)).value, existing.gesamtpreisBrutto.value)
  }

  /** The index of the booking a verified event would update, if any. */
  function Target(buchungen: seq<Buchung>, b: WebhookBody): (r: Option<nat>)
    ensures r.Some? ==> r.value < |buchungen|
  {
    var cid := CaptureId(b);
    if EventType(b) != StrV("PAYMENT.CAPTURE.COMPLETED") || !Truthy(cid) then None
    else
      var found := FindBooking(buchungen, JsString(cid));
      if found.Some? && AmountOk(b, buchungen[found.value]) then found else None
  }

  /** The effect of one delivery: `readOk` and `updateOk` are false when
      the store's find or update throws. */
  function WebhookEffect(buchungen: seq<Buchung>, b: WebhookBody, verified: Verification,
                         readOk: bool, updateOk: bool): seq<Buchung>
  {
    var t := Target(buchungen, b);
    if verified == Returned(true) && readOk && updateOk && t.Some? then
      buchungen[t.value := MarkPaid(buchungen[t.value], JsString(CaptureId(b)))]
    else buchungen
  }

  /** The acknowledgement of one delivery. */
  function WebhookAck(buchungen: seq<Buchung>, b: WebhookBody, verified: Verification,
                      readOk: bool, updateOk: bool): Ack
  {
    if verified != Returned(true) then Ack(200, true, Some(false))
    else
      var cid := CaptureId(b);
      var lookedUp := EventType(b) == StrV("PAYMENT.CAPTURE.COMPLETED") && Truthy(cid);
      if lookedUp && !readOk then Ack(200, true, None)
      else if lookedUp && Target(buchungen, b).Some? && !updateOk then Ack(200, true, None)
      else Ack(200, true, Some(true))
  }

  /** The `data` of the webhook's update: status, method and reference,
      and no participants. */
  function StatusFields(captureId: string): map<string, JsVal> {
    map["buchungsstatus" := StrV("bezahlt"), "zahlungsmethode" := StrV("paypal"),
        "zahlungsreferenz" := StrV(captureId)]
  }

  /** The update goes through when the booking's update hook (as written
      or corrected) accepts the status data and the store does not throw. */
  predicate UpdateGoesThrough(hook: L.UpdateHookVersion, storeOk: bool, captureId: string, termine: map<int, Termin>) {
    storeOk && L.RunUpdateHook(hook, L.NotAList(false), StatusFields(captureId), termine).0.None?
  }

  /** `handleWebhook`: verify, then for a completed capture find the
      booking and, when currency and amount agree, mark it paid through an
      update that runs the booking's update hook. */
  method HandleWebhook(db: Db, b: WebhookBody, verified: Verification, readOk: bool,
                       hook: L.UpdateHookVersion, storeOk: bool)
    returns (ack: Ack)
    modifies db`buchungen
    ensures var updateOk := UpdateGoesThrough(hook, storeOk, JsString(CaptureId(b)), old(db.termine));
      db.buchungen == WebhookEffect(old(db.buchungen), b, verified, readOk, updateOk)
      && ack == WebhookAck(old(db.buchungen), b, verified, readOk, updateOk)
    ensures ack.status == 200
  {
    var isVerified := verified == Returned(true);
    if !isVerified {
      return Ack(200, true, Some(false));
    }
    if EventType(b) == StrV("PAYMENT.CAPTURE.COMPLETED") {
      var captureId := CaptureId(b);
      if Truthy(captureId) {
        if !readOk {
          return Ack(200, true, None);
        }
        var existing := FindBooking(db.buchungen, JsString(captureId));
        if existing.Some? {
          if Currency(b) != StrV("EUR") {
            // currency mismatch: logged only
          } else if AmountOk(b, db.buchungen[existing.value]) {
            var data := new L.HookData(L.NotAList(false), StatusFields(JsString(captureId)));
            var err;
            if hook.UpdateAsWritten? {
              err := L.BeforeUpdate(data, db.termine);
            } else {
              err := L.BeforeUpdateFixed(data, db.termine);
            }
            if err.Some? || !storeOk {
              return Ack(200, true, None);
            }
            db.buchungen := db.buchungen[existing.value := MarkPaid(db.buchungen[existing.value], JsString(captureId))];
          }
        }
      }
    }
    ack := Ack(200, true, Some(true));
  }

  // ---------------------------------------------------------------------
  // Properties of one delivery

  /** An unverified event, also one whose verification threw, is
      acknowledged with verified:false and changes nothing. */
  lemma UnverifiedChangesNothing(buchungen: seq<Buchung>, b: WebhookBody, verified: Verification,
                                 readOk: bool, updateOk: bool)
    requires verified != Returned(true)
    ensures WebhookEffect(buchungen, b, verified, readOk, updateOk) == buchungen
    ensures WebhookAck(buchungen, b, verified, readOk, updateOk) == Ack(200, true, Some(false))
  {
  }

  /** A booking changes exactly when the event is verified, is a completed
      capture with a capture id, names a booking (the first match) whose
      stored total is a number, is in EUR and within one cent of that total,
      and the store accepts the update. */
  lemma WebhookChangesOnlyWhenPaid(buchungen: seq<Buchung>, b: WebhookBody, verified: Verification,
                                   readOk: bool, updateOk: bool)
    ensures var after := WebhookEffect(buchungen, b, verified, readOk, updateOk);
      var cid := CaptureId(b);
      var found := FindBooking(buchungen, JsString(cid));
      (after != buchungen ==>
         verified == Returned(true) && readOk && updateOk
         && EventType(b) == StrV("PAYMENT.CAPTURE.COMPLETED") && Truthy(cid)
         && found.Some? && Currency(b) == StrV("EUR")
         && buchungen[found.value].gesamtpreisBrutto.Some?
         && ValueAmount(ValueString(b)).Some?
         && WithinOneCent(ValueAmount(ValueString(b)).value, buchungen[found.value].gesamtpreisBrutto.value))
      && (verified == Returned(true) && readOk && updateOk
          && EventType(b) == StrV("PAYMENT.CAPTURE.COMPLETED") && Truthy(cid)
          && found.Some? && AmountOk(b, buchungen[found.value]) ==>
            after == buchungen[found.value := MarkPaid(buchungen[found.value], JsString(cid))])
  {
  }

  /** Only the matched booking changes, and only in its status, payment
      method and reference; no booking is ever set back to 'offen'. */
  lemma WebhookFrame(buchungen: seq<Buchung>, b: WebhookBody, verified: Verification, readOk: bool, updateOk: bool)
    ensures var after := WebhookEffect(buchungen, b, verified, readOk, updateOk);
      |after| == |buchungen|
      && (forall i :: 0 <= i < |after| && after[i] != buchungen[i] ==>
            Target(buchungen, b) == Some(i)
            && after[i] == buchungen[i].(buchungsstatus := Bezahlt, zahlungsmethode := Some("paypal"),
                                         zahlungsreferenz := Some(JsString(CaptureId(b)))))
      && (forall i :: 0 <= i < |after| ==> after[i].buchungsstatus == Bezahlt || after[i] == buchungen[i])
  {
  }

  /** Redelivering an event leaves the state of the first delivery. */
  lemma {:induction false} WebhookIdempotent(buchungen: seq<Buchung>, b: WebhookBody, verified: Verification,
                                             readOk: bool, updateOk: bool)
    ensures var once := WebhookEffect(buchungen, b, verified, readOk, updateOk);
      WebhookEffect(once, b, verified, readOk, updateOk) == once
  {
    var once := WebhookEffect(buchungen, b, verified, readOk, updateOk);
    var t := Target(buchungen, b);
    if verified == Returned(true) && readOk && updateOk && t.Some? {
      var cid := JsString(CaptureId(b));
      var i := t.value;
      assert once[i] == MarkPaid(buchungen[i], cid);
      assert Matches(once[i], cid);
      assert forall j :: 0 <= j < i ==> once[j] == buchungen[j];
      FindBookingFirst(once, cid, i);
      assert once[i].gesamtpreisBrutto == buchungen[i].gesamtpreisBrutto;
      assert Target(once, b) == Some(i);
      assert MarkPaid(once[i], cid) == once[i];
      assert once[i := MarkPaid(once[i], cid)] == once;
    }
  }

  /** As written, the update hook refuses the status update, so a delivery
      never changes a booking; a verified completed capture whose booking
      passes the amount check is answered without `verified`, as the
      thrown error is caught. */
  lemma WebhookNeverPaysAsWritten(buchungen: seq<Buchung>, b: WebhookBody, verified: Verification,
                                  readOk: bool, storeOk: bool, termine: map<int, Termin>)
    ensures var updateOk := UpdateGoesThrough(L.UpdateAsWritten, storeOk, JsString(CaptureId(b)), termine);
      WebhookEffect(buchungen, b, verified, readOk, updateOk) == buchungen
      && (verified == Returned(true) && readOk && Target(buchungen, b).Some? ==>
            WebhookAck(buchungen, b, verified, readOk, updateOk) == Ack(200, true, None))
  {
    L.StatusUpdateRefused(JsString(CaptureId(b)), termine);
  }

  /** With the corrected hook the status update passes the hook, so the
      update goes through exactly when the store accepts it. */
  lemma UpdateGoesThroughCorrected(storeOk: bool, captureId: string, termine: map<int, Termin>)
    ensures UpdateGoesThrough(L.UpdateCorrected, storeOk, captureId, termine) == storeOk
  {
    L.StatusUpdateAcceptedFixed(captureId, termine);
  }

  /** The first match is found at `i` when nothing before it matches. */
  lemma {:induction false} FindBookingFirst(buchungen: seq<Buchung>, captureId: string, i: nat)
    requires i < |buchungen| && Matches(buchungen[i], captureId)
    requires forall j :: 0 <= j < i ==> !Matches(buchungen[j], captureId)
    ensures FindBooking(buchungen, captureId) == Some(i)
  {
    if i > 0 {
      assert forall j :: 0 <= j < i - 1 ==> buchungen[1..][j] == buchungen[j + 1];
      FindBookingFirst(buchungen[1..], captureId, i - 1);
    }
  }
}
