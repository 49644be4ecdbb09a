/** The public booking endpoints: `publicCreate` (accept a booking from
    the checkout, optionally verifying a PayPal capture) and `publicGet`
    (a booking's status and totals without personal data). */
module BuchungController {
  import opened Common
  import opened Money
  import opened Entities
  import opened GutscheinController
  import L = BuchungLifecycles

  // ---------------------------------------------------------------------
  // Request and replies

  /** One participant as sent by the client. */
  datatype TeilnehmerIn = TeilnehmerIn(
    vorname: JsVal, nachname: JsVal, email: JsVal, geburtstag: JsVal,
    wsetCandidateNumber: JsVal, besondereBeduerfnisse: JsVal)

  /** `body.teilnehmer`: absent, present but not an array, or an array. */
  datatype TeilnehmerField = Absent | NotArray | Items(items: seq<TeilnehmerIn>)

  /** The fields of the request body that the endpoint reads. */
  datatype CreateBody = CreateBody(
    terminId: JsVal, termin: JsVal, paypalOrderId: JsVal, paypalCaptureId: JsVal,
    teilnehmer: TeilnehmerField, gutscheincode: JsVal, adresse: Adresse, rechnungstyp: Option<string>,
    agbAkzeptiert: JsVal, datenschutzGelesen: JsVal, newsletterOptIn: JsVal, notizen: Option<string>,
    zahlungsreferenz: JsVal, zahlungsmethode: Option<string>, buchungsstatus: JsVal)

  /** `ctx.request.body`: not an object, or an object. */
  datatype Request = NotAnObject | Body(body: CreateBody)

  /** The parts of a PayPal capture (`GET /v2/payments/captures/{id}`) that
      are checked. */
  datatype Capture = Capture(status: Option<string>, value: Option<string>, currency: Option<string>)

  /** What the outside world answers during one request. `orderCustomId` is
      the order's `purchase_units[0].custom_id` (LookupFailed when the
      credentials are missing or the token or order request fails);
      `capture` likewise for the capture. `voucherReadOk`, `kundeStoreOk`
      and `insertOk` are false when the respective store call throws
      (`insertOk` for a failure of the database itself, after the create
      hook has passed); `seminarReadOk` and `seminarRereadOk` likewise for
      the two reads of the seminar's standard price, the one for the
      voucher and the one for the capture check. `voucherPick` stands for
      the row the database returns when several spellings of the code are
      stored: the `$or` query fixes no order. */
  datatype Env = Env(
    today: string, orderCustomId: Lookup<JsVal>, capture: Lookup<Capture>,
    voucherReadOk: bool, voucherPick: nat, seminarReadOk: bool, seminarRereadOk: bool,
    kundeStoreOk: bool, insertOk: bool)

  /** How `publicCreate` hands the participants to the insert: as written,
      the relation-style object `{ create: [...] }`, which is not an array;
      corrected, the array of participants itself. */
  datatype ParticipantsAs = CreateObject | PlainArray

  datatype RejectReason =
    | UngueltigerPayload
    | UngueltigerTermin
    | KeinTeilnehmer
    | VornameFehlt(index: nat)
    | NachnameFehlt(index: nat)
    | NameKeinText(index: nat)      // `.trim` of a non-string throws a TypeError
    | CaptureNichtPruefbar          // credentials, token or capture request failed
    | CaptureNichtAbgeschlossen
    | WaehrungNichtEur
    | BetragWeichtAb
    | HookFehler(error: L.HookError)  // the create hook threw
    | SpeichernFehlgeschlagen

  datatype CreateResponse =
    | BadRequest(reason: RejectReason)
    | Created(id: nat, terminId: int, booking: Buchung)

  // ---------------------------------------------------------------------
  // Termin resolution

  /** `parseTermin`: `Number(v)` when finite. */
  function ParseTermin(v: JsVal): (r: Option<int>)
    ensures r.Some? <==> ToNumber(v).Fin?
  {
    var n := ToNumber(v);
    if n.Fin? then Some(n.v) else None
  }

  /** A termin id counts only when it is a non-zero number (`!terminId`). */
  predicate Usable(id: Option<int>) {
    id.Some? && id.value != 0
  }

  /** The termin id and the participant count carried by a custom_id of
      the form `slug|terminId|anzahl`; either is None when that part is
      missing or not a number. */
  function CustomIdParts(customId: JsVal): (Option<int>, Option<int>) {
    var parts := Split(JsString(customId), '|');
    var t := ToNumber(Part(parts, 1));
    var a := ToNumber(Part(parts, 2));
    (if t.Fin? then Some(t.v) else None, if a.Fin? then Some(a.v) else None)
  }

  /** The termin id (`terminId ?? termin`) and, when that is unusable and
      the request names a PayPal order, the ids recovered from the order's
      custom_id. */
  function ResolveTermin(b: CreateBody, orderCustomId: Lookup<JsVal>): (Option<int>, Option<int>) {
    var direct := ParseTermin(Coalesce(b.terminId, b.termin));
    if !Usable(direct) && Truthy(b.paypalOrderId) && orderCustomId.Found? && Truthy(orderCustomId.value) then
      var (t, a) := CustomIdParts(orderCustomId.value);
      (if t.Some? then t else direct, a)
    else (direct, None)
  }

  /** A usable direct id is taken as is, and the PayPal order is then not
      consulted; without a PayPal order no participant count is recovered. */
  lemma ResolveDirect(b: CreateBody, orderCustomId: Lookup<JsVal>)
    ensures var (t, a) := ResolveTermin(b, orderCustomId);
      var direct := ParseTermin(Coalesce(b.terminId, b.termin));
      (Usable(direct) ==> t == direct && a.None?)
      && (!Truthy(b.paypalOrderId) ==> t == direct && a.None?)
      && (Usable(t) ==> Usable(direct) || (Truthy(b.paypalOrderId) && orderCustomId.Found?))
  {
  }

  // ---------------------------------------------------------------------
  // Participants

  /** The check of one participant: vorname then nachname must be non-blank
      strings (`!t?.vorname?.trim()`). */
  function CheckOne(t: TeilnehmerIn, i: nat): Option<RejectReason> {
    if t.vorname.Undefined? || t.vorname.Null? || (t.vorname.StrV? && IsBlank(t.vorname.s)) then Some(VornameFehlt(i))
    else if !t.vorname.StrV? then Some(NameKeinText(i))
    else if t.nachname.Undefined? || t.nachname.Null? || (t.nachname.StrV? && IsBlank(t.nachname.s)) then Some(NachnameFehlt(i))
    else if !t.nachname.StrV? then Some(NameKeinText(i))
    else None
  }

  predicate NameGiven(x: JsVal) {
    x.StrV? && !IsBlank(x.s)
  }

  /** One participant passes exactly when both names are non-blank strings. */
  lemma CheckOneMeaning(t: TeilnehmerIn, i: nat)
    ensures CheckOne(t, i).None? <==> NameGiven(t.vorname) && NameGiven(t.nachname)
  {
  }

  /** The first failing participant check from index `i` on. */
  function CheckFrom(items: seq<TeilnehmerIn>, i: nat): (r: Option<RejectReason>)
    requires i <= |items|
    ensures r.Some? ==> r.value.VornameFehlt? || r.value.NachnameFehlt? || r.value.NameKeinText?
    ensures r.Some? ==> i <= r.value.index < |items|
    decreases |items| - i
  {
    if i == |items| then None
    else if CheckOne(items[i], i).Some? then CheckOne(items[i], i)
    else CheckFrom(items, i + 1)
  }

  /** `body.teilnehmer` must be a non-empty array whose entries all have a
      non-blank vorname and nachname. */
  function TeilnehmerError(f: TeilnehmerField): Option<RejectReason> {
    if !f.Items? || |f.items| < 1 then Some(KeinTeilnehmer) else CheckFrom(f.items, 0)
  }

  predicate AllNamed(items: seq<TeilnehmerIn>, i: nat)
    requires i <= |items|
  {
    forall j :: i <= j < |items| ==> NameGiven(items[j].vorname) && NameGiven(items[j].nachname)
  }

  /** The participant check passes exactly when every participant from
      index i on has a non-blank vorname and nachname. */
  lemma {:induction false} CheckFromMeaning(items: seq<TeilnehmerIn>, i: nat)
    requires i <= |items|
    ensures CheckFrom(items, i).None? <==> AllNamed(items, i)
    decreases |items| - i
  {
    if i < |items| {
      CheckFromMeaning(items, i + 1);
      CheckOneMeaning(items[i], i);
      AllNamedStep(items, i);
    }
  }

  lemma AllNamedStep(items: seq<TeilnehmerIn>, i: nat)
    requires i < |items|
    ensures AllNamed(items, i) <==> NameGiven(items[i].vorname) && NameGiven(items[i].nachname) && AllNamed(items, i + 1)
  {
  }

  /** When the check fails it names the first participant that fails. */
  lemma {:induction false} CheckFromFirst(items: seq<TeilnehmerIn>, i: nat) returns (k: nat)
    requires i <= |items| && CheckFrom(items, i).Some?
    ensures i <= k < |items| && CheckFrom(items, i) == CheckOne(items[k], k)
    ensures !(NameGiven(items[k].vorname) && NameGiven(items[k].nachname))
    ensures forall j :: i <= j < k ==> NameGiven(items[j].vorname) && NameGiven(items[j].nachname)
    decreases |items| - i
  {
    if CheckOne(items[i], i).Some? {
      k := i;
      CheckOneMeaning(items[i], i);
    } else {
      k := CheckFromFirst(items, i + 1);
      forall j | i <= j < k ensures NameGiven(items[j].vorname) && NameGiven(items[j].nachname) {
        if j == i {
          CheckOneMeaning(items[i], i);
        }
      }
    }
  }

  /** The stored form of a participant: names as strings, optional fields
      only when truthy. */
  function StoredTeilnehmer(t: TeilnehmerIn): (r: Teilnehmer)
    ensures NameGiven(t.vorname) ==> r.vorname == t.vorname.s
    ensures NameGiven(t.nachname) ==> r.nachname == t.nachname.s
  {
    Teilnehmer(JsString(Or(t.vorname, StrV(""))), JsString(Or(t.nachname, StrV(""))),
               TruthyString(t.email), TruthyString(t.geburtstag), TruthyString(t.wsetCandidateNumber),
               TruthyString(t.besondereBeduerfnisse))
  }

  /** `x ? String(x) : undefined` */
  function TruthyString(x: JsVal): Option<string> {
    if Truthy(x) then Some(JsString(x)) else None
  }

  function StoredTeilnehmerList(items: seq<TeilnehmerIn>): (r: seq<Teilnehmer>)
    ensures |r| == |items| && forall i :: 0 <= i < |items| ==> r[i] == StoredTeilnehmer(items[i])
  {
    if items == [] then [] else [StoredTeilnehmer(items[0])] + StoredTeilnehmerList(items[1..])
  }

  // ---------------------------------------------------------------------
  // Price and voucher

  /** The price per seat: the termin's price when it is a positive number,
      otherwise the seminar's standard price (`Number(..) || 0`), read from
      the store; when that read throws, the termin's own price is kept. */
  function SeatPrice(t: Termin, seminare: map<int, Seminar>, seminarReadOk: bool): Cents {
    var p := ColumnNumber(t.preis);
    if p.Fin? && p.v > 0 then p.v
    else if !seminarReadOk then (if p.Fin? then p.v else 0)
    else if t.seminar.Some? && t.seminar.value in seminare && seminare[t.seminar.value].standardPreis.Some?
            && seminare[t.seminar.value].standardPreis.value.Fin? then
      seminare[t.seminar.value].standardPreis.value.v
    else 0
  }

  /** A positive termin price is used as is; otherwise, with a working
      read, the seminar's finite standard price, or 0 when the seminar or
      its price is missing; a failing read leaves the termin's price, which
      is then at most 0. */
  lemma SeatPriceChoice(t: Termin, seminare: map<int, Seminar>, seminarReadOk: bool)
    ensures var p := ColumnNumber(t.preis); var s := SeatPrice(t, seminare, seminarReadOk);
      (p.Fin? && p.v > 0 ==> s == p.v)
      && (!(p.Fin? && p.v > 0) && seminarReadOk ==>
            (s != 0 ==>
               t.seminar.Some? && t.seminar.value in seminare
               && seminare[t.seminar.value].standardPreis == Some(Fin(s)))
            && (t.seminar.None? || t.seminar.value !in seminare ==> s == 0))
      && (!(p.Fin? && p.v > 0) && !seminarReadOk ==> s <= 0 && (p.Fin? ==> s == p.v))
  {
  }

  /** The trimmed code when `gutscheincode` is a non-blank string. */
  function VoucherCode(x: JsVal): (r: Option<string>)
    ensures r.Some? <==> x.StrV? && !IsBlank(x.s)
  {
    if x.StrV? && !IsBlank(x.s) then Some(Trim(x.s)) else None
  }

  /** The spellings of the code that are stored, among the code as typed,
      upper-cased and lower-cased. */
  function StoredSpellings(code: string, gutscheine: map<string, Gutschein>): (r: seq<string>)
    ensures forall i :: 0 <= i < |r| ==> r[i] in gutscheine
  {
    (if code in gutscheine then [code] else [])
    + (if Upper(code) in gutscheine then [Upper(code)] else [])
    + (if Lower(code) in gutscheine then [Lower(code)] else [])
  }

  /** The code is stored, and under no other of its three spellings. */
  predicate OnlySpelling(code: string, gutscheine: map<string, Gutschein>) {
    code in gutscheine
    && (Upper(code) in gutscheine ==> Upper(code) == code)
    && (Lower(code) in gutscheine ==> Lower(code) == code)
  }

  /** `findOne` over `code = c OR code = C.upper OR code = c.lower`: one of
      the stored spellings, which one being up to the database (`pick`). */
  function FindVoucher(code: string, gutscheine: map<string, Gutschein>, pick: nat): (r: Option<Gutschein>)
  {
    var found := StoredSpellings(code, gutscheine);
    if found == [] then None else Some(gutscheine[found[pick % |found|]])
  }

  /** A voucher is found exactly when one of the three spellings is stored,
      and it is the voucher of one of them; when the code is stored under
      no other spelling, it is the voucher stored under the code, whatever
      the database picks. */
  lemma FindVoucherMeaning(code: string, gutscheine: map<string, Gutschein>, pick: nat)
    ensures var r := FindVoucher(code, gutscheine, pick);
      (r.Some? <==> code in gutscheine || Upper(code) in gutscheine || Lower(code) in gutscheine)
      && (r.Some? ==> (code in gutscheine && r.value == gutscheine[code])
                      || (Upper(code) in gutscheine && r.value == gutscheine[Upper(code)])
                      || (Lower(code) in gutscheine && r.value == gutscheine[Lower(code)]))
      && (OnlySpelling(code, gutscheine) ==> r == Some(gutscheine[code]))
  {
    var found := StoredSpellings(code, gutscheine);
    if found != [] {
      var k := pick % |found|;
      assert found[k] == code || found[k] == Upper(code) || found[k] == Lower(code);
      if OnlySpelling(code, gutscheine) {
        assert forall i :: 0 <= i < |found| ==> found[i] == code;
      }
    }
  }

  /** The discount (`rabattBrutto`) for `anz` seats: the voucher's discount
      on `stueck * anz` when a code is given, the voucher is found and
      active and the read succeeds; otherwise 0. */
  function BookingDiscount(code: Option<string>, gutscheine: map<string, Gutschein>, today: string,
                           readOk: bool, pick: nat, stueck: Cents, anz: int): Cents {
    if code.Some? && readOk then
      match FindVoucher(code.value, gutscheine, pick)
      case Some(v) => if IsActive(v, today) then Discount(v, Fin(stueck * anz)).v else 0
      case None => 0
    else 0
  }

  /** The total after discount: `round2(max(0, origTotal - rabatt))`, a
      negative discount counting as none (as the verifier does). */
  function Expected(stueck: Cents, anz: int, rabatt: Cents): (r: Cents)
    ensures r >= 0
    ensures rabatt <= 0 && stueck * anz >= 0 ==> r == stueck * anz
  {
    var rest := stueck * anz - (if rabatt > 0 then rabatt else 0);
    if rest >= 0 then rest else 0
  }

  /** The overriding price per seat: only with a positive discount and a
      positive count, as the rounded share of the discounted total. */
  function PriceOverride(stueck: Cents, anz: int, rabatt: Cents): (r: Option<Cents>)
    ensures r.Some? <==> rabatt > 0 && anz > 0
    ensures r.Some? ==> r.value >= 0 && r.value == RoundDiv(Expected(stueck, anz, rabatt), anz)
  {
    if rabatt > 0 && anz > 0 then
      var neu := Expected(stueck, anz, rabatt);
      RoundDivBounds(neu, anz);
      Some(RoundDiv(neu, anz))
    else None
  }

  // ---------------------------------------------------------------------
  // Customer

  /** `body.rechnungstyp || 'privat'` */
  function Rechnungstyp(b: CreateBody): string {
    if Filled(b.rechnungstyp) then b.rechnungstyp.value else "privat"
  }

  /** The e-mail the customer is found or created under: for a company
      invoice the invoice e-mail, else the contact e-mail. */
  function CustomerEmail(rechnungstyp: string, a: Adresse): (r: Option<string>)
    ensures rechnungstyp == "firma" && Filled(a.rechnungsEmail) ==> r == a.rechnungsEmail
    ensures rechnungstyp == "firma" && !Filled(a.rechnungsEmail) ==> r == a.email
    ensures rechnungstyp != "firma" ==> r == a.email
  {
    if rechnungstyp == "firma" then OrStr(a.rechnungsEmail, a.email) else a.email
  }

  /** Index of the first customer with this e-mail. */
  function FindKunde(kunden: seq<Kunde>, email: string): (r: Option<nat>)
    ensures r.Some? ==> r.value < |kunden| && kunden[r.value].email == email
    ensures r.None? <==> forall i :: 0 <= i < |kunden| ==> kunden[i].email != email
  {
    if kunden == [] then None
    else if kunden[0].email == email then Some(0)
    else match FindKunde(kunden[1..], email)
      case Some(i) => Some(i + 1)
      case None => None
  }

  function OrDash(s: Option<string>): string {
    if Filled(s) then s.value else "—"
  }

  /** The customer created for a booking. */
  function NewKunde(rechnungstyp: string, a: Adresse, email: string): Kunde {
    Kunde(OrDash(a.vorname),
          if Filled(a.nachname) then a.nachname.value
          else if rechnungstyp == "firma" then OrDash(a.firmenname) else "—",
          email, a.telefon, a.strasse, a.plz, a.stadt, a.land)
  }

  /** The customer list after linking and the id linked (1-based). */
  function LinkCustomer(kunden: seq<Kunde>, rechnungstyp: string, a: Adresse, storeOk: bool): (Option<int>, seq<Kunde>) {
    var e := CustomerEmail(rechnungstyp, a);
    if !Filled(e) || !storeOk then (None, kunden)
    else match FindKunde(kunden, e.value)
      case Some(i) => (Some(i + 1), kunden)
      case None => (Some(|kunden| + 1), kunden + [NewKunde(rechnungstyp, a, e.value)])
  }

  /** A customer is linked exactly when there is an e-mail and the store
      works; the linked customer carries that e-mail; an existing one is
      reused and otherwise exactly one is appended. */
  lemma LinkCustomerMeaning(kunden: seq<Kunde>, rechnungstyp: string, a: Adresse, storeOk: bool)
    ensures var (id, ks) := LinkCustomer(kunden, rechnungstyp, a, storeOk);
      var e := CustomerEmail(rechnungstyp, a);
      (id.Some? <==> Filled(e) && storeOk)
      && (id.Some? ==> 1 <= id.value <= |ks| && ks[id.value - 1].email == e.value)
      && (ks == kunden || (ks == kunden + [ks[|kunden|]] && id == Some(|ks|)))
      && (id.Some? && (exists i :: 0 <= i < |kunden| && kunden[i].email == e.value) ==> ks == kunden)
      && (id.None? ==> ks == kunden)
  {
  }

  // ---------------------------------------------------------------------
  // Capture verification

  function OrEmpty(s: Option<string>): string {
    if s.Some? then s.value else ""
  }

  /** The capture check: the capture could be fetched, its status is
      COMPLETED and its currency EUR (both case-insensitively) and its value
      is within one cent of `expected`. None means verified. */
  function CaptureCheck(capture: Lookup<Capture>, expected: Cents): (r: Option<RejectReason>)
    ensures r.Some? ==> r.value.CaptureNichtPruefbar? || r.value.CaptureNichtAbgeschlossen?
                        || r.value.WaehrungNichtEur? || r.value.BetragWeichtAb?
    ensures capture.LookupFailed? ==> r == Some(CaptureNichtPruefbar)
  {
    if capture.LookupFailed? then Some(CaptureNichtPruefbar)
    else if Upper(OrEmpty(capture.value.status)) != "COMPLETED" then Some(CaptureNichtAbgeschlossen)
    else if Upper(OrEmpty(capture.value.currency)) != "EUR" then Some(WaehrungNichtEur)
    else if !Filled(capture.value.value) || ParseAmount(capture.value.value.value).None?
            || !WithinOneCent(ParseAmount(capture.value.value.value).value, expected) then Some(BetragWeichtAb)
    else None
  }

  /** A capture passes exactly when it was fetched, is COMPLETED and in EUR
      ignoring case, and carries a numeric value within one cent of the
      expected total. */
  lemma CaptureCheckMeaning(capture: Lookup<Capture>, expected: Cents)
    ensures CaptureCheck(capture, expected).None? <==>
      capture.Found? && Upper(OrEmpty(capture.value.status)) == "COMPLETED"
      && Upper(OrEmpty(capture.value.currency)) == "EUR"
      && Filled(capture.value.value) && ParseAmount(capture.value.value.value).Some?
      && WithinOneCent(ParseAmount(capture.value.value.value).value, expected)
  {
  }

  // ---------------------------------------------------------------------
  // The booking plan

  /** What one `publicCreate` does: its response, the customer list after
      it, and the booking it inserts, if any. */
  datatype Plan = Plan(resp: CreateResponse, kunden: seq<Kunde>, inserted: Option<Buchung>)

  /** The reply and the store after carrying out plan p on the bookings
      `before`. */
  predicate Follows(p: Plan, resp: CreateResponse, kunden: seq<Kunde>, buchungen: seq<Buchung>, before: seq<Buchung>) {
    resp == p.resp && kunden == p.kunden
    && buchungen == before + (if p.inserted.Some? then [p.inserted.value] else [])
  }

  /** The booking record before customer, payment fields and status are
      filled in (`baseData` with the participants and the termin). */
  function BaseBooking(b: CreateBody, items: seq<TeilnehmerIn>, terminId: int, override: Option<Cents>): Buchung {
    Buchung(b.adresse, Rechnungstyp(b), Some(|items|), override,
            if b.gutscheincode.StrV? then Some(b.gutscheincode.s) else None,
            Truthy(b.agbAkzeptiert), Truthy(b.datenschutzGelesen), Truthy(b.newsletterOptIn), b.notizen,
            StoredTeilnehmerList(items), terminId, None, None, None, Offen, None, None, None, None)
  }

  /** `zahlungsreferenz` and `zahlungsmethode`: a capture id sets both
      (method 'paypal'), otherwise a given reference is copied; an explicit
      method overrides. */
  function PaymentFields(b: CreateBody): (Option<string>, Option<string>) {
    var ref := if Truthy(b.paypalCaptureId) then Some(JsString(b.paypalCaptureId))
               else if Truthy(b.zahlungsreferenz) then Some(JsString(b.zahlungsreferenz)) else None;
    var m := if Filled(b.zahlungsmethode) then b.zahlungsmethode
             else if Truthy(b.paypalCaptureId) then Some("paypal") else None;
    (ref, m)
  }

  /** The booking before verification: the base data with the linked
      customer and the payment fields, status 'offen'. */
  function Payload(b: CreateBody, items: seq<TeilnehmerIn>, terminId: int, override: Option<Cents>,
                   kundeId: Option<int>): Buchung {
    var base := BaseBooking(b, items, terminId, override);
    WithPayment(if kundeId.Some? then base.(kunde := kundeId) else base, b)
  }

  /** A payload with the payment fields of the request and the status
      'offen'. */
  function WithPayment(p: Buchung, b: CreateBody): Buchung {
    p.(zahlungsreferenz := PaymentFields(b).0, zahlungsmethode := PaymentFields(b).1, buchungsstatus := Offen)
  }

  /** The plan once the termin and the participants are accepted. The
      voucher is priced with the first read of the seminar's price, the
      capture is checked against the total from the second. */
  function AcceptPlan(b: CreateBody, items: seq<TeilnehmerIn>, terminId: int, termin: Termin, anz: int,
                      termine: map<int, Termin>, seminare: map<int, Seminar>, gutscheine: map<string, Gutschein>,
                      kunden: seq<Kunde>, nextId: nat, env: Env, shape: ParticipantsAs): Plan
  {
    var stueck := SeatPrice(termin, seminare, env.seminarReadOk);
    var rabatt := BookingDiscount(VoucherCode(b.gutscheincode), gutscheine, env.today, env.voucherReadOk,
                                  env.voucherPick, stueck, anz);
    var link := LinkCustomer(kunden, Rechnungstyp(b), b.adresse, env.kundeStoreOk);
    InsertPlan(Payload(b, items, terminId, PriceOverride(stueck, anz, rabatt), link.0), b,
               Expected(SeatPrice(termin, seminare, env.seminarRereadOk), anz, rabatt),
               terminId, termine, env, shape, link.1, nextId)
  }

  /** What the create hook sees of the participants. */
  function InsertParticipants(shape: ParticipantsAs, n: nat): (r: L.Participants)
    ensures shape.CreateObject? ==> L.TeilnehmerCheck(r).Some?
    ensures shape.PlainArray? ==> (L.TeilnehmerCheck(r).None? <==> n >= 1)
  {
    if shape.CreateObject? then L.NotAList(true) else L.List(n)
  }

  function OptText(x: Option<string>): JsVal {
    if x.Some? then StrV(x.value) else Undefined
  }

  /** The scalar fields of the payload that the create hook reads: the
      invoice type, the company fields and the termin; the payload carries
      no `preisProPlatz`. */
  function HookFields(p: Buchung): map<string, JsVal> {
    map["rechnungstyp" := StrV(p.rechnungstyp), "termin" := NumV(Fin(p.termin)),
        "firmenname" := OptText(p.adresse.firmenname), "rechnungsEmail" := OptText(p.adresse.rechnungsEmail),
        "strasse" := OptText(p.adresse.strasse), "plz" := OptText(p.adresse.plz),
        "stadt" := OptText(p.adresse.stadt), "land" := OptText(p.adresse.land)]
  }

  function NumField(v: JsVal): Option<Num> {
    if v.NumV? then Some(v.n) else None
  }

  /** The payload with the count and prices the create hook filled in. */
  function Normalised(p: Buchung, fields: map<string, JsVal>): Buchung {
    var a := L.Lookup(fields, "anzahl");
    p.(anzahl := if a.NumV? && a.n.Fin? then Some(a.n.v) else p.anzahl,
       preisProPlatz := NumField(L.Lookup(fields, "preisProPlatz")),
       gesamtpreis := NumField(L.Lookup(fields, "gesamtpreis")))
  }

  /** The plan for a prepared payload: with a capture id the capture must
      pass the check against the expected total and the booking is then
      'bezahlt'; the insert runs the create hook on the payload, whose
      error is the reply, and then stores the booking unless the store
      fails. */
  function InsertPlan(payload: Buchung, b: CreateBody, expected: Cents, terminId: int,
                      termine: map<int, Termin>, env: Env, shape: ParticipantsAs,
                      kunden: seq<Kunde>, nextId: nat): Plan
  {
    var check := if Truthy(b.paypalCaptureId) then CaptureCheck(env.capture, expected) else None;
    if check.Some? then Plan(BadRequest(check.value), kunden, None)
    else
      var paid := if Truthy(b.paypalCaptureId) then payload.(buchungsstatus := Bezahlt) else payload;
      var hook := L.CreateHook(InsertParticipants(shape, |paid.teilnehmer|), HookFields(paid), termine);
      if hook.0.Some? then Plan(BadRequest(HookFehler(hook.0.value)), kunden, None)
      else if !env.insertOk then Plan(BadRequest(SpeichernFehlgeschlagen), kunden, None)
      else
        var booking := Normalised(paid, hook.1);
        Plan(Created(nextId, terminId, booking), kunden, Some(booking))
  }

  /** `publicCreate` as a function of the request, the store and the
      replies. `nextId` is the id the store gives the next booking. */
  function CreatePlan(req: Request, termine: map<int, Termin>, seminare: map<int, Seminar>,
                      gutscheine: map<string, Gutschein>, kunden: seq<Kunde>, nextId: nat, env: Env,
                      shape: ParticipantsAs): Plan
  {
    if req.NotAnObject? then Plan(BadRequest(UngueltigerPayload), kunden, None)
    else
      var resolved := ResolveTermin(req.body, env.orderCustomId);
      TerminPlan(req.body, resolved.0, resolved.1, termine, seminare, gutscheine, kunden, nextId, env, shape)
  }

  /** The plan once the termin id and the participant count from the
      PayPal order are resolved. */
  function TerminPlan(b: CreateBody, terminId: Option<int>, teilnehmerAnzahl: Option<int>,
                      termine: map<int, Termin>, seminare: map<int, Seminar>,
                      gutscheine: map<string, Gutschein>, kunden: seq<Kunde>, nextId: nat, env: Env,
                      shape: ParticipantsAs): Plan
  {
    if !Usable(terminId) || terminId.value !in termine then Plan(BadRequest(UngueltigerTermin), kunden, None)
    else if TeilnehmerError(b.teilnehmer).Some? then Plan(BadRequest(TeilnehmerError(b.teilnehmer).value), kunden, None)
    else
      var items := b.teilnehmer.items;
      var anz := if Usable(teilnehmerAnzahl) then teilnehmerAnzahl.value else |items|;
      AcceptPlan(b, items, terminId.value, termine[terminId.value], anz, termine, seminare, gutscheine, kunden, nextId, env, shape)
  }

  /** The plan for a known termin and a valid participant list is the
      plan for that termin and those participants. */
  lemma TerminPlanAccepts(b: CreateBody, terminId: Option<int>, teilnehmerAnzahl: Option<int>,
                          termine: map<int, Termin>, seminare: map<int, Seminar>,
                          gutscheine: map<string, Gutschein>, kunden: seq<Kunde>, nextId: nat, env: Env,
                          shape: ParticipantsAs)
    requires Usable(terminId) && terminId.value in termine && TeilnehmerError(b.teilnehmer).None?
    ensures b.teilnehmer.Items? && |b.teilnehmer.items| >= 1
    ensures var anz := if Usable(teilnehmerAnzahl) then teilnehmerAnzahl.value else |b.teilnehmer.items|;
      TerminPlan(b, terminId, teilnehmerAnzahl, termine, seminare, gutscheine, kunden, nextId, env, shape)
      == AcceptPlan(b, b.teilnehmer.items, terminId.value, termine[terminId.value], anz, termine, seminare,
                    gutscheine, kunden, nextId, env, shape)
  {
  }

  // ---------------------------------------------------------------------
  // The endpoint

  /** `publicCreate`: checks the request step by step, links the customer,
      fills in the payment fields, verifies a PayPal capture and inserts the
      booking. */
  method PublicCreate(db: Db, req: Request, env: Env, shape: ParticipantsAs) returns (resp: CreateResponse)
    modifies db`kunden, db`buchungen
    ensures var p := CreatePlan(req, old(db.termine), old(db.seminare), old(db.gutscheine), old(db.kunden),
                                |old(db.buchungen)| + 1, env, shape);
      Follows(p, resp, db.kunden, db.buchungen, old(db.buchungen))
  {
    if req.NotAnObject? {
      return BadRequest(UngueltigerPayload);
    }
    var terminId, teilnehmerAnzahl := ResolveTerminStep(req.body, env.orderCustomId);
    resp := CreateWithTermin(db, req.body, terminId, teilnehmerAnzahl, env, shape);
  }

  /** `publicCreate` from the termin check on: an unknown termin and an
      invalid participant list are refused before anything is written. */
  method CreateWithTermin(db: Db, body: CreateBody, terminId: Option<int>, teilnehmerAnzahl: Option<int>, env: Env,
                          shape: ParticipantsAs)
    returns (resp: CreateResponse)
    modifies db`kunden, db`buchungen
    ensures var p := TerminPlan(body, terminId, teilnehmerAnzahl, old(db.termine), old(db.seminare),
                                old(db.gutscheine), old(db.kunden), |old(db.buchungen)| + 1, env, shape);
      Follows(p, resp, db.kunden, db.buchungen, old(db.buchungen))
  {
    if !Usable(terminId) || terminId.value !in db.termine {
      return BadRequest(UngueltigerTermin);
    }
    var failure := CheckTeilnehmerField(body.teilnehmer);
    if failure.Some? {
      return BadRequest(failure.value);
    }
    resp := CreateAccepted(db, body, terminId, teilnehmerAnzahl, env, shape);
  }

  /** `publicCreate` once the termin is known and the participants are
      valid. */
  method CreateAccepted(db: Db, body: CreateBody, terminId: Option<int>, teilnehmerAnzahl: Option<int>, env: Env,
                        shape: ParticipantsAs)
    returns (resp: CreateResponse)
    requires Usable(terminId) && terminId.value in db.termine && TeilnehmerError(body.teilnehmer).None?
    modifies db`kunden, db`buchungen
    ensures var p := TerminPlan(body, terminId, teilnehmerAnzahl, old(db.termine), old(db.seminare),
                                old(db.gutscheine), old(db.kunden), |old(db.buchungen)| + 1, env, shape);
      Follows(p, resp, db.kunden, db.buchungen, old(db.buchungen))
  {
    TerminPlanAccepts(body, terminId, teilnehmerAnzahl, db.termine, db.seminare, db.gutscheine, db.kunden,
                      |db.buchungen| + 1, env, shape);
    var items := body.teilnehmer.items;
    var anz := if Usable(teilnehmerAnzahl) then teilnehmerAnzahl.value else |items|;
    resp := AcceptBooking(db, body, items, terminId.value, db.termine[terminId.value], anz, env, shape);
  }

  /** The termin id: `terminId ?? termin`, or, when that is not a usable
      number and a PayPal order is named, the parts of the order's custom_id
      that are numbers. */
  method ResolveTerminStep(body: CreateBody, orderCustomId: Lookup<JsVal>)
    returns (terminId: Option<int>, teilnehmerAnzahl: Option<int>)
    ensures (terminId, teilnehmerAnzahl) == ResolveTermin(body, orderCustomId)
    ensures Usable(ParseTermin(Coalesce(body.terminId, body.termin))) ==> teilnehmerAnzahl.None?
  {
    terminId := ParseTermin(Coalesce(body.terminId, body.termin));
    teilnehmerAnzahl := None;
    if !Usable(terminId) && Truthy(body.paypalOrderId) {
      if orderCustomId.Found? && Truthy(orderCustomId.value) {
        var (maybeTermin, maybeAnzahl) := CustomIdParts(orderCustomId.value);
        if maybeTermin.Some? {
          terminId := maybeTermin;
        }
        if maybeAnzahl.Some? {
          teilnehmerAnzahl := maybeAnzahl;
        }
      }
    }
  }

  /** The participant checks: a non-empty array, then the loop. */
  method CheckTeilnehmerField(f: TeilnehmerField) returns (failure: Option<RejectReason>)
    ensures failure == TeilnehmerError(f)
    ensures failure.None? ==> f.Items? && |f.items| >= 1
  {
    if !f.Items? || |f.items| < 1 {
      return Some(KeinTeilnehmer);
    }
    failure := CheckTeilnehmer(f.items);
  }

  /** The participant loop: the first participant without a non-blank
      vorname or nachname, in that order of checks. */
  method CheckTeilnehmer(items: seq<TeilnehmerIn>) returns (failure: Option<RejectReason>)
    ensures failure == CheckFrom(items, 0)
    ensures failure.None? <==> AllNamed(items, 0)
  {
    var i := 0;
    while i < |items|
      invariant 0 <= i <= |items|
      invariant CheckFrom(items, 0) == CheckFrom(items, i)
    {
      var check := CheckOne(items[i], i);
      if check.Some? {
        return check;
      }
      i := i + 1;
    }
    CheckFromMeaning(items, 0);
    return None;
  }

  /** The part of `publicCreate` after the termin and the participants are
      accepted. */
  method AcceptBooking(db: Db, body: CreateBody, items: seq<TeilnehmerIn>, terminId: int, termin: Termin,
                       anz: int, env: Env, shape: ParticipantsAs) returns (resp: CreateResponse)
    modifies db`kunden, db`buchungen
    ensures var p := AcceptPlan(body, items, terminId, termin, anz, old(db.termine), old(db.seminare), old(db.gutscheine),
                                old(db.kunden), |old(db.buchungen)| + 1, env, shape);
      Follows(p, resp, db.kunden, db.buchungen, old(db.buchungen))
  {
    var payload, expected := PrepareBooking(db, body, items, terminId, termin, anz, env);
    resp := VerifyAndInsert(db, payload, body, expected, terminId, env, shape);
  }

  /** The part of `publicCreate` before the capture check: the voucher,
      the base data, the customer link and the payment fields. */
  method PrepareBooking(db: Db, body: CreateBody, items: seq<TeilnehmerIn>, terminId: int, termin: Termin,
                        anz: int, env: Env) returns (payload: Buchung, expected: Cents)
    modifies db`kunden
    ensures var stueck := SeatPrice(termin, old(db.seminare), env.seminarReadOk);
      var rabatt := BookingDiscount(VoucherCode(body.gutscheincode), old(db.gutscheine), env.today, env.voucherReadOk,
                                    env.voucherPick, stueck, anz);
      var link := LinkCustomer(old(db.kunden), Rechnungstyp(body), body.adresse, env.kundeStoreOk);
      payload == Payload(body, items, terminId, PriceOverride(stueck, anz, rabatt), link.0)
      && expected == Expected(SeatPrice(termin, old(db.seminare), env.seminarRereadOk), anz, rabatt)
      && db.kunden == link.1
  {
    var stueck := SeatPrice(termin, db.seminare, env.seminarReadOk);
    var rabattBrutto, preisBruttoOverride :=
      ApplyVoucher(VoucherCode(body.gutscheincode), db.gutscheine, env.today, env.voucherReadOk, env.voucherPick, stueck, anz);
    payload := BaseBooking(body, items, terminId, preisBruttoOverride);

    var kundeId := LinkCustomerStep(db, payload.rechnungstyp, body.adresse, env.kundeStoreOk);
    if kundeId.Some? {
      payload := payload.(kunde := kundeId);
    }
    payload := SetPaymentFields(payload, body);
    expected := Expected(SeatPrice(termin, db.seminare, env.seminarRereadOk), anz, rabattBrutto);
  }

  /** The end of `publicCreate`: with a capture id the capture must pass
      the check against the expected total, and the booking is then marked
      paid; the insert runs the create hook on the payload and stores the
      booking it leaves, unless the hook throws or the store fails. */
  method VerifyAndInsert(db: Db, payload: Buchung, body: CreateBody, expected: Cents, terminId: int, env: Env,
                         shape: ParticipantsAs)
    returns (resp: CreateResponse)
    modifies db`buchungen
    ensures Follows(InsertPlan(payload, body, expected, terminId, old(db.termine), env, shape, old(db.kunden),
                               |old(db.buchungen)| + 1),
                    resp, db.kunden, db.buchungen, old(db.buchungen))
  {
    var p := payload;
    var verifiedPaid := false;
    if Truthy(body.paypalCaptureId) {
      var failure := CaptureCheck(env.capture, expected);
      if failure.Some? {
        return BadRequest(failure.value);
      }
      verifiedPaid := true;
    }
    if verifiedPaid {
      p := p.(buchungsstatus := Bezahlt);
    }

    var data := new L.HookData(InsertParticipants(shape, |p.teilnehmer|), HookFields(p));
    var err := L.BeforeCreate(data, db.termine);
    if err.Some? {
      return BadRequest(HookFehler(err.value));
    }
    if !env.insertOk {
      return BadRequest(SpeichernFehlgeschlagen);
    }
    p := Normalised(p, data.fields);
    db.buchungen := db.buchungen + [p];
    resp := Created(|db.buchungen|, terminId, p);
  }

  /** The voucher step: with a code, a successful read and an active
      voucher found under the code in any of its three spellings, the
      voucher's discount on `stueck * anz`, and an overriding price per seat
      when that discount is positive. */
  method ApplyVoucher(voucherCode: Option<string>, gutscheine: map<string, Gutschein>, today: string,
                      readOk: bool, pick: nat, stueck: Cents, anz: int)
    returns (rabattBrutto: Cents, preisBruttoOverride: Option<Cents>)
    ensures rabattBrutto == BookingDiscount(voucherCode, gutscheine, today, readOk, pick, stueck, anz)
    ensures preisBruttoOverride == PriceOverride(stueck, anz, rabattBrutto)
    ensures rabattBrutto != 0 ==> voucherCode.Some? && readOk
    ensures preisBruttoOverride.Some? ==> rabattBrutto > 0 && preisBruttoOverride.value >= 0
  {
    rabattBrutto := 0;
    preisBruttoOverride := None;
    if voucherCode.Some? && readOk {
      var v := FindVoucher(voucherCode.value, gutscheine, pick);
      if v.Some? && IsActive(v.value, today) {
        rabattBrutto := Discount(v.value, Fin(stueck * anz)).v;
        if rabattBrutto > 0 && anz > 0 {
          var neuTotal := Expected(stueck, anz, rabattBrutto);
          RoundDivBounds(neuTotal, anz);
          preisBruttoOverride := Some(RoundDiv(neuTotal, anz));
        }
      }
    }
  }

  /** The payment fields and the initial status 'offen', on a payload that
      has neither payment field yet. */
  method SetPaymentFields(payload: Buchung, body: CreateBody) returns (p: Buchung)
    requires payload.zahlungsreferenz.None? && payload.zahlungsmethode.None?
    ensures p == WithPayment(payload, body)
  {
    p := payload;
    if Truthy(body.paypalCaptureId) {
      p := p.(zahlungsreferenz := Some(JsString(body.paypalCaptureId)), zahlungsmethode := Some("paypal"));
    } else if Truthy(body.zahlungsreferenz) {
      p := p.(zahlungsreferenz := Some(JsString(body.zahlungsreferenz)));
    }
    if Filled(body.zahlungsmethode) {
      p := p.(zahlungsmethode := body.zahlungsmethode);
    }
    p := p.(buchungsstatus := Offen);
  }

  /** Find the customer by e-mail or create one, and return its id; a
      failing store leaves the customers as they are. */
  method LinkCustomerStep(db: Db, rechnungstyp: string, a: Adresse, storeOk: bool) returns (kundeId: Option<int>)
    modifies db`kunden
    ensures (kundeId, db.kunden) == LinkCustomer(old(db.kunden), rechnungstyp, a, storeOk)
  {
    var email := CustomerEmail(rechnungstyp, a);
    kundeId := None;
    if Filled(email) && storeOk {
      var existing := FindKunde(db.kunden, email.value);
      if existing.Some? {
        kundeId := Some(existing.value + 1);
      } else {
        db.kunden := db.kunden + [NewKunde(rechnungstyp, a, email.value)];
        kundeId := Some(|db.kunden|);
      }
    }
  }

  // ---------------------------------------------------------------------
  // Properties of the plan

  /** A request that is not an object, has no usable termin id, names an
      unknown termin, or has no valid participant list is rejected before
      anything is written. */
  lemma CreateRejectsEarly(req: Request, termine: map<int, Termin>, seminare: map<int, Seminar>,
                           gutscheine: map<string, Gutschein>, kunden: seq<Kunde>, nextId: nat, env: Env,
                           shape: ParticipantsAs)
    ensures var p := CreatePlan(req, termine, seminare, gutscheine, kunden, nextId, env, shape);
      var (t, _) := if req.Body? then ResolveTermin(req.body, env.orderCustomId) else (None, None);
      (req.NotAnObject? ==> p == Plan(BadRequest(UngueltigerPayload), kunden, None))
      && (req.Body? && !(Usable(t) && t.value in termine) ==> p == Plan(BadRequest(UngueltigerTermin), kunden, None))
      && (req.Body? && Usable(t) && t.value in termine && TeilnehmerError(req.body.teilnehmer).Some? ==>
            p == Plan(BadRequest(TeilnehmerError(req.body.teilnehmer).value), kunden, None))
  {
  }

  /** Every participant list that is missing, empty or has an entry with a
      blank first or last name is refused. */
  lemma TeilnehmerErrorMeaning(f: TeilnehmerField)
    ensures TeilnehmerError(f).None? <==>
      f.Items? && |f.items| >= 1
      && forall j :: 0 <= j < |f.items| ==> NameGiven(f.items[j].vorname) && NameGiven(f.items[j].nachname)
  {
    if f.Items? && |f.items| >= 1 {
      CheckFromMeaning(f.items, 0);
    }
  }

  /** The request passes the checks made before anything is written: it is
      an object, names a known termin and carries a valid participant
      list. */
  predicate PassesEarlyChecks(req: Request, termine: map<int, Termin>, env: Env) {
    req.Body?
    && var t := ResolveTermin(req.body, env.orderCustomId).0;
    Usable(t) && t.value in termine && TeilnehmerError(req.body.teilnehmer).None?
  }

  /** The plan of a request that passes the early checks is the plan for
      its termin and participants. */
  lemma CreatePlanAccepts(req: Request, termine: map<int, Termin>, seminare: map<int, Seminar>,
                          gutscheine: map<string, Gutschein>, kunden: seq<Kunde>, nextId: nat, env: Env,
                          shape: ParticipantsAs)
    requires PassesEarlyChecks(req, termine, env)
    ensures var b := req.body;
      var (t, a) := ResolveTermin(b, env.orderCustomId);
      var anz := if Usable(a) then a.value else |b.teilnehmer.items|;
      t.Some? && t.value in termine && b.teilnehmer.Items? && |b.teilnehmer.items| >= 1
      && CreatePlan(req, termine, seminare, gutscheine, kunden, nextId, env, shape)
         == AcceptPlan(b, b.teilnehmer.items, t.value, termine[t.value], anz, termine, seminare, gutscheine,
                       kunden, nextId, env, shape)
  {
    var (t, a) := ResolveTermin(req.body, env.orderCustomId);
    TerminPlanAccepts(req.body, t, a, termine, seminare, gutscheine, kunden, nextId, env, shape);
  }

  /** Nothing is inserted unless the plan answers Created, and then the
      inserted booking is the one in the response, with the next id. */
  lemma CreateInsertsOnlyOnSuccess(req: Request, termine: map<int, Termin>, seminare: map<int, Seminar>,
                                   gutscheine: map<string, Gutschein>, kunden: seq<Kunde>, nextId: nat, env: Env,
                                   shape: ParticipantsAs)
    ensures var p := CreatePlan(req, termine, seminare, gutscheine, kunden, nextId, env, shape);
      (p.inserted.Some? <==> p.resp.Created?)
      && (p.resp.Created? ==> p.inserted == Some(p.resp.booking) && p.resp.id == nextId)
      && (p.resp.Created? ==> p.resp.terminId in termine && p.resp.booking.termin == p.resp.terminId)
  {
    if PassesEarlyChecks(req, termine, env) {
      CreatePlanAccepts(req, termine, seminare, gutscheine, kunden, nextId, env, shape);
      var b := req.body;
      var (t, a) := ResolveTermin(b, env.orderCustomId);
      var anz := if Usable(a) then a.value else |b.teilnehmer.items|;
      AcceptPlanShape(b, b.teilnehmer.items, t.value, termine[t.value], anz, termine, seminare, gutscheine,
                      kunden, nextId, env, shape);
    }
  }

  /** Once the termin and the participants are accepted, a booking for
      that termin is inserted exactly when the plan answers Created. */
  lemma AcceptPlanShape(b: CreateBody, items: seq<TeilnehmerIn>, terminId: int, termin: Termin, anz: int,
                        termine: map<int, Termin>, seminare: map<int, Seminar>, gutscheine: map<string, Gutschein>,
                        kunden: seq<Kunde>, nextId: nat, env: Env, shape: ParticipantsAs)
    ensures var p := AcceptPlan(b, items, terminId, termin, anz, termine, seminare, gutscheine, kunden, nextId, env, shape);
      (p.inserted.Some? <==> p.resp.Created?)
      && (p.resp.Created? ==> p.inserted == Some(p.resp.booking) && p.resp.id == nextId
                              && p.resp.terminId == terminId && p.resp.booking.termin == terminId)
  {
    var stueck := SeatPrice(termin, seminare, env.seminarReadOk);
    var rabatt := BookingDiscount(VoucherCode(b.gutscheincode), gutscheine, env.today, env.voucherReadOk,
                                  env.voucherPick, stueck, anz);
    var link := LinkCustomer(kunden, Rechnungstyp(b), b.adresse, env.kundeStoreOk);
    var payload := Payload(b, items, terminId, PriceOverride(stueck, anz, rabatt), link.0);
    assert payload.termin == terminId;
    InsertPlanShape(payload, b, Expected(SeatPrice(termin, seminare, env.seminarRereadOk), anz, rabatt),
                    terminId, termine, env, shape, link.1, nextId);
  }

  /** The plan for a prepared payload inserts exactly when it answers
      Created, and then inserts the booking it answers with, for the
      payload's termin and with the payload's participants and status
      (made 'bezahlt' by a verified capture). */
  lemma InsertPlanShape(payload: Buchung, b: CreateBody, expected: Cents, terminId: int,
                        termine: map<int, Termin>, env: Env, shape: ParticipantsAs, kunden: seq<Kunde>, nextId: nat)
    ensures var p := InsertPlan(payload, b, expected, terminId, termine, env, shape, kunden, nextId);
      (p.inserted.Some? <==> p.resp.Created?)
      && p.kunden == kunden
      && (p.resp.Created? ==> p.inserted == Some(p.resp.booking) && p.resp.id == nextId
                              && p.resp.terminId == terminId && p.resp.booking.termin == payload.termin
                              && p.resp.booking.teilnehmer == payload.teilnehmer
                              && p.resp.booking.buchungsstatus
                                 == (if Truthy(b.paypalCaptureId) then Bezahlt else payload.buchungsstatus))
  {
  }

  /** A booking as the create hook leaves it: `anzahl` is its number of
      participants, at least one; a company invoice has all its company
      fields; the price per seat is the termin's price when the termin has
      one, and the total is that price times `anzahl`. */
  predicate HookNormalised(bk: Buchung, termine: map<int, Termin>) {
    |bk.teilnehmer| >= 1 && bk.anzahl == Some(|bk.teilnehmer|)
    && L.FirmaCheck(HookFields(bk)).None?
    && (bk.termin != 0 && bk.termin in termine && termine[bk.termin].preis.Some? ==>
          bk.preisProPlatz == termine[bk.termin].preis
          && bk.gesamtpreis == Some(L.Mul(termine[bk.termin].preis.value, |bk.teilnehmer|)))
  }

  /** The insert as written: the hook refuses the participants, so nothing
      is stored, and without a capture id the reply is the hook's
      participant error. */
  lemma InsertPlanAsWritten(payload: Buchung, b: CreateBody, expected: Cents, terminId: int,
                            termine: map<int, Termin>, env: Env, kunden: seq<Kunde>, nextId: nat)
    ensures var p := InsertPlan(payload, b, expected, terminId, termine, env, CreateObject, kunden, nextId);
      p.resp.BadRequest? && p.inserted.None?
      && (p.resp.reason.HookFehler? || p.resp.reason.CaptureNichtPruefbar? || p.resp.reason.CaptureNichtAbgeschlossen?
          || p.resp.reason.WaehrungNichtEur? || p.resp.reason.BetragWeichtAb?)
      && (p.resp.reason.HookFehler? ==> p.resp.reason.error == L.MindestensEinTeilnehmer)
      && (!Truthy(b.paypalCaptureId) ==> p.resp == BadRequest(HookFehler(L.MindestensEinTeilnehmer)))
  {
  }

  /** The insert with the participants as an array: a stored booking is as
      the hook normalises it; without a capture id the only refusals are a
      missing company field and a failing store. */
  lemma InsertPlanCorrected(payload: Buchung, b: CreateBody, expected: Cents, terminId: int,
                            termine: map<int, Termin>, env: Env, kunden: seq<Kunde>, nextId: nat)
    requires |payload.teilnehmer| >= 1
    ensures var p := InsertPlan(payload, b, expected, terminId, termine, env, PlainArray, kunden, nextId);
      (p.resp.Created? ==> HookNormalised(p.resp.booking, termine))
      && (!Truthy(b.paypalCaptureId) && !p.resp.Created? ==>
            p.resp == BadRequest(SpeichernFehlgeschlagen)
            || (p.resp.BadRequest? && p.resp.reason.HookFehler? && p.resp.reason.error.FirmaFeldFehlt?))
  {
    var paid := if Truthy(b.paypalCaptureId) then payload.(buchungsstatus := Bezahlt) else payload;
    var n := |paid.teilnehmer|;
    var fields := HookFields(paid);
    L.CreateHookMeaning(L.List(n), fields, termine);
    if L.FirmaCheck(fields).None? {
      PricedIsNormalised(paid, termine);
    } else {
      L.FirmaCheckMeaning(fields);
    }
  }

  /** The payload with what the hook fills in is as the hook normalises
      it, once the company check has passed. */
  lemma PricedIsNormalised(paid: Buchung, termine: map<int, Termin>)
    requires |paid.teilnehmer| >= 1 && L.FirmaCheck(HookFields(paid)).None?
    ensures HookNormalised(Normalised(paid, L.Priced(HookFields(paid), |paid.teilnehmer|, termine)), termine)
  {
    var r := L.Priced(HookFields(paid), |paid.teilnehmer|, termine);
    NormalisedKeepsHookFields(paid, r);
    PricedCount(paid, termine);
    if paid.termin != 0 && paid.termin in termine && termine[paid.termin].preis.Some? {
      PricedFromTermin(paid, termine);
    }
  }

  /** The hook counts the payload's participants. */
  lemma PricedCount(paid: Buchung, termine: map<int, Termin>)
    ensures L.Lookup(L.Priced(HookFields(paid), |paid.teilnehmer|, termine), "anzahl")
            == NumV(Fin(|paid.teilnehmer|))
  {
  }

  /** The payload carries no price per seat, so the hook takes the
      termin's price and multiplies it by the count. */
  lemma PricedFromTermin(paid: Buchung, termine: map<int, Termin>)
    requires paid.termin != 0 && paid.termin in termine && termine[paid.termin].preis.Some?
    ensures var r := L.Priced(HookFields(paid), |paid.teilnehmer|, termine);
      var preis := termine[paid.termin].preis.value;
      L.Lookup(r, "preisProPlatz") == NumV(preis)
      && L.Lookup(r, "gesamtpreis") == NumV(L.Mul(preis, |paid.teilnehmer|))
  {
    var fields := HookFields(paid);
    assert L.Lookup(fields, "termin") == NumV(Fin(paid.termin));
    assert L.Lookup(fields, "preisProPlatz") == Undefined;
  }

  /** Filling in the hook's fields leaves the fields the hook reads. */
  lemma NormalisedKeepsHookFields(p: Buchung, fields: map<string, JsVal>)
    ensures HookFields(Normalised(p, fields)) == HookFields(p)
  {
  }

  /** As written, the participants reach the insert as `{ create: [...] }`,
      which the create hook does not accept as a list: no request ever
      creates a booking. A request without a capture id that passes the
      early checks is refused with the hook's participant error, and no
      reply is a store failure. */
  lemma CreateNeverSucceedsAsWritten(req: Request, termine: map<int, Termin>, seminare: map<int, Seminar>,
                                     gutscheine: map<string, Gutschein>, kunden: seq<Kunde>, nextId: nat, env: Env)
    ensures var p := CreatePlan(req, termine, seminare, gutscheine, kunden, nextId, env, CreateObject);
      p.resp.BadRequest? && p.inserted.None?
      && p.resp.reason != SpeichernFehlgeschlagen
      && (p.resp.reason.HookFehler? ==> p.resp.reason.error == L.MindestensEinTeilnehmer)
      && (PassesEarlyChecks(req, termine, env) && !Truthy(req.body.paypalCaptureId) ==>
            p.resp == BadRequest(HookFehler(L.MindestensEinTeilnehmer)))
  {
    if PassesEarlyChecks(req, termine, env) {
      CreatePlanAccepts(req, termine, seminare, gutscheine, kunden, nextId, env, CreateObject);
      var b := req.body;
      var (t, a) := ResolveTermin(b, env.orderCustomId);
      var items := b.teilnehmer.items;
      var anz := if Usable(a) then a.value else |items|;
      var termin := termine[t.value];
      var stueck := SeatPrice(termin, seminare, env.seminarReadOk);
      var rabatt := BookingDiscount(VoucherCode(b.gutscheincode), gutscheine, env.today, env.voucherReadOk,
                                    env.voucherPick, stueck, anz);
      var link := LinkCustomer(kunden, Rechnungstyp(b), b.adresse, env.kundeStoreOk);
      InsertPlanAsWritten(Payload(b, items, t.value, PriceOverride(stueck, anz, rabatt), link.0), b,
                          Expected(SeatPrice(termin, seminare, env.seminarRereadOk), anz, rabatt),
                          t.value, termine, env, link.1, nextId);
    } else {
      CreateRejectsEarly(req, termine, seminare, gutscheine, kunden, nextId, env, CreateObject);
    }
  }

  /** With the participants sent as an array, a created booking has passed
      the create hook (`HookNormalised`). A request without a capture id
      that passes the early checks is refused only for a missing company
      field or a failing store. */
  lemma CorrectedCreatedIsNormalised(req: Request, termine: map<int, Termin>, seminare: map<int, Seminar>,
                                     gutscheine: map<string, Gutschein>, kunden: seq<Kunde>, nextId: nat, env: Env)
    ensures var p := CreatePlan(req, termine, seminare, gutscheine, kunden, nextId, env, PlainArray);
      (p.resp.Created? ==> p.resp.booking.termin in termine && HookNormalised(p.resp.booking, termine))
      && (PassesEarlyChecks(req, termine, env) && !Truthy(req.body.paypalCaptureId) && !p.resp.Created? ==>
            p.resp == BadRequest(SpeichernFehlgeschlagen)
            || (p.resp.BadRequest? && p.resp.reason.HookFehler? && p.resp.reason.error.FirmaFeldFehlt?))
  {
    CreateInsertsOnlyOnSuccess(req, termine, seminare, gutscheine, kunden, nextId, env, PlainArray);
    if PassesEarlyChecks(req, termine, env) {
      CreatePlanAccepts(req, termine, seminare, gutscheine, kunden, nextId, env, PlainArray);
      var b := req.body;
      var (t, a) := ResolveTermin(b, env.orderCustomId);
      var items := b.teilnehmer.items;
      var anz := if Usable(a) then a.value else |items|;
      var termin := termine[t.value];
      var stueck := SeatPrice(termin, seminare, env.seminarReadOk);
      var rabatt := BookingDiscount(VoucherCode(b.gutscheincode), gutscheine, env.today, env.voucherReadOk,
                                    env.voucherPick, stueck, anz);
      var link := LinkCustomer(kunden, Rechnungstyp(b), b.adresse, env.kundeStoreOk);
      var payload := Payload(b, items, t.value, PriceOverride(stueck, anz, rabatt), link.0);
      assert |payload.teilnehmer| == |items|;
      InsertPlanCorrected(payload, b, Expected(SeatPrice(termin, seminare, env.seminarRereadOk), anz, rabatt),
                          t.value, termine, env, link.1, nextId);
    } else {
      CreateRejectsEarly(req, termine, seminare, gutscheine, kunden, nextId, env, PlainArray);
    }
  }

  /** A created booking is 'bezahlt' exactly when the request carried a
      capture id (which was then verified) and 'offen' otherwise; a capture
      id that fails verification creates no booking. */
  lemma CreateStatus(req: Request, termine: map<int, Termin>, seminare: map<int, Seminar>,
                     gutscheine: map<string, Gutschein>, kunden: seq<Kunde>, nextId: nat, env: Env,
                     shape: ParticipantsAs)
    requires req.Body?
    ensures var p := CreatePlan(req, termine, seminare, gutscheine, kunden, nextId, env, shape);
      (p.resp.Created? ==> (p.resp.booking.buchungsstatus == Bezahlt <==> Truthy(req.body.paypalCaptureId)))
      && (p.resp.Created? && Truthy(req.body.paypalCaptureId) ==>
            (env.capture.Found?
             && Upper(OrEmpty(env.capture.value.status)) == "COMPLETED"
             && Upper(OrEmpty(env.capture.value.currency)) == "EUR"))
  {
  }

  /** The client cannot set the status: the plan does not depend on the
      `buchungsstatus` the request carries. */
  lemma CreateIgnoresClientStatus(b: CreateBody, x: JsVal, termine: map<int, Termin>, seminare: map<int, Seminar>,
                                  gutscheine: map<string, Gutschein>, kunden: seq<Kunde>, nextId: nat, env: Env,
                                  shape: ParticipantsAs)
    ensures CreatePlan(Body(b.(buchungsstatus := x)), termine, seminare, gutscheine, kunden, nextId, env, shape)
         == CreatePlan(Body(b), termine, seminare, gutscheine, kunden, nextId, env, shape)
  {
    var b' := b.(buchungsstatus := x);
    assert ResolveTermin(b', env.orderCustomId) == ResolveTermin(b, env.orderCustomId);
    var resolved := ResolveTermin(b, env.orderCustomId);
    var t, a := resolved.0, resolved.1;
    if Usable(t) && t.value in termine && TeilnehmerError(b.teilnehmer).None? {
      var items := b.teilnehmer.items;
      var anz := if Usable(a) then a.value else |items|;
      AcceptPlanIgnoresStatus(b, x, items, t.value, termine[t.value], anz, termine, seminare, gutscheine,
                              kunden, nextId, env, shape);
    }
  }

  lemma AcceptPlanIgnoresStatus(b: CreateBody, x: JsVal, items: seq<TeilnehmerIn>, terminId: int, termin: Termin,
                                anz: int, termine: map<int, Termin>, seminare: map<int, Seminar>,
                                gutscheine: map<string, Gutschein>, kunden: seq<Kunde>, nextId: nat, env: Env,
                                shape: ParticipantsAs)
    ensures AcceptPlan(b.(buchungsstatus := x), items, terminId, termin, anz, termine, seminare, gutscheine,
                       kunden, nextId, env, shape)
         == AcceptPlan(b, items, terminId, termin, anz, termine, seminare, gutscheine, kunden, nextId, env, shape)
  {
    var b' := b.(buchungsstatus := x);
    var stueck := SeatPrice(termin, seminare, env.seminarReadOk);
    var rabatt := BookingDiscount(VoucherCode(b.gutscheincode), gutscheine, env.today, env.voucherReadOk,
                                  env.voucherPick, stueck, anz);
    var link := LinkCustomer(kunden, Rechnungstyp(b), b.adresse, env.kundeStoreOk);
    assert Rechnungstyp(b') == Rechnungstyp(b);
    PayloadIgnoresStatus(b, x, items, terminId, PriceOverride(stueck, anz, rabatt), link.0);
    var payload := Payload(b, items, terminId, PriceOverride(stueck, anz, rabatt), link.0);
    var expected := Expected(SeatPrice(termin, seminare, env.seminarRereadOk), anz, rabatt);
    assert InsertPlan(payload, b', expected, terminId, termine, env, shape, link.1, nextId)
        == InsertPlan(payload, b, expected, terminId, termine, env, shape, link.1, nextId);
  }

  lemma PayloadIgnoresStatus(b: CreateBody, x: JsVal, items: seq<TeilnehmerIn>, terminId: int,
                             override: Option<Cents>, kundeId: Option<int>)
    ensures Payload(b.(buchungsstatus := x), items, terminId, override, kundeId)
         == Payload(b, items, terminId, override, kundeId)
  {
    var b' := b.(buchungsstatus := x);
    assert BaseBooking(b', items, terminId, override) == BaseBooking(b, items, terminId, override);
    assert PaymentFields(b') == PaymentFields(b);
  }

  /** The payment fields: a capture id gives reference = that id and
      method 'paypal' unless a method is given explicitly; without one a
      given reference is copied. */
  lemma PaymentFieldsMeaning(b: CreateBody)
    ensures var (ref, m) := PaymentFields(b);
      (Truthy(b.paypalCaptureId) ==> ref == Some(JsString(b.paypalCaptureId)))
      && (!Truthy(b.paypalCaptureId) && Truthy(b.zahlungsreferenz) ==> ref == Some(JsString(b.zahlungsreferenz)))
      && (!Truthy(b.paypalCaptureId) && !Truthy(b.zahlungsreferenz) ==> ref.None?)
      && (Filled(b.zahlungsmethode) ==> m == b.zahlungsmethode)
      && (!Filled(b.zahlungsmethode) ==> (m == Some("paypal") <==> Truthy(b.paypalCaptureId)) && (m.Some? ==> m == Some("paypal")))
  {
  }

  /** A failed capture still leaves behind a customer created for the
      booking: customers are linked before the capture is checked. */
  lemma CaptureFailureKeepsCustomer(b: CreateBody, items: seq<TeilnehmerIn>, terminId: int, termin: Termin, anz: int,
                                    termine: map<int, Termin>, seminare: map<int, Seminar>,
                                    gutscheine: map<string, Gutschein>, kunden: seq<Kunde>, nextId: nat, env: Env,
                                    shape: ParticipantsAs)
    requires Truthy(b.paypalCaptureId) && env.capture.LookupFailed?
    ensures var p := AcceptPlan(b, items, terminId, termin, anz, termine, seminare, gutscheine, kunden, nextId, env, shape);
      p.resp == BadRequest(CaptureNichtPruefbar) && p.inserted.None?
      && p.kunden == LinkCustomer(kunden, Rechnungstyp(b), b.adresse, env.kundeStoreOk).1
  {
  }

  /** The voucher check and the booking agree: for a positive termin
      price, a code stored exactly as typed and under no other spelling,
      and a non-negative voucher value, the quoted total is the amount the
      booking's capture check expects, and the quoted price per seat is the
      booking's overriding price whenever there is a discount. */
  lemma QuoteMatchesVerifier(termin: Termin, seminare: map<int, Seminar>, gutscheine: map<string, Gutschein>,
                             code: string, today: string, n: int, pick: nat, seminarReadOk: bool)
    requires n >= 1
    requires ColumnNumber(termin.preis).Fin? && ColumnNumber(termin.preis).v > 0
    requires OnlySpelling(code, gutscheine) && Wert(gutscheine[code]) >= 0
    ensures var stueck := SeatPrice(termin, seminare, seminarReadOk);
      var rabatt := BookingDiscount(Some(code), gutscheine, today, true, pick, stueck, n);
      var q := PricedQuote(ColumnNumber(termin.preis).v, Fin(n), Some(gutscheine[code]), today);
      q.Quote? && q.total == Fin(Expected(stueck, n, rabatt))
      && (rabatt > 0 ==> q.totalPerSeat == Some(Fin(PriceOverride(stueck, n, rabatt).value)))
  {
    var stueck := SeatPrice(termin, seminare, seminarReadOk);
    var v := gutscheine[code];
    FindVoucherMeaning(code, gutscheine, pick);
    assert stueck * n >= 0 by { MulMono(stueck, 0, n); }
    if IsActive(v, today) {
      DiscountBounds(v, stueck * n);
      if v.typ != "betrag" {
        MulMono(stueck * n, 0, Wert(v));
        RoundDivBounds(0, 10000);
        RoundDivMono(0, stueck * n * Wert(v), 10000);
        RoundDivExact(0, 10000);
      }
    }
  }

  // ---------------------------------------------------------------------
  // publicGet

  /** A raw row of table `buchungen`: column name to value. */
  type Row = map<string, JsVal>

  function Column(rec: Row, k: string): JsVal {
    if k in rec then rec[k] else Undefined
  }

  /** `k.replace(/[A-Z]/g, m => '_' + m.toLowerCase())` */
  function Snake(k: string): string {
    if k == [] then []
    else (if 'A' <= k[0] <= 'Z' then ['_', LowerChar(k[0])] else [k[0]]) + Snake(k[1..])
  }

  /** The snake_case name has no capital letters, and a name without
      capitals is its own snake_case name. */
  lemma {:induction false} SnakeLower(k: string)
    ensures forall i :: 0 <= i < |Snake(k)| ==> !('A' <= Snake(k)[i] <= 'Z')
    ensures (forall i :: 0 <= i < |k| ==> !('A' <= k[i] <= 'Z')) ==> Snake(k) == k
  {
    if k != [] {
      SnakeLower(k[1..]);
      if forall i :: 0 <= i < |k| ==> !('A' <= k[i] <= 'Z') {
        assert forall i :: 0 <= i < |k[1..]| ==> !('A' <= k[1..][i] <= 'Z') by {
          forall i | 0 <= i < |k[1..]| ensures !('A' <= k[1..][i] <= 'Z') {
            assert k[1..][i] == k[i + 1];
          }
        }
        assert [k[0]] + k[1..] == k;
      }
    }
  }

  /** `get(k)`: the column under its own name unless that is null or
      missing, else the column under its snake_case name. */
  function Get(rec: Row, k: string): (r: JsVal)
    ensures r == Column(rec, k) || r == Column(rec, Snake(k))
    ensures !(Column(rec, k).Undefined? || Column(rec, k).Null?) ==> r == Column(rec, k)
  {
    var v := Column(rec, k);
    if !(v.Undefined? || v.Null?) then v else Column(rec, Snake(k))
  }

  /** The first key whose value is not undefined (null counts as found). */
  function FirstDefined(rec: Row, keys: seq<string>): JsVal {
    if keys == [] then Undefined
    else if !Get(rec, keys[0]).Undefined? then Get(rec, keys[0])
    else FirstDefined(rec, keys[1..])
  }

  /** `getAny(keys)`: the value of the first key whose value is defined. */
  method GetAny(rec: Row, keys: seq<string>) returns (v: JsVal)
    ensures v.Undefined? <==> forall j :: 0 <= j < |keys| ==> Get(rec, keys[j]).Undefined?
    ensures !v.Undefined? ==> exists k :: 0 <= k < |keys| && v == Get(rec, keys[k])
                                && forall j :: 0 <= j < k ==> Get(rec, keys[j]).Undefined?
  {
    var i := 0;
    while i < |keys|
      invariant 0 <= i <= |keys|
      invariant forall j :: 0 <= j < i ==> Get(rec, keys[j]).Undefined?
    {
      var x := Get(rec, keys[i]);
      if !x.Undefined? {
        return x;
      }
      i := i + 1;
    }
    return Undefined;
  }

  /** The public view of a booking. */
  datatype PublicView = PublicView(
    id: JsVal, status: JsVal, zahlungsmethode: JsVal, anzahl: JsVal,
    gesamtpreisBrutto: JsVal, gesamtpreisNetto: JsVal, gesamtsteuerBetrag: JsVal)

  datatype GetResponse = UngueltigeId | NichtGefunden | ServerFehler | View(view: PublicView)

  /** `publicGet`: a non-numeric id is refused, an unknown one not found,
      a failing read is an internal error; otherwise only the public fields
      are returned. */
  method PublicGet(id: JsVal, rows: map<int, Row>, readOk: bool) returns (r: GetResponse)
    ensures ToNumber(id).NaN? <==> r == UngueltigeId
    ensures ToNumber(id).Fin? && !readOk ==> r == ServerFehler
    ensures ToNumber(id).Fin? && readOk && ToNumber(id).v !in rows ==> r == NichtGefunden
    ensures ToNumber(id).Fin? && readOk && ToNumber(id).v in rows ==>
      r == View(PublicViewOf(rows[ToNumber(id).v], FirstDefined(rows[ToNumber(id).v], ["buchungsstatus", "status"])))
    ensures r.View? ==>
      (ToNumber(id).Fin? && readOk && ToNumber(id).v in rows
      && r.view == PublicViewOf(rows[ToNumber(id).v], FirstDefined(rows[ToNumber(id).v], ["buchungsstatus", "status"])))
  {
    var n := ToNumber(id);
    if n.NaN? {
      return UngueltigeId;
    }
    if !readOk {
      return ServerFehler;
    }
    if n.v !in rows {
      return NichtGefunden;
    }
    var rec := rows[n.v];
    var status := GetAny(rec, ["buchungsstatus", "status"]);
    FirstDefinedMeaning(rec, ["buchungsstatus", "status"], status);
    r := View(PublicViewOf(rec, status));
  }

  function PublicViewOf(rec: Row, status: JsVal): PublicView {
    PublicView(Column(rec, "id"), status, Get(rec, "zahlungsmethode"), Get(rec, "anzahl"),
               Get(rec, "gesamtpreisBrutto"), Get(rec, "gesamtpreisNetto"), Get(rec, "gesamtsteuerBetrag"))
  }

  /** The loop's answer is the first defined value. */
  lemma {:induction false} FirstDefinedMeaning(rec: Row, keys: seq<string>, v: JsVal)
    requires v.Undefined? <==> forall j :: 0 <= j < |keys| ==> Get(rec, keys[j]).Undefined?
    requires !v.Undefined? ==> exists k :: 0 <= k < |keys| && v == Get(rec, keys[k])
                                 && forall j :: 0 <= j < k ==> Get(rec, keys[j]).Undefined?
    ensures v == FirstDefined(rec, keys)
  {
    if keys != [] {
      if Get(rec, keys[0]).Undefined? {
        if !v.Undefined? {
          var k :| 0 <= k < |keys| && v == Get(rec, keys[k]) && forall j :: 0 <= j < k ==> Get(rec, keys[j]).Undefined?;
          assert k > 0;
          assert forall j :: 0 <= j < k - 1 ==> Get(rec, keys[1..][j]).Undefined? by {
            forall j | 0 <= j < k - 1 ensures Get(rec, keys[1..][j]).Undefined? {
              assert keys[1..][j] == keys[j + 1];
            }
          }
          assert v == Get(rec, keys[1..][k - 1]);
        }
        FirstDefinedMeaning(rec, keys[1..], v);
      } else {
        var k :| 0 <= k < |keys| && v == Get(rec, keys[k]) && forall j :: 0 <= j < k ==> Get(rec, keys[j]).Undefined?;
        assert k == 0;
      }
    }
  }

  /** The view reads nothing but the id, the two status columns and the
      five public fields (each under its own and its snake_case name): rows
      that agree on those give the same view. */
  lemma PublicViewOnlyPublicFields(a: Row, b: Row)
    requires Column(a, "id") == Column(b, "id")
    requires AgreeOn(a, b, "buchungsstatus") && AgreeOn(a, b, "status")
    requires AgreeOn(a, b, "zahlungsmethode") && AgreeOn(a, b, "anzahl")
    requires AgreeOn(a, b, "gesamtpreisBrutto") && AgreeOn(a, b, "gesamtpreisNetto")
    requires AgreeOn(a, b, "gesamtsteuerBetrag")
    ensures PublicViewOf(a, FirstDefined(a, ["buchungsstatus", "status"]))
         == PublicViewOf(b, FirstDefined(b, ["buchungsstatus", "status"]))
  {
    GetAgrees(a, b, "buchungsstatus");
    GetAgrees(a, b, "status");
    FirstDefinedAgrees2(a, b, "buchungsstatus", "status");
    ViewAgrees(a, b, FirstDefined(a, ["buchungsstatus", "status"]));
  }

  /** Two rows agree on a field under both of its names. */
  predicate AgreeOn(a: Row, b: Row, k: string) {
    Column(a, k) == Column(b, k) && Column(a, Snake(k)) == Column(b, Snake(k))
  }

  lemma GetAgrees(a: Row, b: Row, k: string)
    requires AgreeOn(a, b, k)
    ensures Get(a, k) == Get(b, k)
  {
  }

  lemma FirstDefinedAgrees2(a: Row, b: Row, k1: string, k2: string)
    requires Get(a, k1) == Get(b, k1) && Get(a, k2) == Get(b, k2)
    ensures FirstDefined(a, [k1, k2]) == FirstDefined(b, [k1, k2])
  {
    assert [k1, k2][1..] == [k2];
    assert [k2][1..] == [];
    assert FirstDefined(a, [k2]) == FirstDefined(b, [k2]);
  }

  lemma ViewAgrees(a: Row, b: Row, status: JsVal)
    requires Column(a, "id") == Column(b, "id")
    requires AgreeOn(a, b, "zahlungsmethode") && AgreeOn(a, b, "anzahl")
    requires AgreeOn(a, b, "gesamtpreisBrutto") && AgreeOn(a, b, "gesamtpreisNetto")
    requires AgreeOn(a, b, "gesamtsteuerBetrag")
    ensures PublicViewOf(a, status) == PublicViewOf(b, status)
  {
    GetAgrees(a, b, "zahlungsmethode");
    GetAgrees(a, b, "anzahl");
    GetAgrees(a, b, "gesamtpreisBrutto");
    GetAgrees(a, b, "gesamtpreisNetto");
    GetAgrees(a, b, "gesamtsteuerBetrag");
  }
}
