/** The voucher rules and the public voucher check
    (`POST /api/public/gutscheine/validate`). */
module GutscheinController {
  import opened Common
  import opened Money
  import opened Entities

  /** A voucher is usable on `today` (an ISO date) when it is active and
      today lies in its window; an empty or missing bound is no bound, and
      the bounds compare as strings. */
  predicate IsActive(v: Gutschein, today: string) {
    v.aktiv
    && (!Filled(v.gueltigAb) || LexLe(v.gueltigAb.value, today))
    && (!Filled(v.gueltigBis) || LexLe(today, v.gueltigBis.value))
  }

  /** `Number(v.wert) || 0` */
  function Wert(v: Gutschein): int {
    if v.wert.Fin? then v.wert.v else 0
  }

  /** The discount a voucher gives on an original total: for typ 'betrag'
      its value, capped at the total; for any other typ its percentage of
      the total, rounded to the cent. */
  function Discount(v: Gutschein, origTotal: Num): (r: Num)
    ensures r.Fin? <==> origTotal.Fin?
  {
    if v.typ == "betrag" then NumMin(Fin(Wert(v)), origTotal)
    else if origTotal.Fin? then Fin(PercentOf(origTotal.v, Wert(v)))
    else NaN
  }

  /** A fixed-amount voucher never discounts more than the total or more
      than its value, and gives exactly one of the two; a percentage voucher
      of 0..100 % gives between nothing and the whole non-negative total,
      and 100 % gives all of it. */
  lemma DiscountBounds(v: Gutschein, origTotal: Cents)
    ensures var r := Discount(v, Fin(origTotal));
      r.Fin?
      && (v.typ == "betrag" ==> r.v <= origTotal && r.v <= Wert(v) && (r.v == origTotal || r.v == Wert(v)))
      && (v.typ != "betrag" && origTotal >= 0 && 0 <= Wert(v) <= 10000 ==> 0 <= r.v <= origTotal)
      && (v.typ != "betrag" && origTotal >= 0 && Wert(v) == 10000 ==> r.v == origTotal)
  {
    if v.typ != "betrag" && origTotal >= 0 && 0 <= Wert(v) <= 10000 {
      PercentOfBounds(origTotal, Wert(v));
    }
  }

  // ---------------------------------------------------------------------
  // The voucher check

  /** The request body: `{ terminId, anzahl, gutscheincode }`. */
  datatype QuoteRequest = QuoteRequest(terminId: JsVal, anzahl: JsVal, gutscheincode: JsVal)

  datatype Reason = KeinCode | UngueltigOderNichtAktiv | Fehler

  /** `rabatt: { typ, wert, betragBrutto }` */
  datatype Rabatt = Rabatt(typ: Option<string>, wert: Option<int>, betragBrutto: Num)

  datatype QuoteResponse =
    | InvalidTermin   // 400 'Ungültiger Termin'
    | Quote(valid: bool, reason: Option<Reason>, originalPerSeat: Cents, originalTotal: Num,
            rabatt: Rabatt, total: Num, totalPerSeat: Option<Num>)
    | Failed          // 200 { valid: false, reason: 'Fehler' }

  /** `Math.max(1, Number(body.anzahl || 1))` */
  function QuoteAnzahl(anzahl: JsVal): (n: Num)
    ensures n.Fin? ==> n.v >= 1
  {
    AtLeastOne(anzahl)
  }

  /** `String(body.gutscheincode || '').trim()` */
  function QuoteCode(code: JsVal): string {
    Trim(JsString(Or(code, StrV(""))))
  }

  /** `round2(totalBrutto / anzahl)` */
  function PerSeat(total: Num, anzahl: Num): Num
    requires anzahl.Fin? ==> anzahl.v >= 1
  {
    if total.Fin? && anzahl.Fin? then Fin(RoundDiv(total.v, anzahl.v)) else NaN
  }

  /** The reply once a termin with price `stueck` and a non-empty code are
      known; `v` is the voucher stored under exactly that code, if any. */
  function PricedQuote(stueck: Cents, anzahl: Num, v: Option<Gutschein>, today: string): (r: QuoteResponse)
    requires anzahl.Fin? ==> anzahl.v >= 1
  {
    var origTotal := NumMul(Fin(stueck), anzahl);
    var found := v.Some? && IsActive(v.value, today);
    var rabatt := if found then Discount(v.value, origTotal) else Fin(0);
    var total := NumMax(Fin(0), NumSub(origTotal, rabatt));
    Quote(found && NumPositive(rabatt),
          if found then None else Some(UngueltigOderNichtAktiv),
          stueck, origTotal,
          if found then Rabatt(Some(v.value.typ), Some(Wert(v.value)), rabatt) else Rabatt(None, None, Fin(0)),
          total, Some(PerSeat(total, anzahl)))
  }

  /** The voucher check. `today` is the current date as 'YYYY-MM-DD';
      `terminReadOk` and `voucherReadOk` are false when the store's read of
      the termin or of the voucher throws. The code is looked up exactly as
      typed (after trim). */
  function Validate(req: QuoteRequest, termine: map<int, Termin>, gutscheine: map<string, Gutschein>,
                    today: string, terminReadOk: bool, voucherReadOk: bool): QuoteResponse
  {
    var terminId := ToNumber(req.terminId);
    var anzahl := QuoteAnzahl(req.anzahl);
    var code := QuoteCode(req.gutscheincode);
    if terminId.NaN? then InvalidTermin
    else if !terminReadOk then Failed
    else if terminId.v !in termine || ColumnNumber(termine[terminId.v].preis).NaN? then InvalidTermin
    else
      var stueck := ColumnNumber(termine[terminId.v].preis).v;
      var origTotal := NumMul(Fin(stueck), anzahl);
      if code == "" then
        Quote(false, Some(KeinCode), stueck, origTotal, Rabatt(None, None, Fin(0)), origTotal, None)
      else if !voucherReadOk then Failed
      else PricedQuote(stueck, anzahl, if code in gutscheine then Some(gutscheine[code]) else None, today)
  }

  /** A request whose terminId is not a finite number, names no termin, or
      names a termin whose price is not a finite number gets 400
      'Ungültiger Termin'; only a failing read gives the 'Fehler' reply. */
  lemma ValidateRejectsBadTermin(req: QuoteRequest, termine: map<int, Termin>, gutscheine: map<string, Gutschein>,
                                 today: string, terminReadOk: bool, voucherReadOk: bool)
    ensures var r := Validate(req, termine, gutscheine, today, terminReadOk, voucherReadOk);
      var id := ToNumber(req.terminId);
      (r == InvalidTermin <==>
         id.NaN? || (terminReadOk && (id.v !in termine || ColumnNumber(termine[id.v].preis).NaN?)))
      && (r == Failed ==> id.Fin? && (!terminReadOk || !voucherReadOk))
      && (terminReadOk && voucherReadOk ==> r != Failed)
  {
  }

  /** Without a code: not valid, reason 'Kein Code', no discount, and the
      total is the original total, `stueck * anzahl`; the voucher store is
      not consulted. */
  lemma ValidateWithoutCode(req: QuoteRequest, termine: map<int, Termin>, gutscheine: map<string, Gutschein>,
                            today: string, voucherReadOk: bool, id: int, stueck: Cents, n: int)
    requires ToNumber(req.terminId) == Fin(id) && id in termine
    requires ColumnNumber(termine[id].preis) == Fin(stueck)
    requires QuoteAnzahl(req.anzahl) == Fin(n)
    requires IsBlank(JsString(Or(req.gutscheincode, StrV(""))))
    ensures Validate(req, termine, gutscheine, today, true, voucherReadOk)
            == Quote(false, Some(KeinCode), stueck, Fin(stueck * n), Rabatt(None, None, Fin(0)), Fin(stueck * n), None)
  {
  }

  /** With a non-empty code the reply is the priced quote for the voucher
      stored under that exact code. */
  lemma ValidateWithCode(req: QuoteRequest, termine: map<int, Termin>, gutscheine: map<string, Gutschein>,
                         today: string, id: int, stueck: Cents)
    requires ToNumber(req.terminId) == Fin(id) && id in termine
    requires ColumnNumber(termine[id].preis) == Fin(stueck)
    requires QuoteCode(req.gutscheincode) != ""
    ensures var code := QuoteCode(req.gutscheincode);
      Validate(req, termine, gutscheine, today, true, true)
      == PricedQuote(stueck, QuoteAnzahl(req.anzahl), if code in gutscheine then Some(gutscheine[code]) else None, today)
  {
  }

  /** An unknown code, an inactive voucher, or one outside its window: not
      valid, reason 'Ungültig oder nicht aktiv', no discount, the original
      total and its share per seat. */
  lemma PricedUnknownOrInactive(stueck: Cents, n: int, v: Option<Gutschein>, today: string)
    requires n >= 1
    requires v.None? || !IsActive(v.value, today)
    ensures var r := PricedQuote(stueck, Fin(n), v, today);
      r.Quote? && !r.valid && r.reason == Some(UngueltigOderNichtAktiv)
      && r.rabatt == Rabatt(None, None, Fin(0))
      && r.total == Fin(if stueck * n >= 0 then stueck * n else 0)
      && r.totalPerSeat == Some(Fin(RoundDiv(r.total.v, n)))
  {
  }

  /** With a usable voucher the quote is valid exactly when the discount is
      positive; the new total is `max(0, origTotal - rabatt)`, never
      negative, and the price per seat is its rounded share. */
  lemma PricedWithVoucher(stueck: Cents, n: int, v: Gutschein, today: string)
    requires n >= 1
    requires IsActive(v, today)
    ensures var r := PricedQuote(stueck, Fin(n), Some(v), today);
      var rabatt := Discount(v, Fin(stueck * n));
      r.Quote? && r.reason.None? && rabatt.Fin?
      && r.rabatt == Rabatt(Some(v.typ), Some(Wert(v)), rabatt)
      && (r.valid <==> rabatt.v > 0)
      && r.total.Fin? && r.total.v >= 0
      && r.total.v == (if stueck * n - rabatt.v >= 0 then stueck * n - rabatt.v else 0)
      && r.totalPerSeat == Some(Fin(RoundDiv(r.total.v, n)))
  {
  }

  /** A usable voucher never raises the price: the discounted total lies
      between 0 and the original total when the price is non-negative and
      a percentage is at most 100 %. */
  lemma PricedNeverRaises(stueck: Cents, n: int, v: Gutschein, today: string)
    requires n >= 1 && stueck >= 0
    requires IsActive(v, today)
    requires v.typ == "betrag" ==> Wert(v) >= 0
    requires v.typ != "betrag" ==> 0 <= Wert(v) <= 10000
    ensures var r := PricedQuote(stueck, Fin(n), Some(v), today);
      r.Quote? && r.total.Fin? && 0 <= r.total.v <= stueck * n
  {
    assert stueck * n >= 0 by { MulMono(stueck, 0, n); }
    DiscountBounds(v, stueck * n);
  }

  /** For a numeric `anzahl` the count used is at least 1, and a missing,
      zero or empty `anzahl` counts as 1. */
  lemma QuoteAnzahlDefaults(anzahl: JsVal)
    ensures QuoteAnzahl(anzahl).Fin? ==> QuoteAnzahl(anzahl).v >= 1
    ensures !Truthy(anzahl) ==> QuoteAnzahl(anzahl) == Fin(1)
    ensures anzahl.NumV? && anzahl.n.Fin? ==> QuoteAnzahl(anzahl).Fin?
  {
  }
}
