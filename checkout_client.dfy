/** The checkout client: a four-step form (address, participants, summary
    with the legal check boxes, payment) with a fifth step shown after the
    booking was accepted. It keeps the form state, checks each step, shows
    the price, builds the PayPal `custom_id` and, once PayPal reports a
    capture, the booking request for the backend. */
module CheckoutClient {
  import opened Common
  import opened Money
  import opened Entities
  import opened Api
  import G = GutscheinController
  import B = BuchungController
  import Seed

  // ---------------------------------------------------------------------
  // Form values

  datatype Typ = Privat | Firma

  function TypName(t: Typ): string {
    match t
    case Privat => "privat"
    case Firma => "firma"
  }

  /** The address form; every field is text, '' when not filled in. */
  datatype AdresseForm = AdresseForm(
    vorname: string, nachname: string, email: string, telefon: string,
    firmenname: string, ustId: string, rechnungsEmail: string,
    strasse: string, plz: string, stadt: string, land: string)

  /** The empty form; the country is preset. */
  const InitialAdresse := AdresseForm("", "", "", "", "", "", "", "", "", "", "Deutschland")

  /** One participant in the form. */
  datatype Person = Person(
    vorname: string, nachname: string, email: Option<string>, geburtstag: Option<string>,
    wsetCandidateNumber: Option<string>, besondereBeduerfnisse: Option<string>)

  /** `{ vorname: '', nachname: '' }` */
  const BlankPerson := Person("", "", None, None, None, None)

  /** The keys of a participant that the form edits. */
  datatype PersonKey = VornameKey | NachnameKey | EmailKey | GeburtstagKey | WsetKey | BeduerfnisseKey

  function GetField(p: Person, k: PersonKey): Option<string> {
    match k
    case VornameKey => Some(p.vorname)
    case NachnameKey => Some(p.nachname)
    case EmailKey => p.email
    case GeburtstagKey => p.geburtstag
    case WsetKey => p.wsetCandidateNumber
    case BeduerfnisseKey => p.besondereBeduerfnisse
  }

  /** `{ ...t, [key]: val }`: that key set, every other key kept. */
  function SetField(p: Person, k: PersonKey, v: string): (q: Person)
    ensures GetField(q, k) == Some(v)
    ensures forall k' :: k' != k ==> GetField(q, k') == GetField(p, k')
  {
    match k
    case VornameKey => p.(vorname := v)
    case NachnameKey => p.(nachname := v)
    case EmailKey => p.(email := Some(v))
    case GeburtstagKey => p.(geburtstag := Some(v))
    case WsetKey => p.(wsetCandidateNumber := Some(v))
    case BeduerfnisseKey => p.(besondereBeduerfnisse := Some(v))
  }

  /** The voucher state: the outcome of the last check. */
  datatype Promo = Promo(valid: bool, discount: Cents, totalBrutto: Cents)

  // ---------------------------------------------------------------------
  // Step checks

  /** `validate(s)` for the state given by its parts. */
  function Validate(s: int, typ: Typ, a: AdresseForm, ts: seq<Person>, agb: bool, datenschutz: bool): bool {
    if s == 1 then
      if typ == Privat then a.vorname != "" && a.nachname != "" && a.email != ""
      else a.firmenname != "" && a.vorname != "" && a.nachname != "" && a.rechnungsEmail != ""
           && a.strasse != "" && a.plz != "" && a.stadt != "" && a.land != ""
    else if s == 2 then |ts| > 0 && forall i :: 0 <= i < |ts| ==> ts[i].vorname != "" && ts[i].nachname != ""
    else if s == 3 then agb && datenschutz
    else if s == 4 then agb
    else true
  }

  /** `Math.min(4, Math.max(1, s))` */
  function ClampStep(s: int): (r: int)
    ensures 1 <= r <= 4
    ensures 1 <= s <= 4 ==> r == s
  {
    if s < 1 then 1 else if s > 4 then 4 else s
  }

  /** The length `Array.from({ length: Math.max(1, n) })` gets: at least one,
      and none when n is not a number (the length is then NaN, read as 0). */
  function InitialCount(n: Num): (c: nat)
    ensures n.Fin? ==> c >= 1 && (n.v >= 1 ==> c == n.v)
    ensures n.NaN? ==> c == 0
  {
    if n.NaN? then 0 else if n.v >= 1 then n.v else 1
  }

  /** `arr.length > 1 ? arr.filter((_, i) => i !== idx) : arr` */
  function Removed(ts: seq<Person>, idx: int): (r: seq<Person>)
  {
    if |ts| > 1 && 0 <= idx < |ts| then ts[..idx] + ts[idx + 1..] else ts
  }

  /** Removing never empties a non-empty list; from a longer list it takes
      out exactly entry idx (when there is one) and keeps the others in
      order. */
  lemma RemovedMeaning(ts: seq<Person>, idx: int)
    ensures var r := Removed(ts, idx);
      (|ts| >= 1 ==> |r| >= 1)
      && (|ts| <= 1 || idx < 0 || idx >= |ts| ==> r == ts)
      && (|ts| > 1 && 0 <= idx < |ts| ==>
            |r| == |ts| - 1 && forall j :: 0 <= j < |r| ==> r[j] == ts[if j < idx then j else j + 1])
  {
    if |ts| > 1 && 0 <= idx < |ts| {
      var a, b := ts[..idx], ts[idx + 1..];
      var r := a + b;
      forall j | 0 <= j < |r| ensures r[j] == ts[if j < idx then j else j + 1] {
        if j < idx {
          assert r[j] == a[j];
        } else {
          assert r[j] == b[j - idx];
        }
      }
    }
  }

  /** `arr.map((t, i) => i === idx ? { ...t, [key]: val } : t)` */
  function WithField(ts: seq<Person>, idx: int, k: PersonKey, v: string): (r: seq<Person>)
    ensures |r| == |ts|
    ensures forall j :: 0 <= j < |ts| && j != idx ==> r[j] == ts[j]
    ensures 0 <= idx < |ts| ==> GetField(r[idx], k) == Some(v)
    ensures 0 <= idx < |ts| ==> forall k' :: k' != k ==> GetField(r[idx], k') == GetField(ts[idx], k')
  {
    if 0 <= idx < |ts| then ts[idx := SetField(ts[idx], k, v)] else ts
  }

  // ---------------------------------------------------------------------
  // Price display (in cents; `toFixed(2)` leaves a cent amount as it is)

  /** The seat price: the termin's price when it is a finite number, else
      the seminar's standard price when that is, else 0. */
  function Einzelpreis(terminPreis: Option<Num>, standardPreis: Option<Num>): (r: Cents)
    ensures terminPreis.Some? && terminPreis.value.Fin? ==> r == terminPreis.value.v
    ensures !(terminPreis.Some? && terminPreis.value.Fin?) && standardPreis.Some? && standardPreis.value.Fin?
            ==> r == standardPreis.value.v
    ensures !(terminPreis.Some? && terminPreis.value.Fin?) && !(standardPreis.Some? && standardPreis.value.Fin?) ==> r == 0
  {
    if terminPreis.Some? && terminPreis.value.Fin? then terminPreis.value.v
    else if standardPreis.Some? && standardPreis.value.Fin? then standardPreis.value.v
    else 0
  }

  /** The price shown is the price the backend charges per seat, except
      for a termin whose price is a number that is not positive: there the
      backend falls back to the standard price and the display does not. */
  lemma EinzelpreisMatchesSeatPrice(t: Termin, seminare: map<int, Seminar>)
    requires t.seminar.Some? && t.seminar.value in seminare
    requires !(t.preis.Some? && t.preis.value.Fin? && t.preis.value.v <= 0)
    ensures Einzelpreis(t.preis, seminare[t.seminar.value].standardPreis) == B.SeatPrice(t, seminare, true)
  {
  }

  /** `teilnehmer.length || 1` */
  function Anzahl(ts: seq<Person>): (n: nat)
    ensures n >= 1 && (|ts| > 0 ==> n == |ts|)
  {
    if |ts| == 0 then 1 else |ts|
  }

  /** `promo?.valid ? promo.totalBrutto : zwischensumme` */
  function Gesamt(promo: Option<Promo>, zwischensumme: Cents): (g: Cents)
    ensures promo.Some? && promo.value.valid ==> g == promo.value.totalBrutto
    ensures !(promo.Some? && promo.value.valid) ==> g == zwischensumme
  {
    if promo.Some? && promo.value.valid then promo.value.totalBrutto else zwischensumme
  }

  /** `seminar?.mitMwst !== false` */
  predicate MwstAktiv(seminar: Option<SeminarListItem>) {
    !(seminar.Some? && seminar.value.mitMwst == Some(false))
  }

  /** The net amount shown: the total divided by 1.19, rounded, with VAT;
      the total itself without. */
  function Netto(total: Cents, mwst: bool): Cents {
    if mwst then NetOfGross(total) else total
  }

  /** The VAT shown: what the net amount leaves of the total, 0 without VAT. */
  function Steuer(total: Cents, mwst: bool): Cents {
    if mwst then total - Netto(total, mwst) else 0
  }

  /** Net and VAT add up to the total; with VAT both lie between 0 and a
      non-negative total and the VAT is 19 % of the net amount to within
      0.6 cent; without VAT it is 0. */
  lemma NettoSteuerSplit(total: Cents, mwst: bool)
    ensures Netto(total, mwst) + Steuer(total, mwst) == total
    ensures !mwst ==> Steuer(total, mwst) == 0 && Netto(total, mwst) == total
    ensures mwst && total >= 0 ==>
      0 <= Netto(total, mwst) <= total && 0 <= Steuer(total, mwst)
      && -59 <= 100 * Steuer(total, mwst) - 19 * Netto(total, mwst) <= 59
  {
    if mwst && total >= 0 {
      NetOfGrossBounds(total);
    }
  }

  /** `amount.toFixed(2)`: the amount the PayPal order is created with, as
      euros with two decimals. */
  function Fixed2(c: Cents): (s: string)
    ensures s != []
  {
    if c < 0 then "-" + CentsNumeral(-c) else CentsNumeral(c)
  }

  /** 'E.CC' for m cents. */
  function CentsNumeral(m: nat): string {
    var k := m % 100;
    NatToString(m / 100) + "." + [DigitChar(k / 10), DigitChar(k % 10)]
  }

  /** The backend reads the order amount back as the same number of cents. */
  lemma Fixed2ReadsBack(c: Cents)
    requires c >= 0
    ensures ParseAmount(Fixed2(c)) == Some(Amount(c, 2))
  {
    var e: nat, k: nat := c / 100, c % 100;
    var s := NatToString(e) + "." + [DigitChar(k / 10), DigitChar(k % 10)];
    assert Fixed2(c) == s;
    assert ParseAmount(s) == Some(Amount(100 * e + k, 2)) by {
      ParseCentsNumeral(e, k);
    }
  }

  // ---------------------------------------------------------------------
  // The voucher check

  /** `Number(x || 0)` of a JS number. */
  function NumOrZero(x: Num): Cents {
    if x.Fin? then x.v else 0
  }

  /** The promo state after the voucher check answered. `reply` is the
      validate endpoint's answer (LookupFailed when the request or its JSON
      throws). As written, the new total is `Number(total.gesamtpreisBrutto
      || zwischensumme)`: a total of 0 counts as missing. */
  function PromoFromReply(reply: Lookup<G.QuoteResponse>, zwischensumme: Cents): (p: Option<Promo>)
    ensures reply.LookupFailed? <==> p.None?
    ensures p.Some? && p.value.valid <==> reply.Found? && reply.value.Quote? && reply.value.valid
    ensures p.Some? && !p.value.valid ==> p.value == Promo(false, 0, zwischensumme)
  {
    if reply.LookupFailed? then None
    else if reply.value.Quote? && reply.value.valid then
      var q := reply.value;
      Some(Promo(true, NumOrZero(q.rabatt.betragBrutto),
                 if Truthy(NumV(q.total)) then q.total.v else zwischensumme))
    else Some(Promo(false, 0, zwischensumme))
  }

  /** The evidently intended promo state: the quoted total is taken
      whenever it is a number, 0 included (`??` instead of `||`). */
  function PromoFromReplyFixed(reply: Lookup<G.QuoteResponse>, zwischensumme: Cents): (p: Option<Promo>)
    ensures reply.LookupFailed? <==> p.None?
    ensures p.Some? && p.value.valid <==> reply.Found? && reply.value.Quote? && reply.value.valid
    ensures p.Some? && p.value.valid && reply.value.total.Fin? ==> p.value.totalBrutto == reply.value.total.v
    ensures p.Some? && !p.value.valid ==> p.value == Promo(false, 0, zwischensumme)
  {
    if reply.LookupFailed? then None
    else if reply.value.Quote? && reply.value.valid then
      var q := reply.value;
      Some(Promo(true, NumOrZero(q.rabatt.betragBrutto), if q.total.Fin? then q.total.v else zwischensumme))
    else Some(Promo(false, 0, zwischensumme))
  }

  /** The two differ only on a valid quote whose total is 0. */
  lemma PromoFixedDiffersOnlyAtZero(reply: Lookup<G.QuoteResponse>, z: Cents)
    ensures PromoFromReply(reply, z) != PromoFromReplyFixed(reply, z) ==>
      reply.Found? && reply.value.Quote? && reply.value.valid && reply.value.total == Fin(0) && z != 0
  {
  }

  /** A completed EUR capture of `Fixed2(shown)` passes the booking's
      check against `expected` exactly when the two are at most a cent
      apart, and is refused for its amount otherwise. */
  lemma CaptureOfShown(shown: Cents, expected: Cents)
    requires shown >= 0
    ensures B.CaptureCheck(Found(B.Capture(Some("COMPLETED"), Some(Fixed2(shown)), Some("EUR"))), expected)
            == if -1 <= shown - expected <= 1 then None else Some(B.BetragWeichtAb)
  {
    CompletedEurCapture(Fixed2(shown), expected);
    Fixed2ReadsBack(shown);
    WithinOneCentOfCents(shown, expected);
  }

  /** A completed EUR capture passes exactly when its value is a
      non-empty numeral of an amount within a cent of the expected total;
      otherwise it is refused for its amount. */
  lemma CompletedEurCapture(value: string, expected: Cents)
    ensures B.CaptureCheck(Found(B.Capture(Some("COMPLETED"), Some(value), Some("EUR"))), expected)
            == if value != [] && ParseAmount(value).Some? && WithinOneCent(ParseAmount(value).value, expected)
               then None else Some(B.BetragWeichtAb)
  {
    UpperCompleted();
    UpperEur();
  }

  lemma UpperCompleted()
    ensures Upper("COMPLETED") == "COMPLETED"
  {
    UpperFixed("COMPLETED");
  }

  lemma UpperEur()
    ensures Upper("EUR") == "EUR"
  {
    UpperFixed("EUR");
  }

  /** The finding, as written: a fixed-amount voucher that covers the whole
      order is valid and quotes a total of 0, but the checkout then shows,
      and creates the PayPal order for, the undiscounted subtotal. The
      booking expects 0, so once PayPal has captured the full price the
      backend refuses the booking with 'Betrag weicht ab' (for any subtotal
      above one cent, which the tolerance would still accept). */
  lemma FullDiscountRefusedAfterPayment(termin: Termin, seminare: map<int, Seminar>,
                                        gutscheine: map<string, Gutschein>, code: string, today: string, n: int,
                                        pick: nat)
    requires n >= 1
    requires ColumnNumber(termin.preis).Fin? && ColumnNumber(termin.preis).v > 0
    requires B.OnlySpelling(code, gutscheine) && gutscheine[code].typ == "betrag" && G.IsActive(gutscheine[code], today)
    requires G.Wert(gutscheine[code]) >= ColumnNumber(termin.preis).v * n
    ensures var stueck := ColumnNumber(termin.preis).v;
      var z := stueck * n;
      var q := G.PricedQuote(stueck, Fin(n), Some(gutscheine[code]), today);
      var shown := Gesamt(PromoFromReply(Found(q), z), z);
      var seat := B.SeatPrice(termin, seminare, true);
      var expected := B.Expected(seat, n, B.BookingDiscount(Some(code), gutscheine, today, true, pick, seat, n));
      q.Quote? && q.valid && q.total == Fin(0) && shown == z && expected == 0
      && (z > 1 ==> B.CaptureCheck(Found(B.Capture(Some("COMPLETED"), Some(Fixed2(shown)), Some("EUR"))), expected)
                    == Some(B.BetragWeichtAb))
  {
    var stueck := ColumnNumber(termin.preis).v;
    var z := stueck * n;
    assert z >= 1 by { MulMono(stueck, 1, n); }
    var v := gutscheine[code];
    var q := G.PricedQuote(stueck, Fin(n), Some(v), today);
    assert q.Quote? && q.valid && q.total == Fin(0) by {
      G.DiscountBounds(v, z);
      assert G.Discount(v, Fin(z)) == Fin(z);
    }
    var seat := B.SeatPrice(termin, seminare, true);
    assert B.Expected(seat, n, B.BookingDiscount(Some(code), gutscheine, today, true, pick, seat, n)) == 0 by {
      B.QuoteMatchesVerifier(termin, seminare, gutscheine, code, today, n, pick, true);
    }
    assert Gesamt(PromoFromReply(Found(q), z), z) == z;
    if z > 1 {
      CaptureOfShown(z, 0);
    }
  }

  /** Corrected: the displayed total, and with it the PayPal order, is the
      total the booking verifier expects, and a capture of it passes. */
  lemma QuotedTotalIsChargedFixed(termin: Termin, seminare: map<int, Seminar>,
                                  gutscheine: map<string, Gutschein>, code: string, today: string, n: int,
                                  pick: nat)
    requires n >= 1
    requires ColumnNumber(termin.preis).Fin? && ColumnNumber(termin.preis).v > 0
    requires B.OnlySpelling(code, gutscheine) && G.Wert(gutscheine[code]) >= 0
    ensures var stueck := ColumnNumber(termin.preis).v;
      var z := stueck * n;
      var q := G.PricedQuote(stueck, Fin(n), Some(gutscheine[code]), today);
      var shown := Gesamt(PromoFromReplyFixed(Found(q), z), z);
      var seat := B.SeatPrice(termin, seminare, true);
      var expected := B.Expected(seat, n, B.BookingDiscount(Some(code), gutscheine, today, true, pick, seat, n));
      shown == expected
      && B.CaptureCheck(Found(B.Capture(Some("COMPLETED"), Some(Fixed2(shown)), Some("EUR"))), expected).None?
  {
    var stueck := ColumnNumber(termin.preis).v;
    var z := stueck * n;
    assert z >= 0 by { MulMono(stueck, 0, n); }
    B.QuoteMatchesVerifier(termin, seminare, gutscheine, code, today, n, pick, true);
    var seat := B.SeatPrice(termin, seminare, true);
    var expected := B.Expected(seat, n, B.BookingDiscount(Some(code), gutscheine, today, true, pick, seat, n));
    var q := G.PricedQuote(stueck, Fin(n), Some(gutscheine[code]), today);
    assert q.total == Fin(expected);
    if !q.valid {
      UnusedVoucherKeepsTotal(stueck, n, gutscheine[code], today);
    }
    CaptureOfShown(expected, expected);
  }

  /** A quote that is not valid leaves the total at the subtotal, provided
      the voucher's value is not negative. */
  lemma UnusedVoucherKeepsTotal(stueck: Cents, n: int, v: Gutschein, today: string)
    requires n >= 1 && stueck >= 0 && G.Wert(v) >= 0
    ensures var q := G.PricedQuote(stueck, Fin(n), Some(v), today);
      !q.valid ==> q.total == Fin(stueck * n)
  {
    var z := stueck * n;
    assert z >= 0 by { MulMono(stueck, 0, n); }
    G.DiscountBounds(v, z);
    if v.typ != "betrag" {
      MulMono(z, 0, G.Wert(v));
      RoundDivMono(0, z * G.Wert(v), 10000);
      RoundDivExact(0, 10000);
    }
  }

  // ---------------------------------------------------------------------
  // custom_id and the booking request

  /** `${initialSlug || 'seminar'}|${initialTerminId || ''}|${anzahl}` */
  function CustomId(slug: Option<string>, terminId: Option<int>, anzahl: int): string {
    (if Filled(slug) then slug.value else "seminar") + "|" + TerminPart(terminId) + "|" + IntToString(anzahl)
  }

  lemma IntToStringNoPipe(i: int)
    ensures '|' !in IntToString(i)
  {
    var s := IntToString(i);
    var m: nat := if i < 0 then -i else i;
    forall k | 0 <= k < |s| ensures s[k] != '|' {
      if i < 0 && k > 0 {
        assert s[k] == NatToString(m)[k - 1];
      }
    }
  }

  /** The termin part of the custom_id: the id's numeral, '' for none. */
  function TerminPart(terminId: Option<int>): string {
    if terminId.Some? && terminId.value != 0 then IntToString(terminId.value) else ""
  }

  lemma TerminPartReadsBack(terminId: Option<int>)
    ensures '|' !in TerminPart(terminId)
    ensures ParseNumber(TerminPart(terminId)) == Fin(if terminId.Some? then terminId.value else 0)
  {
    if terminId.Some? && terminId.value != 0 {
      IntToStringNoPipe(terminId.value);
      ParseIntToString(terminId.value);
    } else {
      BlankIffAllSpace("");
    }
  }

  /** The backend recovers the termin id and the seat count from the
      custom_id, provided the slug holds no '|'; a missing or zero termin id
      reads back as 0, which the backend does not accept as a termin. */
  lemma CustomIdRoundTrip(slug: Option<string>, terminId: Option<int>, anzahl: int)
    requires !Filled(slug) || '|' !in slug.value
    ensures B.CustomIdParts(StrV(CustomId(slug, terminId, anzahl)))
            == (Some(if terminId.Some? then terminId.value else 0), Some(anzahl))
  {
    var a := if Filled(slug) then slug.value else "seminar";
    var t := TerminPart(terminId);
    var c := IntToString(anzahl);
    IntToStringNoPipe(anzahl);
    ParseIntToString(anzahl);
    TerminPartReadsBack(terminId);
    assert CustomId(slug, terminId, anzahl) == a + ['|'] + t + ['|'] + c;
    SplitThree(a, t, c, '|');
  }

  /** Every slug the seed gives a seminar is safe in a custom_id. */
  lemma SeedSlugRoundTrip(seminarname: string, terminId: Option<int>, anzahl: int)
    ensures var slug := Some(Seed.Slugify(seminarname));
      B.CustomIdParts(StrV(CustomId(slug, terminId, anzahl)))
      == (Some(if terminId.Some? then terminId.value else 0), Some(anzahl))
  {
    Seed.SlugifyShape(seminarname);
    CustomIdRoundTrip(Some(Seed.Slugify(seminarname)), terminId, anzahl);
  }

  /** When the request carries no usable termin id but names the PayPal
      order, the backend takes termin id and seat count from the order's
      custom_id as the checkout built it. */
  lemma CustomIdResolvesTermin(b: B.CreateBody, slug: Option<string>, terminId: int, anzahl: int)
    requires !Filled(slug) || '|' !in slug.value
    requires terminId != 0
    requires !B.Usable(B.ParseTermin(Coalesce(b.terminId, b.termin))) && Truthy(b.paypalOrderId)
    ensures B.ResolveTermin(b, Found(StrV(CustomId(slug, Some(terminId), anzahl)))) == (Some(terminId), Some(anzahl))
  {
    CustomIdRoundTrip(slug, Some(terminId), anzahl);
  }

  /** `x || undefined` for an optional text. */
  function OrUndefined(x: Option<string>): JsVal {
    if Filled(x) then StrV(x.value) else Undefined
  }

  /** `s || undefined` for a form field. */
  function NonEmpty(s: string): Option<string> {
    if s != "" then Some(s) else None
  }

  /** A participant as sent: names as they stand, other fields only when filled. */
  function PersonIn(p: Person): B.TeilnehmerIn {
    B.TeilnehmerIn(StrV(p.vorname), StrV(p.nachname), OrUndefined(p.email), OrUndefined(p.geburtstag),
                   OrUndefined(p.wsetCandidateNumber), OrUndefined(p.besondereBeduerfnisse))
  }

  function PersonsIn(ts: seq<Person>): (r: seq<B.TeilnehmerIn>)
    ensures |r| == |ts| && forall i :: 0 <= i < |ts| ==> r[i] == PersonIn(ts[i])
  {
    if ts == [] then [] else [PersonIn(ts[0])] + PersonsIn(ts[1..])
  }

  /** `initialTerminId || termin?.id`: what is sent as terminId. */
  function TerminIdToSend(initialTerminId: Option<int>, termin: Option<TerminItem>): (r: JsVal)
    ensures initialTerminId.Some? && initialTerminId.value != 0 ==> r == NumV(Fin(initialTerminId.value))
    ensures !(initialTerminId.Some? && initialTerminId.value != 0) && termin.Some? ==> r == NumV(Fin(termin.value.id))
    ensures !(initialTerminId.Some? && initialTerminId.value != 0) && termin.None? ==> r == Undefined
  {
    if initialTerminId.Some? && initialTerminId.value != 0 then NumV(Fin(initialTerminId.value))
    else if termin.Some? then NumV(Fin(termin.value.id))
    else Undefined
  }

  /** The body of `POST /public/buchungen` after PayPal reported the
      capture `captureId`. */
  function BookingBody(typ: Typ, a: AdresseForm, ts: seq<Person>, datenschutz: bool, newsletter: bool,
                       promo: Option<Promo>, gutscheincode: string, initialTerminId: Option<int>,
                       termin: Option<TerminItem>, captureId: string): B.CreateBody
  {
    var firma := typ == Firma;
    B.CreateBody(
      TerminIdToSend(initialTerminId, termin), Undefined, Undefined, StrV(captureId),
      B.Items(PersonsIn(ts)),
      if promo.Some? && promo.value.valid then StrV(gutscheincode) else Undefined,
      Adresse(Some(a.vorname), Some(a.nachname), if firma then None else Some(a.email), NonEmpty(a.telefon),
              if firma then Some(a.firmenname) else None, if firma then Some(a.ustId) else None,
              if firma then Some(a.rechnungsEmail) else None,
              NonEmpty(a.strasse), NonEmpty(a.plz), NonEmpty(a.stadt), NonEmpty(a.land)),
      Some(TypName(typ)), Bool(true), Bool(datenschutz), Bool(newsletter), None,
      Undefined, None, Undefined)
  }

  /** What the request reveals: the contact e-mail only for a private
      invoice, the company fields only for a company invoice, the voucher
      code only after a valid check; the terms are always accepted and the
      capture id is always sent, and no status is sent at all. */
  lemma BookingBodyFields(typ: Typ, a: AdresseForm, ts: seq<Person>, datenschutz: bool, newsletter: bool,
                          promo: Option<Promo>, code: string, initialTerminId: Option<int>,
                          termin: Option<TerminItem>, captureId: string)
    ensures var b := BookingBody(typ, a, ts, datenschutz, newsletter, promo, code, initialTerminId, termin, captureId);
      (b.adresse.email.Some? <==> typ == Privat)
      && (b.adresse.firmenname.Some? <==> typ == Firma)
      && (b.adresse.ustId.Some? <==> typ == Firma)
      && (b.adresse.rechnungsEmail.Some? <==> typ == Firma)
      && (Truthy(b.gutscheincode) ==> promo.Some? && promo.value.valid)
      && (promo.Some? && promo.value.valid ==> b.gutscheincode == StrV(code))
      && Truthy(b.agbAkzeptiert) && b.paypalCaptureId == StrV(captureId)
      && b.buchungsstatus == Undefined && b.rechnungstyp == Some(TypName(typ))
      && b.teilnehmer.Items? && |b.teilnehmer.items| == |ts|
  {
  }

  /** A form that passes step 1 gives the backend a customer e-mail: the
      contact e-mail for a private invoice, the invoice e-mail for a
      company. */
  lemma BookingBodyCustomerEmail(typ: Typ, a: AdresseForm, ts: seq<Person>, datenschutz: bool, newsletter: bool,
                                 promo: Option<Promo>, code: string, initialTerminId: Option<int>,
                                 termin: Option<TerminItem>, captureId: string, agb: bool)
    requires Validate(1, typ, a, ts, agb, datenschutz)
    ensures var b := BookingBody(typ, a, ts, datenschutz, newsletter, promo, code, initialTerminId, termin, captureId);
      B.CustomerEmail(B.Rechnungstyp(b), b.adresse) == Some(if typ == Privat then a.email else a.rechnungsEmail)
      && Filled(B.CustomerEmail(B.Rechnungstyp(b), b.adresse))
  {
  }

  /** The backend accepts the participants exactly when there is at least
      one and every name is non-blank. The client's step 2 asks only for
      non-empty names, so a name of spaces passes it and is refused later. */
  lemma BookingBodyParticipants(typ: Typ, a: AdresseForm, ts: seq<Person>, datenschutz: bool, newsletter: bool,
                                promo: Option<Promo>, code: string, initialTerminId: Option<int>,
                                termin: Option<TerminItem>, captureId: string)
    ensures var b := BookingBody(typ, a, ts, datenschutz, newsletter, promo, code, initialTerminId, termin, captureId);
      B.TeilnehmerError(b.teilnehmer).None? <==>
        |ts| >= 1 && forall i :: 0 <= i < |ts| ==> !IsBlank(ts[i].vorname) && !IsBlank(ts[i].nachname)
  {
    var b := BookingBody(typ, a, ts, datenschutz, newsletter, promo, code, initialTerminId, termin, captureId);
    assert b.teilnehmer == B.Items(PersonsIn(ts));
    PersonsInChecked(ts);
  }

  lemma PersonNamed(p: Person)
    ensures B.NameGiven(PersonIn(p).vorname) && B.NameGiven(PersonIn(p).nachname)
            <==> !IsBlank(p.vorname) && !IsBlank(p.nachname)
  {
  }

  lemma PersonsInChecked(ts: seq<Person>)
    ensures B.TeilnehmerError(B.Items(PersonsIn(ts))).None? <==>
      |ts| >= 1 && forall i :: 0 <= i < |ts| ==> !IsBlank(ts[i].vorname) && !IsBlank(ts[i].nachname)
  {
    var items := PersonsIn(ts);
    if |ts| >= 1 {
      B.CheckFromMeaning(items, 0);
      NamedIff(ts, items);
    }
  }

  lemma NamedIff(ts: seq<Person>, items: seq<B.TeilnehmerIn>)
    requires |items| == |ts| && forall i :: 0 <= i < |ts| ==> items[i] == PersonIn(ts[i])
    ensures B.AllNamed(items, 0) <==> forall i :: 0 <= i < |ts| ==> !IsBlank(ts[i].vorname) && !IsBlank(ts[i].nachname)
  {
    forall i | 0 <= i < |ts|
      ensures (B.NameGiven(items[i].vorname) && B.NameGiven(items[i].nachname))
              <==> (!IsBlank(ts[i].vorname) && !IsBlank(ts[i].nachname))
    {
      PersonNamed(ts[i]);
    }
  }

  /** Step 2 accepts a participant named with a single space. */
  lemma StepTwoWeakerThanBackend()
    ensures var ts := [Person(" ", " ", None, None, None, None)];
      Validate(2, Privat, InitialAdresse, ts, true, true) && IsBlank(ts[0].vorname)
  {
    assert IsSpace(' ');
    BlankIffAllSpace(" ");
  }

  // ---------------------------------------------------------------------
  // The client state

  class Checkout {
    var step: int
    var rechnungstyp: Typ
    var adresse: AdresseForm
    var teilnehmer: seq<Person>
    var gutscheincode: string
    var promo: Option<Promo>
    var datenschutz: bool
    var newsletter: bool
    var agb: bool
    const initialSlug: Option<string>
    const initialTerminId: Option<int>
    const seminar: Option<SeminarListItem>
    const termin: Option<TerminItem>

    /** The step is one of the four form steps or the success step. */
    predicate Valid()
      reads this
    {
      1 <= step <= 5
    }

    /** The initial state for the page's props. */
    constructor (initialStep: int, initialSlug: Option<string>, initialTerminId: Option<int>, initialAnzahl: Num,
                 seminar: Option<SeminarListItem>, termin: Option<TerminItem>)
      ensures Valid()
      ensures step == ClampStep(initialStep) && rechnungstyp == Privat && adresse == InitialAdresse
      ensures teilnehmer == seq(InitialCount(initialAnzahl), _ => BlankPerson)
      ensures gutscheincode == "" && promo.None? && !datenschutz && !newsletter && agb
      ensures this.initialSlug == initialSlug && this.initialTerminId == initialTerminId
      ensures this.seminar == seminar && this.termin == termin
    {
      step := ClampStep(initialStep);
      rechnungstyp := Privat;
      adresse := InitialAdresse;
      teilnehmer := seq(InitialCount(initialAnzahl), _ => BlankPerson);
      gutscheincode := "";
      promo := None;
      datenschutz := false;
      newsletter := false;
      agb := true;
      this.initialSlug := initialSlug;
      this.initialTerminId := initialTerminId;
      this.seminar := seminar;
      this.termin := termin;
    }

    /** `validate(s)` on the current state. */
    predicate StepOk(s: int)
      reads this
    {
      Validate(s, rechnungstyp, adresse, teilnehmer, agb, datenschutz)
    }

    /** `goNext`: one step on, at most to step 4, and only when the current
      step validates. */
    method GoNext()
      requires Valid()
      modifies this`step
      ensures Valid()
      ensures step == (if StepOk(old(step)) then (if old(step) + 1 < 4 then old(step) + 1 else 4) else old(step))
    {
      var next := if step + 1 < 4 then step + 1 else 4;
      if StepOk(step) {
        step := next;
      }
    }

    /** `goPrev`: one step back, never below step 1. */
    method GoPrev()
      requires Valid()
      modifies this`step
      ensures Valid()
      ensures step == (if old(step) - 1 > 1 then old(step) - 1 else 1)
    {
      step := if step - 1 > 1 then step - 1 else 1;
    }

    /** A click on the header of step k opens it, without any check. */
    method OpenStep(k: int)
      requires 1 <= k <= 5
      modifies this`step
      ensures Valid() && step == k
    {
      step := k;
    }

    /** After the backend accepted the booking: step 5. */
    method BookingAccepted()
      modifies this`step
      ensures Valid() && step == 5
    {
      step := 5;
    }

    method SetRechnungstyp(t: Typ)
      modifies this`rechnungstyp
      ensures rechnungstyp == t
    {
      rechnungstyp := t;
    }

    method SetAdresse(a: AdresseForm)
      modifies this`adresse
      ensures adresse == a
    {
      adresse := a;
    }

    method SetChecks(agb: bool, datenschutz: bool, newsletter: bool)
      modifies this`agb, this`datenschutz, this`newsletter
      ensures this.agb == agb && this.datenschutz == datenschutz && this.newsletter == newsletter
    {
      this.agb := agb;
      this.datenschutz := datenschutz;
      this.newsletter := newsletter;
    }

    method SetGutscheincode(code: string)
      modifies this`gutscheincode
      ensures gutscheincode == code
    {
      gutscheincode := code;
    }

    /** `addTeilnehmer`: one blank participant more. */
    method AddTeilnehmer()
      modifies this`teilnehmer
      ensures teilnehmer == old(teilnehmer) + [BlankPerson]
    {
      teilnehmer := teilnehmer + [BlankPerson];
    }

    /** `removeTeilnehmer(idx)` */
    method RemoveTeilnehmer(idx: int)
      modifies this`teilnehmer
      ensures teilnehmer == Removed(old(teilnehmer), idx)
      ensures |old(teilnehmer)| >= 1 ==> |teilnehmer| >= 1
    {
      RemovedMeaning(teilnehmer, idx);
      teilnehmer := Removed(teilnehmer, idx);
    }

    /** `setTeilnehmerField(idx, key, val)` */
    method SetTeilnehmerField(idx: int, k: PersonKey, v: string)
      modifies this`teilnehmer
      ensures teilnehmer == WithField(old(teilnehmer), idx, k, v)
    {
      teilnehmer := WithField(teilnehmer, idx, k, v);
    }

    function Einzel(): Cents
      reads this
    {
      Einzelpreis(if termin.Some? then termin.value.preis else None,
                  if seminar.Some? then NumberValue(seminar.value.standardPreis) else None)
    }

    /** `zwischensumme = round2(einzelpreis * anzahl)` */
    function Zwischensumme(): Cents
      reads this
    {
      Einzel() * Anzahl(teilnehmer)
    }

    /** The amount shown and sent to PayPal. */
    function Total(): (g: Cents)
      reads this
      ensures !(promo.Some? && promo.value.valid) ==> g == Einzel() * Anzahl(teilnehmer)
    {
      Gesamt(promo, Zwischensumme())
    }

    /** The "Prüfen" button. Without a termin id nothing is asked and
      nothing changes; otherwise the promo state follows the reply, with a
      quoted total of 0 replaced by the subtotal, as written. */
    method CheckVoucher(reply: Lookup<G.QuoteResponse>)
      modifies this`promo
      ensures !Truthy(TerminIdToSend(initialTerminId, termin)) ==> promo == old(promo)
      ensures Truthy(TerminIdToSend(initialTerminId, termin)) ==> promo == PromoFromReply(reply, Zwischensumme())
    {
      if Truthy(TerminIdToSend(initialTerminId, termin)) {
        promo := PromoFromReply(reply, Zwischensumme());
      }
    }

    /** The "Prüfen" button as evidently intended: a quoted total of 0 is
      taken as it is. */
    method CheckVoucherFixed(reply: Lookup<G.QuoteResponse>)
      modifies this`promo
      ensures !Truthy(TerminIdToSend(initialTerminId, termin)) ==> promo == old(promo)
      ensures Truthy(TerminIdToSend(initialTerminId, termin)) ==> promo == PromoFromReplyFixed(reply, Zwischensumme())
    {
      if Truthy(TerminIdToSend(initialTerminId, termin)) {
        promo := PromoFromReplyFixed(reply, Zwischensumme());
      }
    }

    /** The PayPal button lets an order start only when steps 1 and 2
      validate and the terms are accepted. */
    predicate MayPay()
      reads this
    {
      StepOk(1) && StepOk(2) && agb
    }

    /** The order's custom_id. */
    function OrderCustomId(): string
      reads this
    {
      CustomId(initialSlug, initialTerminId, Anzahl(teilnehmer))
    }

    /** The booking request once PayPal reports the capture. */
    function Request(captureId: string): (b: B.CreateBody)
      reads this
      ensures MayPay() ==> B.TeilnehmerError(b.teilnehmer).None? || exists i :: 0 <= i < |teilnehmer| && (IsBlank(teilnehmer[i].vorname) || IsBlank(teilnehmer[i].nachname))
    {
      var b := BookingBody(rechnungstyp, adresse, teilnehmer, datenschutz, newsletter, promo, gutscheincode,
                           initialTerminId, termin, captureId);
      BookingBodyParticipants(rechnungstyp, adresse, teilnehmer, datenschutz, newsletter, promo, gutscheincode,
                              initialTerminId, termin, captureId);
      b
    }
  }
}
