/** The checkout page: it normalises the query parameters, loads the
    seminar named by the slug (the fetch is a parameter), picks the termin
    and hands everything to the checkout client. */
module CheckoutPage {
  import opened Common
  import opened Money
  import opened Entities
  import opened Api

  /** The query parameters the page reads. */
  datatype SearchParams = SearchParams(slug: Option<string>, terminId: Option<string>,
                                       anzahl: Option<string>, step: Option<string>)

  /** What the page passes to the checkout client. */
  datatype Props = Props(
    initialStep: int, initialSlug: string, initialTerminId: Option<int>, initialAnzahl: Num,
    seminar: Option<SeminarListItem>, termin: Option<TerminItem>,
    paypalClientId: string, paypalCurrency: string)

  /** `Number(step) || 1`: the step asked for, 1 when it is absent, not a
      number or 0. */
  function InitialStep(step: Option<string>): (s: int)
    ensures s != 0
    ensures ToNumber(OptStr(step)).Fin? && ToNumber(OptStr(step)).v != 0 ==> s == ToNumber(OptStr(step)).v
    ensures step.None? ==> s == 1
  {
    var n := ToNumber(OptStr(step));
    if n.Fin? && n.v != 0 then n.v else 1
  }

  /** `s.termine?.find(x => x.id === terminId)`: the first termin with that
      id. */
  function FindTermin(termine: seq<TerminItem>, id: int): (r: Option<nat>)
    ensures r.Some? ==> r.value < |termine| && termine[r.value].id == id
                        && forall j :: 0 <= j < r.value ==> termine[j].id != id
    ensures r.None? <==> forall j :: 0 <= j < |termine| ==> termine[j].id != id
  {
    if termine == [] then None
    else if termine[0].id == id then Some(0)
    else match FindTermin(termine[1..], id)
      case Some(k) => Some(k + 1)
      case None => None
  }

  /** The seminar and the termin: both set, or neither. `fetched` is the
      reply of `getSeminar(slug)` (LookupFailed when it throws). */
  function Selection(slug: string, terminId: Num, fetched: Lookup<SeminarListItem>)
    : (sel: (Option<SeminarListItem>, Option<TerminItem>))
  {
    if slug != "" && terminId.Fin? && fetched.Found? && fetched.value.termine.Some? then
      match FindTermin(fetched.value.termine.value, terminId.v)
      case Some(k) => (Some(fetched.value), Some(fetched.value.termine.value[k]))
      case None => (None, None)
    else (None, None)
  }

  /** Seminar and termin are both set exactly when the slug is non-empty,
      the termin id is a number, the seminar could be loaded and one of its
      termine has that id; the termin is then that seminar's first termin
      with that id. */
  lemma SelectionMeaning(slug: string, terminId: Num, fetched: Lookup<SeminarListItem>)
    ensures var (s, t) := Selection(slug, terminId, fetched);
      (s.Some? <==> t.Some?)
      && (t.Some? <==>
            slug != "" && terminId.Fin? && fetched.Found? && fetched.value.termine.Some?
            && exists j :: 0 <= j < |fetched.value.termine.value| && fetched.value.termine.value[j].id == terminId.v)
      && (t.Some? ==> s == Some(fetched.value) && t.value.id == terminId.v && t.value in fetched.value.termine.value)
  {
    var (s, t) := Selection(slug, terminId, fetched);
    if slug != "" && terminId.Fin? && fetched.Found? && fetched.value.termine.Some? {
      var ts := fetched.value.termine.value;
      var k := FindTermin(ts, terminId.v);
      if k.Some? {
        assert ts[k.value].id == terminId.v;
      }
    }
  }

  /** The page's props for the query parameters, the two environment
      variables `NEXT_PUBLIC_PAYPAL_CLIENT_ID`/`PAYPAL_CLIENT_ID` and
      `NEXT_PUBLIC_PAYPAL_CURRENCY`, and the seminar fetch. */
  function CheckoutProps(q: SearchParams, publicClientId: Option<string>, clientId: Option<string>,
                         currency: Option<string>, fetched: Lookup<SeminarListItem>): (p: Props)
    ensures p.initialStep != 0
    ensures p.initialAnzahl.Fin? ==> p.initialAnzahl.v >= 1
    ensures p.initialSlug == (if Filled(q.slug) then q.slug.value else "")
    ensures p.paypalCurrency == (if Filled(currency) then currency.value else "EUR")
  {
    var slug := if Filled(q.slug) then q.slug.value else "";
    var terminId := ToNumber(OptStr(q.terminId));
    var (s, t) := Selection(slug, terminId, fetched);
    Props(InitialStep(q.step), slug, if terminId.Fin? then Some(terminId.v) else None,
          AtLeastOne(OptStr(q.anzahl)), s, t,
          (OrStr(OrStr(publicClientId, clientId), Some(""))).value,
          (OrStr(currency, Some("EUR"))).value)
  }

  /** The termin id is taken when the parameter is a number; seminar and
      termin are both set or both unset, and when set the termin has the
      requested id and a slug was given. */
  lemma CheckoutPropsSelection(q: SearchParams, publicClientId: Option<string>, clientId: Option<string>,
                               currency: Option<string>, fetched: Lookup<SeminarListItem>)
    ensures var p := CheckoutProps(q, publicClientId, clientId, currency, fetched);
      var n := ToNumber(OptStr(q.terminId));
      (p.initialTerminId.Some? <==> n.Fin?)
      && (p.initialTerminId.Some? ==> p.initialTerminId.value == n.v)
      && (p.seminar.Some? <==> p.termin.Some?)
      && (p.termin.Some? ==> Filled(q.slug) && p.initialTerminId == Some(p.termin.value.id))
  {
    var slug := if Filled(q.slug) then q.slug.value else "";
    SelectionMeaning(slug, ToNumber(OptStr(q.terminId)), fetched);
  }

  /** A page opened without parameters starts at step 1 with one seat, no
      termin and the currency EUR unless configured otherwise. */
  lemma CheckoutPropsDefaults(fetched: Lookup<SeminarListItem>, currency: Option<string>)
    ensures var p := CheckoutProps(SearchParams(None, None, None, None), None, None, currency, fetched);
      p.initialStep == 1 && p.initialAnzahl == Fin(1) && p.initialTerminId.None?
      && p.seminar.None? && p.termin.None? && p.initialSlug == ""
  {
  }

  /** A numeric anzahl is taken as given when it is at least 1 and raised to
      1 otherwise. */
  lemma AnzahlOfNumeral(k: int)
    ensures AtLeastOne(StrV(IntToString(k))) == Fin(if k >= 1 then k else 1)
  {
    ParseIntToString(k);
  }
}
