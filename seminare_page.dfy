/** The seminar list page: for every seminar a card with the price line,
    the date of the next termin in German notation and its location. */
module SeminarePage {
  import opened Common
  import opened Entities
  import opened Api

  /** `fmtDateISOToGerman(iso)`: '' for an absent or empty date, otherwise
      the parts around '-' in reverse order, joined by '.'. A missing part
      is written as JavaScript writes `undefined` into a template. */
  function FmtDateIsoToGerman(iso: Option<string>): (r: string)
    ensures r == "" <==> !Filled(iso)
  {
    if !Filled(iso) then ""
    else
      var parts := Split(iso.value, '-');
      var r := JsString(Part(parts, 2)) + "." + JsString(Part(parts, 1)) + "." + JsString(Part(parts, 0));
      assert r[|JsString(Part(parts, 2))|] == '.';
      r
  }

  /** An ISO date 'Y-M-D' becomes 'D.M.Y'. */
  lemma FmtDateOfIso(y: string, m: string, d: string)
    requires '-' !in y && '-' !in m && '-' !in d
    requires y != []
    ensures FmtDateIsoToGerman(Some(y + "-" + m + "-" + d)) == d + "." + m + "." + y
  {
    SplitThree(y, m, d, '-');
  }

  /** Reading the German date back: splitting it at '.' gives day, month
      and year, i.e. the ISO parts reversed, as long as no part holds a
      '.' of its own. */
  lemma FmtDateReadsBack(y: string, m: string, d: string)
    requires '-' !in y && '-' !in m && '-' !in d
    requires '.' !in y && '.' !in m && '.' !in d
    requires y != []
    ensures Split(FmtDateIsoToGerman(Some(y + "-" + m + "-" + d)), '.') == [d, m, y]
  {
    FmtDateOfIso(y, m, d);
    SplitThree(d, m, y, '.');
  }

  /** A date without '-' is taken as the year alone; day and month are
      then missing. */
  lemma FmtDateWithoutDash(s: string)
    requires s != [] && '-' !in s
    ensures FmtDateIsoToGerman(Some(s)) == "undefined.undefined." + s
  {
    SplitNoSep(s, '-');
  }

  /** `s.termine?.[0]` */
  function FirstTermin(s: SeminarListItem): (t: Option<TerminItem>)
    ensures t.Some? <==> s.termine.Some? && |s.termine.value| > 0
    ensures t.Some? ==> t.value == s.termine.value[0]
  {
    if s.termine.Some? && |s.termine.value| > 0 then Some(s.termine.value[0]) else None
  }

  /** `firstTermin?.tage?.[0]?.datum` */
  function FirstDay(s: SeminarListItem): (d: Option<string>)
    ensures var t := FirstTermin(s);
      d.Some? ==> t.Some? && t.value.tage.Some? && |t.value.tage.value| > 0
                  && d == t.value.tage.value[0].datum
  {
    var t := FirstTermin(s);
    if t.Some? && t.value.tage.Some? && |t.value.tage.value| > 0 then t.value.tage.value[0].datum else None
  }

  /** The card of one seminar. `preis` is the value shown after "ab"
      (None: no price line), which may be null and then shows as nothing
      between "ab" and "€"; `naechsterTermin` the formatted first day and
      `ort` the location, each None when the card leaves it out. */
  datatype Card = Card(preis: Option<JsVal>, naechsterTermin: Option<string>, ort: Option<string>)

  function SeminarCard(s: SeminarListItem): (c: Card)
    ensures c.preis.Some? <==> !s.standardPreis.Undefined?
    ensures c.preis.Some? ==> c.preis.value == s.standardPreis
    ensures c.naechsterTermin.Some? <==> Filled(FirstDay(s))
    ensures c.naechsterTermin.Some? ==> c.naechsterTermin.value == FmtDateIsoToGerman(FirstDay(s)) != ""
    ensures c.ort.Some? ==> c.ort.value != ""
  {
    var t := FirstTermin(s);
    var ort := if t.Some? then OrtName(t.value.ort) else None;
    var day := FirstDay(s);
    Card(if s.standardPreis.Undefined? then None else Some(s.standardPreis),
         if Filled(day) then Some(FmtDateIsoToGerman(day)) else None,
         if Filled(ort) then ort else None)
  }

  /** The location comes from the first termin only: its standort, else its
      veranstaltungsort, else its stadt, the first of them that is not
      empty. */
  lemma CardLocation(s: SeminarListItem)
    ensures var c := SeminarCard(s); var t := FirstTermin(s);
      (t.None? || t.value.ort.None? ==> c.ort.None?)
      && (t.Some? && t.value.ort.Some? ==>
            var o := t.value.ort.value;
            (Filled(o.standort) ==> c.ort == o.standort)
            && (!Filled(o.standort) && Filled(o.veranstaltungsort) ==> c.ort == o.veranstaltungsort)
            && (!Filled(o.standort) && !Filled(o.veranstaltungsort) ==> c.ort == (if Filled(o.stadt) then o.stadt else None)))
  {
  }
}
