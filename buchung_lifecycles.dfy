/** The write hooks of the buchung content type (`beforeCreate`,
    `beforeUpdate`). They check the `data` object of a create or update
    and normalise it in place: the participant count, the company fields
    and the per-seat and total price. A thrown error is a `HookError`; it
    aborts the write. */
module BuchungLifecycles {
  import opened Common
  import opened Entities

  /** `data.teilnehmer`: not an array (falsy or truthy), or an array of
      `count` entries. */
  datatype Participants = NotAList(truthy: bool) | List(count: nat)

  datatype HookError = MindestensEinTeilnehmer | FirmaFeldFehlt(field: string)

  /** The `data` object of the write. The scalar fields the hooks read and
      write (`rechnungstyp`, the company fields, `termin`, `anzahl`,
      `preisProPlatz`, `gesamtpreis`) are kept by name; a missing key is
      undefined. */
  class HookData {
    var teilnehmer: Participants
    var fields: map<string, JsVal>

    constructor (teilnehmer: Participants, fields: map<string, JsVal>)
      ensures this.teilnehmer == teilnehmer && this.fields == fields
    {
      this.teilnehmer := teilnehmer;
      this.fields := fields;
    }

    function Field(k: string): JsVal
      reads this
    {
      if k in fields then fields[k] else Undefined
    }
  }

  function Lookup(fields: map<string, JsVal>, k: string): JsVal {
    if k in fields then fields[k] else Undefined
  }

  // ---------------------------------------------------------------------
  // The checks

  /** `ensureTeilnehmerArray`: throws unless the list is a non-empty array. */
  function TeilnehmerCheck(p: Participants): (r: Option<HookError>)
    ensures r.None? <==> p.List? && p.count >= 1
    ensures r.Some? ==> r.value == MindestensEinTeilnehmer
  {
    if !p.List? || p.count < 1 then Some(MindestensEinTeilnehmer) else None
  }

  /** The company fields required for `rechnungstyp 'firma'`, in the order
      they are checked. */
  const FirmaFields: seq<string> := ["firmenname", "rechnungsEmail", "strasse", "plz", "stadt", "land"]

  /** A required field is missing when it is falsy or a blank string. */
  predicate Missing(v: JsVal) {
    !Truthy(v) || (v.StrV? && IsBlank(v.s))
  }

  /** This is the check as written, `!data[f] || String(data[f]).trim() === ''`:
      the text of a truthy number or boolean is never blank. */
  lemma MissingAsWritten(v: JsVal)
    ensures Missing(v) <==> !Truthy(v) || IsBlank(JsString(v))
  {
    if Truthy(v) && !v.StrV? {
      var s := JsString(v);
      assert s != [] && !IsSpace(s[0]) by {
        if v.NumV? {
          var m: nat := if v.n.v < 0 then -v.n.v else v.n.v;
          assert v.n.v >= 0 ==> s == NatToString(m);
          assert IsDigit(NatToString(m)[0]);
        }
      }
      BlankIffAllSpace(s);
    }
  }

  /** The first field from index i on that is missing. */
  function FirstMissing(fields: map<string, JsVal>, names: seq<string>, i: nat): (r: Option<string>)
    requires i <= |names|
    decreases |names| - i
  {
    if i == |names| then None
    else if Missing(Lookup(fields, names[i])) then Some(names[i])
    else FirstMissing(fields, names, i + 1)
  }

  /** `ensureFirmaFieldsIfNeeded` as a function. */
  function FirmaCheck(fields: map<string, JsVal>): Option<HookError> {
    if Lookup(fields, "rechnungstyp") != StrV("firma") then None
    else match FirstMissing(fields, FirmaFields, 0)
      case Some(f) => Some(FirmaFeldFehlt(f))
      case None => None
  }

  predicate AllPresent(fields: map<string, JsVal>, names: seq<string>, i: nat)
    requires i <= |names|
  {
    forall j :: i <= j < |names| ==> !Missing(Lookup(fields, names[j]))
  }

  lemma AllPresentStep(fields: map<string, JsVal>, names: seq<string>, i: nat)
    requires i < |names|
    ensures AllPresent(fields, names, i) <==> !Missing(Lookup(fields, names[i])) && AllPresent(fields, names, i + 1)
  {
  }

  /** The company-field scan passes exactly when no field from index i on
      is missing. */
  lemma {:induction false} FirstMissingNone(fields: map<string, JsVal>, names: seq<string>, i: nat)
    requires i <= |names|
    ensures FirstMissing(fields, names, i).None? <==> AllPresent(fields, names, i)
    decreases |names| - i
  {
    if i < |names| {
      FirstMissingNone(fields, names, i + 1);
      AllPresentStep(fields, names, i);
    }
  }

  /** When the scan fails it names the first missing field. */
  lemma {:induction false} FirstMissingFirst(fields: map<string, JsVal>, names: seq<string>, i: nat) returns (k: nat)
    requires i <= |names| && FirstMissing(fields, names, i).Some?
    ensures i <= k < |names| && FirstMissing(fields, names, i) == Some(names[k])
    ensures Missing(Lookup(fields, names[k]))
    ensures forall j :: i <= j < k ==> !Missing(Lookup(fields, names[j]))
    decreases |names| - i
  {
    if Missing(Lookup(fields, names[i])) {
      k := i;
    } else {
      k := FirstMissingFirst(fields, names, i + 1);
    }
  }

  /** Other invoice types are not checked at all; a company invoice passes
      exactly when all six fields are present and non-blank. */
  lemma FirmaCheckMeaning(fields: map<string, JsVal>)
    ensures Lookup(fields, "rechnungstyp") != StrV("firma") ==> FirmaCheck(fields).None?
    ensures Lookup(fields, "rechnungstyp") == StrV("firma") ==>
      (FirmaCheck(fields).None? <==> AllPresent(fields, FirmaFields, 0))
    ensures FirmaCheck(fields).Some? ==> exists f :: f in FirmaFields && FirmaCheck(fields) == Some(FirmaFeldFehlt(f))
  {
    FirstMissingNone(fields, FirmaFields, 0);
    if FirmaCheck(fields).Some? {
      var k := FirstMissingFirst(fields, FirmaFields, 0);
      assert FirmaFields[k] in FirmaFields;
    }
  }

  /** The company-field loop. */
  method EnsureFirmaFields(data: HookData) returns (err: Option<HookError>)
    ensures err == FirmaCheck(data.fields)
  {
    if data.Field("rechnungstyp") != StrV("firma") {
      return None;
    }
    var i := 0;
    while i < |FirmaFields|
      invariant 0 <= i <= |FirmaFields|
      invariant FirstMissing(data.fields, FirmaFields, 0) == FirstMissing(data.fields, FirmaFields, i)
    {
      var f := FirmaFields[i];
      if Missing(data.Field(f)) {
        return Some(FirmaFeldFehlt(f));
      }
      i := i + 1;
    }
    return None;
  }

  // ---------------------------------------------------------------------
  // Count and price

  /** `data.termin && (data.preisProPlatz === undefined || === null)`, and
      the termin's price when it is not null: the price to pull in. */
  function PulledPrice(fields: map<string, JsVal>, termine: map<int, Termin>): Option<Num> {
    var t := Lookup(fields, "termin");
    var p := Lookup(fields, "preisProPlatz");
    if Truthy(t) && (p.Undefined? || p.Null?) && ToNumber(t).Fin? && ToNumber(t).v in termine then
      termine[ToNumber(t).v].preis
    else None
  }

  /** The fields after `computeAnzahlUndPreis` has succeeded with `anzahl`
      participants. */
  function Priced(fields: map<string, JsVal>, anzahl: nat, termine: map<int, Termin>): map<string, JsVal> {
    var withCount := fields["anzahl" := NumV(Fin(anzahl))];
    var pulled := PulledPrice(fields, termine);
    var preis := if pulled.Some? then NumV(pulled.value) else Lookup(fields, "preisProPlatz");
    if preis.Undefined? || preis.Null? then withCount
    else
      var p := ToNumber(preis);
      withCount["preisProPlatz" := NumV(p)]["gesamtpreis" := NumV(Mul(p, anzahl))]
  }

  /** `p * anzahl` for a JS number. */
  function Mul(p: Num, n: nat): Num {
    if p.Fin? then Fin(p.v * n) else NaN
  }

  /** After a successful count and price step: `anzahl` is the number of
      participants; a price already given is never replaced by the
      termin's; when there is a price, it is a number and `gesamtpreis` is
      that price times `anzahl`; without one, `gesamtpreis` is untouched;
      every other field is unchanged. */
  lemma PricedMeaning(fields: map<string, JsVal>, anzahl: nat, termine: map<int, Termin>)
    ensures var r := Priced(fields, anzahl, termine);
      var given := Lookup(fields, "preisProPlatz");
      Lookup(r, "anzahl") == NumV(Fin(anzahl))
      && (!(given.Undefined? || given.Null?) ==>
            Lookup(r, "preisProPlatz") == NumV(ToNumber(given))
            && Lookup(r, "gesamtpreis") == NumV(Mul(ToNumber(given), anzahl)))
      && (Lookup(r, "preisProPlatz").Undefined? || Lookup(r, "preisProPlatz").Null? ==>
            Lookup(r, "gesamtpreis") == Lookup(fields, "gesamtpreis"))
      && (!(Lookup(r, "preisProPlatz").Undefined? || Lookup(r, "preisProPlatz").Null?) ==>
            Lookup(r, "preisProPlatz").NumV?
            && Lookup(r, "gesamtpreis") == NumV(Mul(Lookup(r, "preisProPlatz").n, anzahl)))
      && (forall k :: k in fields && k != "anzahl" && k != "preisProPlatz" && k != "gesamtpreis" ==>
            k in r && r[k] == fields[k])
  {
  }

  /** `computeAnzahlUndPreis` as a function: the error, or the new fields. */
  function CountAndPrice(p: Participants, fields: map<string, JsVal>, termine: map<int, Termin>)
    : (Option<HookError>, map<string, JsVal>)
  {
    var anzahl := if p.List? then p.count else 0;
    if anzahl < 1 then (Some(MindestensEinTeilnehmer), fields)
    else (None, Priced(fields, anzahl, termine))
  }

  /** `computeAnzahlUndPreis`: count, then pull and spread the price. */
  method ComputeAnzahlUndPreis(data: HookData, termine: map<int, Termin>) returns (err: Option<HookError>)
    modifies data
    ensures (err, data.fields) == CountAndPrice(old(data.teilnehmer), old(data.fields), termine)
    ensures data.teilnehmer == old(data.teilnehmer)
  {
    var anzahl := if data.teilnehmer.List? then data.teilnehmer.count else 0;
    if anzahl < 1 {
      return Some(MindestensEinTeilnehmer);
    }
    ghost var before := data.fields;
    data.fields := data.fields["anzahl" := NumV(Fin(anzahl))];

    var preis := data.Field("preisProPlatz");
    var t := data.Field("termin");
    if Truthy(t) && (preis.Undefined? || preis.Null?) {
      var id := ToNumber(t);
      if id.Fin? && id.v in termine && termine[id.v].preis.Some? {
        data.fields := data.fields["preisProPlatz" := NumV(termine[id.v].preis.value)];
      }
    }
    preis := data.Field("preisProPlatz");
    if !(preis.Undefined? || preis.Null?) {
      var p := ToNumber(preis);
      data.fields := data.fields["preisProPlatz" := NumV(p)];
      data.fields := data.fields["gesamtpreis" := NumV(Mul(p, anzahl))];
    }
    assert data.fields == Priced(before, anzahl, termine);
    return None;
  }

  // ---------------------------------------------------------------------
  // The hooks

  /** `beforeCreate`: all three checks, in order. */
  function CreateHook(p: Participants, fields: map<string, JsVal>, termine: map<int, Termin>)
    : (Option<HookError>, map<string, JsVal>)
  {
    if TeilnehmerCheck(p).Some? then (TeilnehmerCheck(p), fields)
    else if FirmaCheck(fields).Some? then (FirmaCheck(fields), fields)
    else CountAndPrice(p, fields, termine)
  }

  method BeforeCreate(data: HookData, termine: map<int, Termin>) returns (err: Option<HookError>)
    modifies data
    ensures (err, data.fields) == CreateHook(old(data.teilnehmer), old(data.fields), termine)
    ensures data.teilnehmer == old(data.teilnehmer)
  {
    err := TeilnehmerCheck(data.teilnehmer);
    if err.Some? {
      return;
    }
    err := EnsureFirmaFields(data);
    if err.Some? {
      return;
    }
    err := ComputeAnzahlUndPreis(data, termine);
  }

  /** `beforeUpdate` as written: the participant check only when
      `data.teilnehmer` is truthy, the company check only when
      `rechnungstyp` is, and the count and price step always. */
  function UpdateHook(p: Participants, fields: map<string, JsVal>, termine: map<int, Termin>)
    : (Option<HookError>, map<string, JsVal>)
  {
    var present := p.List? || p.truthy;
    if present && TeilnehmerCheck(p).Some? then (TeilnehmerCheck(p), fields)
    else if Truthy(Lookup(fields, "rechnungstyp")) && FirmaCheck(fields).Some? then (FirmaCheck(fields), fields)
    else CountAndPrice(p, fields, termine)
  }

  method BeforeUpdate(data: HookData, termine: map<int, Termin>) returns (err: Option<HookError>)
    modifies data
    ensures (err, data.fields) == UpdateHook(old(data.teilnehmer), old(data.fields), termine)
    ensures data.teilnehmer == old(data.teilnehmer)
  {
    err := None;
    if data.teilnehmer.List? || data.teilnehmer.truthy {
      err := TeilnehmerCheck(data.teilnehmer);
      if err.Some? {
        return;
      }
    }
    if Truthy(data.Field("rechnungstyp")) {
      err := EnsureFirmaFields(data);
      if err.Some? {
        return;
      }
    }
    err := ComputeAnzahlUndPreis(data, termine);
  }

  /** A create fails exactly when the participant list is missing or
      empty, or the company check fails; on failure nothing is changed. */
  lemma CreateHookMeaning(p: Participants, fields: map<string, JsVal>, termine: map<int, Termin>)
    ensures var (err, after) := CreateHook(p, fields, termine);
      (err.None? <==> p.List? && p.count >= 1 && FirmaCheck(fields).None?)
      && (err.Some? ==> after == fields)
      && (err.None? ==> after == Priced(fields, p.count, termine))
  {
  }

  /** `beforeUpdate` demands participants even of an update that does not
      touch them: data without a participant list is always refused. */
  lemma UpdateHookNeedsParticipants(p: Participants, fields: map<string, JsVal>, termine: map<int, Termin>)
    requires p.NotAList?
    ensures UpdateHook(p, fields, termine).0.Some?
  {
  }

  /** The webhook's status update, `{ buchungsstatus, zahlungsmethode,
      zahlungsreferenz }` and nothing else, is refused by the hook as
      written: the booking is never marked paid this way. */
  lemma StatusUpdateRefused(captureId: string, termine: map<int, Termin>)
    ensures var fields := map["buchungsstatus" := StrV("bezahlt"), "zahlungsmethode" := StrV("paypal"),
                              "zahlungsreferenz" := StrV(captureId)];
      UpdateHook(NotAList(false), fields, termine) == (Some(MindestensEinTeilnehmer), fields)
  {
  }

  /** `beforeUpdate` as evidently intended: the count and price step runs
      only when the update carries participants. */
  function UpdateHookFixed(p: Participants, fields: map<string, JsVal>, termine: map<int, Termin>)
    : (Option<HookError>, map<string, JsVal>)
  {
    var present := p.List? || p.truthy;
    if present && TeilnehmerCheck(p).Some? then (TeilnehmerCheck(p), fields)
    else if Truthy(Lookup(fields, "rechnungstyp")) && FirmaCheck(fields).Some? then (FirmaCheck(fields), fields)
    else if !present then (None, fields)
    else CountAndPrice(p, fields, termine)
  }

  method BeforeUpdateFixed(data: HookData, termine: map<int, Termin>) returns (err: Option<HookError>)
    modifies data
    ensures (err, data.fields) == UpdateHookFixed(old(data.teilnehmer), old(data.fields), termine)
    ensures data.teilnehmer == old(data.teilnehmer)
  {
    var present := data.teilnehmer.List? || data.teilnehmer.truthy;
    err := None;
    if present {
      err := TeilnehmerCheck(data.teilnehmer);
      if err.Some? {
        return;
      }
    }
    if Truthy(data.Field("rechnungstyp")) {
      err := EnsureFirmaFields(data);
      if err.Some? {
        return;
      }
    }
    if present {
      err := ComputeAnzahlUndPreis(data, termine);
    }
  }

  /** With the fix, an update without participants and without
      `rechnungstyp` passes and is written as given; an update with
      participants is checked and priced as before. */
  lemma UpdateHookFixedMeaning(p: Participants, fields: map<string, JsVal>, termine: map<int, Termin>)
    ensures !(p.List? || p.truthy) && !Truthy(Lookup(fields, "rechnungstyp")) ==>
      UpdateHookFixed(p, fields, termine) == (None, fields)
    ensures p.List? ==> UpdateHookFixed(p, fields, termine) == UpdateHook(p, fields, termine)
    ensures UpdateHookFixed(p, fields, termine).0.Some? ==> UpdateHook(p, fields, termine).0.Some?
  {
  }

  /** Which `beforeUpdate` a write goes through: the hook as written, or
      the corrected one. */
  datatype UpdateHookVersion = UpdateAsWritten | UpdateCorrected

  function RunUpdateHook(v: UpdateHookVersion, p: Participants, fields: map<string, JsVal>, termine: map<int, Termin>)
    : (Option<HookError>, map<string, JsVal>)
  {
    if v.UpdateAsWritten? then UpdateHook(p, fields, termine) else UpdateHookFixed(p, fields, termine)
  }

  /** The webhook's status update passes the fixed hook unchanged. */
  lemma StatusUpdateAcceptedFixed(captureId: string, termine: map<int, Termin>)
    ensures var fields := map["buchungsstatus" := StrV("bezahlt"), "zahlungsmethode" := StrV("paypal"),
                              "zahlungsreferenz" := StrV(captureId)];
      UpdateHookFixed(NotAList(false), fields, termine) == (None, fields)
  {
    var fields := map["buchungsstatus" := StrV("bezahlt"), "zahlungsmethode" := StrV("paypal"),
                      "zahlungsreferenz" := StrV(captureId)];
    assert "rechnungstyp" !in fields;
  }
}
