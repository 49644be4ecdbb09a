/** The termin write hooks (`afterCreate`, `afterUpdate`): a termin without
    a title gets one made of its earliest day (as YYYY-DD-MM), the seminar
    name and the place. */
module TerminLifecycles {
  import opened Common
  import opened Entities

  /** A day with a date, and its start time cut to 8 characters
      (default '00:00:00'). */
  datatype Norm = Norm(datum: string, startzeit: string)

  function NormTag(t: Tag): Norm
    requires Filled(t.datum)
  {
    var z := if Filled(t.startzeit) then t.startzeit.value else "00:00:00";
    Norm(t.datum.value, if |z| <= 8 then z else z[..8])
  }

  /** The days that have a date, in their stored order. */
  function NormTage(tage: seq<Tag>): (ns: seq<Norm>)
    ensures |ns| <= |tage|
    ensures forall n :: n in ns ==> n.datum != "" && |n.startzeit| <= 8
  {
    if tage == [] then []
    else if Filled(tage[0].datum) then [NormTag(tage[0])] + NormTage(tage[1..])
    else NormTage(tage[1..])
  }

  /** No day has a date exactly when there is nothing to sort. */
  lemma {:induction false} NormTageEmpty(tage: seq<Tag>)
    ensures NormTage(tage) == [] <==> forall i :: 0 <= i < |tage| ==> !Filled(tage[i].datum)
  {
    if tage != [] {
      NormTageEmpty(tage[1..]);
      assert forall i :: 1 <= i < |tage| ==> tage[i] == tage[1..][i - 1];
    }
  }

  /** The sort key `datum + 'T' + startzeit`. */
  function Key(n: Norm): string {
    n.datum + "T" + n.startzeit
  }

  /** The index, from i on, of the first day whose key is least: the day
      that a stable sort by key puts first. */
  function EarliestFrom(ns: seq<Norm>, i: nat): (k: nat)
    requires i < |ns|
    ensures i <= k < |ns|
    decreases |ns| - i
  {
    if i == |ns| - 1 then i
    else
      var r := EarliestFrom(ns, i + 1);
      if LexLe(Key(ns[i]), Key(ns[r])) then i else r
  }

  lemma {:induction false} LexLeRefl(a: string)
    ensures LexLe(a, a)
    decreases |a|
  {
    if a != [] {
      LexLeRefl(a[1..]);
    }
  }

  /** The chosen day has a key no greater than any other, and every day
      before it has a different key, so it is the first of the least. */
  lemma {:induction false} EarliestFromSpec(ns: seq<Norm>, i: nat)
    requires i < |ns|
    ensures var k := EarliestFrom(ns, i);
      (forall j :: i <= j < |ns| ==> LexLe(Key(ns[k]), Key(ns[j])))
      && (forall j :: i <= j < k ==> Key(ns[j]) != Key(ns[k]))
    decreases |ns| - i
  {
    var k := EarliestFrom(ns, i);
    if i == |ns| - 1 {
      LexLeRefl(Key(ns[i]));
    } else {
      var r := EarliestFrom(ns, i + 1);
      EarliestFromSpec(ns, i + 1);
      if LexLe(Key(ns[i]), Key(ns[r])) {
        forall j | i <= j < |ns| ensures LexLe(Key(ns[i]), Key(ns[j])) {
          if j == i {
            LexLeRefl(Key(ns[i]));
          } else {
            LexLeTrans(Key(ns[i]), Key(ns[r]), Key(ns[j]));
          }
        }
      } else {
        LexLeTotal(Key(ns[i]), Key(ns[r]));
        if Key(ns[i]) == Key(ns[r]) {
          LexLeRefl(Key(ns[i]));
        }
      }
    }
  }

  /** 'YYYY-MM-DD' as 'YYYY-DD-MM': the first, third and second part, the
      empty or missing ones dropped. */
  function Ydm(date: string): string {
    var parts := Split(date, '-');
    Join(Truthies([Part(parts, 0), Part(parts, 2), Part(parts, 1)]), "-")
  }

  /** `.filter(Boolean)` on optional strings, as strings. */
  function Truthies(xs: seq<JsVal>): (r: seq<string>)
    ensures forall s :: s in r ==> s != ""
  {
    if xs == [] then []
    else if Truthy(xs[0]) && xs[0].StrV? then [xs[0].s] + Truthies(xs[1..])
    else Truthies(xs[1..])
  }

  /** A well-formed date has its day and month swapped. */
  lemma YdmSwaps(y: string, m: string, d: string)
    requires y != "" && m != "" && d != ""
    requires '-' !in y && '-' !in m && '-' !in d
    ensures Ydm(y + "-" + m + "-" + d) == y + "-" + d + "-" + m
  {
    assert Split(y + "-" + m + "-" + d, '-') == [y, m, d] by {
      SplitThree(y, m, d, '-');
    }
    TruthiesOfThree(y, d, m);
    JoinThree(y, d, m, "-");
  }

  lemma TruthiesOfThree(a: string, b: string, c: string)
    requires a != "" && b != "" && c != ""
    ensures Truthies([StrV(a), StrV(b), StrV(c)]) == [a, b, c]
  {
    var xs := [StrV(a), StrV(b), StrV(c)];
    assert xs[1..] == [StrV(b), StrV(c)] && xs[1..][1..] == [StrV(c)] && xs[1..][1..][1..] == [];
    assert Truthies(xs[1..][1..]) == [c];
    assert Truthies(xs[1..]) == [b, c];
  }

  lemma JoinThree(a: string, b: string, c: string, sep: string)
    ensures Join([a, b, c], sep) == a + sep + b + sep + c
  {
    assert [a, b, c][1..] == [b, c] && [b, c][1..] == [c];
    assert Join([b, c], sep) == b + sep + c;
    assert Join([a, b, c], sep) == a + sep + (b + sep + c);
  }

  /** `[ydm, seminarName, ortName].filter(v => v && String(v).trim() !== '')` */
  function TitleParts(ydm: string, seminarName: Option<string>, ortName: Option<string>): (r: seq<string>)
    ensures forall s :: s in r ==> !IsBlank(s)
    ensures |r| <= 3
  {
    (if !IsBlank(ydm) then [ydm] else [])
    + (if seminarName.Some? && !IsBlank(seminarName.value) then [seminarName.value] else [])
    + (if ortName.Some? && !IsBlank(ortName.value) then [ortName.value] else [])
  }

  const Dash: string := [' ', '–', ' ']

  /** The title a termin gets, when it gets one. */
  function Title(t: Termin, seminare: map<int, Seminar>, orte: map<int, Ort>): string
    requires NormTage(t.tage) != []
  {
    var ns := NormTage(t.tage);
    var first := ns[EarliestFrom(ns, 0)].datum;
    var seminarName := if t.seminar.Some? && t.seminar.value in seminare then seminare[t.seminar.value].seminarname else None;
    var ort := if t.ort.Some? && t.ort.value in orte then Some(orte[t.ort.value]) else None;
    Join(TitleParts(Ydm(first), seminarName, OrtName(ort)), Dash)
  }

  /** Whether `setTitelIfEmpty` writes: the termin exists, its title is
      empty or blank, and some day has a date. */
  predicate NeedsTitle(termine: map<int, Termin>, id: int) {
    id in termine
    && !(Filled(termine[id].titel) && !IsBlank(termine[id].titel.value))
    && NormTage(termine[id].tage) != []
  }

  /** `setTitelIfEmpty` as a function of the store. */
  function TitleEffect(termine: map<int, Termin>, seminare: map<int, Seminar>, orte: map<int, Ort>, id: int)
    : map<int, Termin>
  {
    if id != 0 && NeedsTitle(termine, id) then
      termine[id := termine[id].(titel := Some(Title(termine[id], seminare, orte)))]
    else termine
  }

  /** `setTitelIfEmpty`. */
  method SetTitelIfEmpty(db: Db, id: int)
    modifies db
    ensures db.termine == TitleEffect(old(db.termine), old(db.seminare), old(db.orte), id)
    ensures db.seminare == old(db.seminare) && db.orte == old(db.orte) && db.gutscheine == old(db.gutscheine)
    ensures db.kunden == old(db.kunden) && db.buchungen == old(db.buchungen)
  {
    if id == 0 || id !in db.termine {
      return;
    }
    var rec := db.termine[id];
    if Filled(rec.titel) && !IsBlank(rec.titel.value) {
      return;
    }
    var norm := NormTage(rec.tage);
    if |norm| == 0 {
      return;
    }
    var k := EarliestFrom(norm, 0);
    var firstDate := norm[k].datum;
    var seminarName := if rec.seminar.Some? && rec.seminar.value in db.seminare then db.seminare[rec.seminar.value].seminarname else None;
    var ort := if rec.ort.Some? && rec.ort.value in db.orte then Some(db.orte[rec.ort.value]) else None;
    var titel := Join(TitleParts(Ydm(firstDate), seminarName, OrtName(ort)), Dash);
    db.termine := db.termine[id := rec.(titel := Some(titel))];
  }

  /** `afterCreate`: `result.id`, when truthy. */
  method AfterCreate(db: Db, resultId: Option<int>)
    modifies db
    ensures db.termine == (if resultId.Some? then TitleEffect(old(db.termine), old(db.seminare), old(db.orte), resultId.value)
                           else old(db.termine))
    ensures db.seminare == old(db.seminare) && db.orte == old(db.orte) && db.gutscheine == old(db.gutscheine)
    ensures db.kunden == old(db.kunden) && db.buchungen == old(db.buchungen)
  {
    if resultId.Some? && resultId.value != 0 {
      SetTitelIfEmpty(db, resultId.value);
    }
  }

  /** `result.id || where.id` */
  function UpdatedId(resultId: Option<int>, whereId: Option<int>): (r: Option<int>)
    ensures r.Some? ==> r.value != 0
    ensures resultId.Some? && resultId.value != 0 ==> r == resultId
  {
    if resultId.Some? && resultId.value != 0 then resultId
    else if whereId.Some? && whereId.value != 0 then whereId
    else None
  }

  /** `afterUpdate`: `result.id`, else `where.id`, when truthy. */
  method AfterUpdate(db: Db, resultId: Option<int>, whereId: Option<int>)
    modifies db
    ensures var id := UpdatedId(resultId, whereId);
      db.termine == (if id.Some? then TitleEffect(old(db.termine), old(db.seminare), old(db.orte), id.value)
                     else old(db.termine))
    ensures db.seminare == old(db.seminare) && db.orte == old(db.orte) && db.gutscheine == old(db.gutscheine)
    ensures db.kunden == old(db.kunden) && db.buchungen == old(db.buchungen)
  {
    var id := UpdatedId(resultId, whereId);
    if id.Some? {
      SetTitelIfEmpty(db, id.value);
    }
  }

  // ---------------------------------------------------------------------
  // Properties

  /** Only the title of the one termin is written, and only when it needs
      one; a termin with a non-blank title, or without any dated day, is
      left alone. */
  lemma TitleEffectFrame(termine: map<int, Termin>, seminare: map<int, Seminar>, orte: map<int, Ort>, id: int)
    ensures var after := TitleEffect(termine, seminare, orte, id);
      after.Keys == termine.Keys
      && (forall j :: j in termine && j != id ==> after[j] == termine[j])
      && (id in termine ==> after[id] == termine[id] || after[id] == termine[id].(titel := after[id].titel))
      && (!NeedsTitle(termine, id) ==> after == termine)
      && (id in termine && Filled(termine[id].titel) && !IsBlank(termine[id].titel.value) ==> after == termine)
  {
  }

  /** Running the hook twice is the same as running it once: a written
      title is either non-blank, which stops the second run, or the second
      run computes and writes the same one. */
  lemma TitleEffectIdempotent(termine: map<int, Termin>, seminare: map<int, Seminar>, orte: map<int, Ort>, id: int)
    ensures var once := TitleEffect(termine, seminare, orte, id);
      TitleEffect(once, seminare, orte, id) == once
  {
    var once := TitleEffect(termine, seminare, orte, id);
    if id != 0 && NeedsTitle(termine, id) {
      var t := termine[id].(titel := Some(Title(termine[id], seminare, orte)));
      assert once[id] == t;
      assert t.tage == termine[id].tage;
      assert Title(t, seminare, orte) == Title(termine[id], seminare, orte);
      assert once[id := t.(titel := Some(Title(t, seminare, orte)))] == once;
    }
  }

  /** The title is the parts that are not blank, joined by ' – '; with a
      well-formed earliest date it starts with that date as YYYY-DD-MM. */
  lemma TitleStartsWithDate(t: Termin, seminare: map<int, Seminar>, orte: map<int, Ort>, y: string, m: string, d: string)
    requires NormTage(t.tage) != []
    requires NormTage(t.tage)[EarliestFrom(NormTage(t.tage), 0)].datum == y + "-" + m + "-" + d
    requires y != "" && m != "" && d != "" && '-' !in y && '-' !in m && '-' !in d
    requires !IsSpace(y[0])
    ensures var p := TitleParts(y + "-" + d + "-" + m,
                                if t.seminar.Some? && t.seminar.value in seminare then seminare[t.seminar.value].seminarname else None,
                                OrtName(if t.ort.Some? && t.ort.value in orte then Some(orte[t.ort.value]) else None));
      p != [] && p[0] == y + "-" + d + "-" + m && Title(t, seminare, orte) == Join(p, Dash)
  {
    YdmSwaps(y, m, d);
    var s := y + "-" + d + "-" + m;
    assert s[0] == y[0];
    BlankIffAllSpace(s);
  }
}
