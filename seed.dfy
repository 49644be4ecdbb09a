/** The backend's start-up seeding: the slug of a seminar name, the plan of
    seminars and termine the seed creates, the rotation of the seed images
    over seminars without one, and the environment flags that switch it
    on. The store, the uploads and the clock are parameters. */
module Seed {
  import opened Common
  import opened Money

  // ---------------------------------------------------------------------
  // slugify

  /** `input.replace(/[ß]/g, 'ss')` */
  function ReplaceEszett(s: string): (r: string)
    ensures '\U{DF}' !in r
    ensures '\U{DF}' !in s ==> r == s
  {
    if s == [] then []
    else (if s[0] == '\U{DF}' then "ss" else [s[0]]) + ReplaceEszett(s[1..])
  }

  /** The combining diacritical marks U+0300..U+036F. */
  predicate IsCombiningMark(c: char) {
    '\U{300}' <= c <= '\U{36F}'
  }

  /** The letter a Latin-1 character keeps once NFD has split off its
      diacritical mark; characters without such a decomposition (Æ, Ð, Ø,
      Þ, æ, ð, ø, þ and all others) are kept. */
  function BaseLetter(c: char): (b: char)
    ensures c < '\U{C0}' ==> b == c
  {
    if '\U{C0}' <= c <= '\U{C5}' then 'A'
    else if c == '\U{C7}' then 'C'
    else if '\U{C8}' <= c <= '\U{CB}' then 'E'
    else if '\U{CC}' <= c <= '\U{CF}' then 'I'
    else if c == '\U{D1}' then 'N'
    else if '\U{D2}' <= c <= '\U{D6}' then 'O'
    else if '\U{D9}' <= c <= '\U{DC}' then 'U'
    else if c == '\U{DD}' then 'Y'
    else if '\U{E0}' <= c <= '\U{E5}' then 'a'
    else if c == '\U{E7}' then 'c'
    else if '\U{E8}' <= c <= '\U{EB}' then 'e'
    else if '\U{EC}' <= c <= '\U{EF}' then 'i'
    else if c == '\U{F1}' then 'n'
    else if '\U{F2}' <= c <= '\U{F6}' then 'o'
    else if '\U{F9}' <= c <= '\U{FC}' then 'u'
    else if c == '\U{FD}' || c == '\U{FF}' then 'y'
    else c
  }

  /** `normalize('NFD').replace(/[̀-ͯ]/g, '')` on Latin-1 text. */
  function StripDiacritics(s: string): (r: string)
    ensures |r| <= |s|
    ensures (forall i :: 0 <= i < |s| ==> s[i] < '\U{C0}' && !IsCombiningMark(s[i])) ==> r == s
  {
    if s == [] then []
    else if IsCombiningMark(s[0]) then StripDiacritics(s[1..])
    else [BaseLetter(s[0])] + StripDiacritics(s[1..])
  }

  /** The characters `[a-z0-9]` that survive into a slug. */
  predicate IsSlugChar(c: char) {
    'a' <= c <= 'z' || '0' <= c <= '9'
  }

  /** A slug's alphabet: `[a-z0-9-]`. */
  predicate InSlugAlphabet(s: string) {
    forall i :: 0 <= i < |s| ==> IsSlugChar(s[i]) || s[i] == '-'
  }

  predicate NoDoubleDash(s: string) {
    forall i :: 0 <= i < |s| - 1 ==> !(s[i] == '-' && s[i + 1] == '-')
  }

  predicate NoEdgeDash(s: string) {
    s == [] || (s[0] != '-' && s[|s| - 1] != '-')
  }

  /** The rest of s after its leading run of characters outside [a-z0-9]. */
  function DropOthers(s: string): (r: string)
    ensures |r| <= |s|
    ensures r == [] || IsSlugChar(r[0])
    ensures s != [] && IsSlugChar(s[0]) ==> r == s
  {
    if s == [] || IsSlugChar(s[0]) then s else DropOthers(s[1..])
  }

  /** `.replace(/[^a-z0-9]+/g, '-')`: every maximal run of characters
      outside [a-z0-9] becomes one '-'. */
  function Dashify(s: string): (r: string)
    ensures s == [] <==> r == []
    ensures s != [] && IsSlugChar(s[0]) ==> r[0] == s[0]
    ensures s != [] && !IsSlugChar(s[0]) ==> r[0] == '-'
    decreases |s|
  {
    if s == [] then []
    else if IsSlugChar(s[0]) then [s[0]] + Dashify(s[1..])
    else "-" + Dashify(DropOthers(s[1..]))
  }

  /** A character of the slug alphabet put in front of a string of that
      alphabet without '--' keeps both properties, unless it is a '-'
      before another '-'. */
  lemma ConsShape(c: char, d: string)
    requires IsSlugChar(c) || c == '-'
    requires InSlugAlphabet(d) && NoDoubleDash(d)
    requires c == '-' ==> d == [] || IsSlugChar(d[0])
    ensures InSlugAlphabet([c] + d) && NoDoubleDash([c] + d)
  {
    var r := [c] + d;
    forall i | 0 <= i < |r| - 1 ensures !(r[i] == '-' && r[i + 1] == '-') {
      if i > 0 {
        assert r[i] == d[i - 1] && r[i + 1] == d[i];
      }
    }
  }

  /** Dashify's result is in the slug alphabet and never holds '--'. */
  lemma {:induction false} DashifyShape(s: string)
    ensures InSlugAlphabet(Dashify(s)) && NoDoubleDash(Dashify(s))
    decreases |s|
  {
    if s != [] {
      if IsSlugChar(s[0]) {
        DashifyShape(s[1..]);
        ConsShape(s[0], Dashify(s[1..]));
      } else {
        var t := DropOthers(s[1..]);
        DashifyShape(t);
        ConsShape('-', Dashify(t));
      }
    }
  }

  /** The rest of s after its leading '-'. */
  function DropLeadingDashes(s: string): (r: string)
    ensures |r| <= |s|
    ensures r == [] || r[0] != '-'
  {
    if s != [] && s[0] == '-' then DropLeadingDashes(s[1..]) else s
  }

  /** s without its trailing '-'. */
  function DropTrailingDashes(s: string): (r: string)
    ensures |r| <= |s|
    ensures r != [] ==> r[0] == s[0]
    ensures r == [] || r[|r| - 1] != '-'
  {
    if s != [] && s[|s| - 1] == '-' then DropTrailingDashes(s[..|s| - 1]) else s
  }

  /** What DropLeadingDashes leaves is a suffix of its input. */
  lemma {:induction false} DropLeadingSuffix(s: string)
    ensures DropLeadingDashes(s) == s[|s| - |DropLeadingDashes(s)|..]
    decreases |s|
  {
    if s != [] && s[0] == '-' {
      DropLeadingSuffix(s[1..]);
      assert s[1..][|s[1..]| - |DropLeadingDashes(s[1..])|..] == s[|s| - |DropLeadingDashes(s)|..];
    }
  }

  /** What DropTrailingDashes leaves is a prefix of its input. */
  lemma {:induction false} DropTrailingPrefix(s: string)
    ensures DropTrailingDashes(s) == s[..|DropTrailingDashes(s)|]
    decreases |s|
  {
    if s != [] && s[|s| - 1] == '-' {
      DropTrailingPrefix(s[..|s| - 1]);
      assert s[..|s| - 1][..|DropTrailingDashes(s)|] == s[..|DropTrailingDashes(s)|];
    }
  }

  /** `.replace(/^-+|-+$/g, '')` */
  function TrimDashes(s: string): (r: string)
    ensures NoEdgeDash(r)
  {
    DropTrailingDashes(DropLeadingDashes(s))
  }

  /** The rest of s after its leading run of '-'; the same as
      DropLeadingDashes, named for the collapsing step. */
  function DropDashRun(s: string): (r: string)
    ensures |r| <= |s|
  {
    DropLeadingDashes(s)
  }

  /** `.replace(/-{2,}/g, '-')` */
  function CollapseDashes(s: string): (r: string)
    ensures NoDoubleDash(s) ==> r == s
    decreases |s|
  {
    if s == [] then []
    else if s[0] == '-' && |s| > 1 && s[1] == '-' then "-" + CollapseDashes(DropDashRun(s[1..]))
    else
      assert NoDoubleDash(s) ==> NoDoubleDash(s[1..]) by {
        if NoDoubleDash(s) {
          forall i | 0 <= i < |s[1..]| - 1 ensures !(s[1..][i] == '-' && s[1..][i + 1] == '-') {
            assert s[1..][i] == s[i + 1] && s[1..][i + 1] == s[i + 2];
          }
        }
      }
      [s[0]] + CollapseDashes(s[1..])
  }

  /** The text a slug is made from: ß replaced, marks stripped, lower case. */
  function Folded(input: string): string {
    Lower(StripDiacritics(ReplaceEszett(input)))
  }

  /** `slugify(input)` */
  function Slugify(input: string): string {
    CollapseDashes(TrimDashes(Dashify(Folded(input))))
  }

  /** A slice of a string keeps its alphabet and its single dashes. */
  lemma SliceKeepsShape(s: string, i: nat, j: nat)
    requires i <= j <= |s| && InSlugAlphabet(s) && NoDoubleDash(s)
    ensures InSlugAlphabet(s[i..j]) && NoDoubleDash(s[i..j])
  {
    var t := s[i..j];
    forall k | 0 <= k < |t| - 1 ensures !(t[k] == '-' && t[k + 1] == '-') {
      assert t[k] == s[i + k] && t[k + 1] == s[i + k + 1];
    }
  }

  /** A slug holds only a-z, 0-9 and '-', starts and ends with neither
      '-' nor anything else outside that set, and never holds '--'; in
      particular it holds no '|'. The last '-{2,}' replacement has nothing
      left to do. */
  lemma SlugifyShape(input: string)
    ensures var r := Slugify(input);
      InSlugAlphabet(r) && NoEdgeDash(r) && NoDoubleDash(r) && '|' !in r
      && r == TrimDashes(Dashify(Folded(input)))
  {
    var d := Dashify(Folded(input));
    DashifyShape(Folded(input));
    TrimDashesShape(d);
    var t := TrimDashes(d);
    assert Slugify(input) == t;
    NoBarInSlugAlphabet(t);
  }

  /** Trimming the edge dashes keeps the alphabet and the single dashes. */
  lemma TrimDashesShape(d: string)
    requires InSlugAlphabet(d) && NoDoubleDash(d)
    ensures InSlugAlphabet(TrimDashes(d)) && NoDoubleDash(TrimDashes(d))
  {
    var l := DropLeadingDashes(d);
    DropLeadingSuffix(d);
    SliceKeepsShape(d, |d| - |l|, |d|);
    var t := DropTrailingDashes(l);
    DropTrailingPrefix(l);
    SliceKeepsShape(l, 0, |t|);
  }

  lemma NoBarInSlugAlphabet(r: string)
    requires InSlugAlphabet(r)
    ensures '|' !in r
  {
    forall k | 0 <= k < |r| ensures r[k] != '|' {
      assert IsSlugChar(r[k]) || r[k] == '-';
    }
  }

  /** `s` with everything outside [a-z0-9] removed. */
  function Alnums(s: string): (r: string)
    ensures |r| <= |s|
  {
    if s == [] then [] else (if IsSlugChar(s[0]) then [s[0]] else []) + Alnums(s[1..])
  }

  lemma {:induction false} AlnumsAppend(a: string, b: string)
    ensures Alnums(a + b) == Alnums(a) + Alnums(b)
    decreases |a|
  {
    if a != [] {
      var x := a + b;
      var h := if IsSlugChar(a[0]) then [a[0]] else [];
      assert x[0] == a[0] && x[1..] == a[1..] + b;
      assert Alnums(x) == h + Alnums(a[1..] + b);
      AlnumsAppend(a[1..], b);
      assert Alnums(a) == h + Alnums(a[1..]);
    } else {
      assert a + b == b;
    }
  }

  lemma {:induction false} AlnumsDropOthers(s: string)
    ensures Alnums(DropOthers(s)) == Alnums(s)
    decreases |s|
  {
    if s != [] && !IsSlugChar(s[0]) {
      AlnumsDropOthers(s[1..]);
    }
  }

  /** Dashify keeps the letters and digits, in order. */
  lemma {:induction false} AlnumsDashify(s: string)
    ensures Alnums(Dashify(s)) == Alnums(s)
    decreases |s|
  {
    if s != [] {
      if IsSlugChar(s[0]) {
        AlnumsDashify(s[1..]);
        AlnumsAppend([s[0]], Dashify(s[1..]));
      } else {
        AlnumsDropOthers(s[1..]);
        AlnumsDashify(DropOthers(s[1..]));
        AlnumsAppend("-", Dashify(DropOthers(s[1..])));
      }
    }
  }

  lemma {:induction false} AlnumsDropLeading(s: string)
    ensures Alnums(DropLeadingDashes(s)) == Alnums(s)
    decreases |s|
  {
    if s != [] && s[0] == '-' {
      AlnumsDropLeading(s[1..]);
    }
  }

  lemma {:induction false} AlnumsDropTrailing(s: string)
    ensures Alnums(DropTrailingDashes(s)) == Alnums(s)
    decreases |s|
  {
    if s != [] && s[|s| - 1] == '-' {
      AlnumsDropTrailing(s[..|s| - 1]);
      assert s == s[..|s| - 1] + "-";
      AlnumsAppend(s[..|s| - 1], "-");
    }
  }

  /** The slug keeps exactly the letters and digits of the folded name, in
      their order: only separators are rewritten. */
  lemma SlugifyKeepsAlnums(input: string)
    ensures Alnums(Slugify(input)) == Alnums(Folded(input))
  {
    SlugifyShape(input);
    var d := Dashify(Folded(input));
    AlnumsDashify(Folded(input));
    AlnumsDropLeading(d);
    AlnumsDropTrailing(DropLeadingDashes(d));
  }

  /** One step of Dashify on a string with first character `c`. */
  lemma DashifyCons(c: char, t: string)
    ensures Dashify([c] + t) == if IsSlugChar(c) then [c] + Dashify(t) else "-" + Dashify(DropOthers(t))
  {
    var x := [c] + t;
    assert x[0] == c && x[1..] == t;
  }

  lemma HeadTail(w: string, rest: string)
    requires w != []
    ensures w + rest == [w[0]] + (w[1..] + rest)
  {
  }

  lemma TailAllSlug(w: string)
    requires w != [] && forall i :: 0 <= i < |w| ==> IsSlugChar(w[i])
    ensures forall i :: 0 <= i < |w[1..]| ==> IsSlugChar(w[1..][i])
  {
    forall i | 0 <= i < |w[1..]| ensures IsSlugChar(w[1..][i]) {
      assert w[1..][i] == w[i + 1];
    }
  }

  lemma {:induction false} DashifyWord(w: string, rest: string)
    requires forall i :: 0 <= i < |w| ==> IsSlugChar(w[i])
    ensures Dashify(w + rest) == w + Dashify(rest)
    decreases |w|
  {
    if w != [] {
      var c, t := w[0], w[1..];
      var d := Dashify(rest);
      assert Dashify(t + rest) == t + d by {
        TailAllSlug(w);
        DashifyWord(t, rest);
      }
      assert Dashify([c] + (t + rest)) == [c] + (t + d) by {
        DashifyCons(c, t + rest);
      }
      assert w + rest == [c] + (t + rest) by { HeadTail(w, rest); }
      assert w + d == [c] + (t + d) by { HeadTail(w, d); }
    } else {
      assert w + rest == rest;
    }
  }

  lemma AppendAssoc(a: string, b: string, c: string)
    ensures a + b + c == a + (b + c)
  {
  }

  lemma TailNoSlug(sep: string)
    requires sep != [] && forall i :: 0 <= i < |sep| ==> !IsSlugChar(sep[i])
    ensures forall i :: 0 <= i < |sep[1..]| ==> !IsSlugChar(sep[1..][i])
  {
    forall i | 0 <= i < |sep[1..]| ensures !IsSlugChar(sep[1..][i]) {
      assert sep[1..][i] == sep[i + 1];
    }
  }

  /** One step of DropOthers on a string with first character `c`. */
  lemma DropOthersCons(c: char, t: string)
    ensures DropOthers([c] + t) == if IsSlugChar(c) then [c] + t else DropOthers(t)
  {
    var x := [c] + t;
    assert x[0] == c && x[1..] == t;
  }

  lemma {:induction false} DropOthersRun(sep: string, rest: string)
    requires forall i :: 0 <= i < |sep| ==> !IsSlugChar(sep[i])
    requires rest == [] || IsSlugChar(rest[0])
    ensures DropOthers(sep + rest) == rest
    decreases |sep|
  {
    if sep != [] {
      var c, t := sep[0], sep[1..];
      assert DropOthers(t + rest) == rest by {
        TailNoSlug(sep);
        DropOthersRun(t, rest);
      }
      assert DropOthers([c] + (t + rest)) == DropOthers(t + rest) by { DropOthersCons(c, t + rest); }
      assert sep + rest == [c] + (t + rest) by { HeadTail(sep, rest); }
    } else {
      assert sep + rest == rest;
    }
  }

  /** A run of separators followed by a word: one '-' and the word. */
  lemma DashifySeparator(sep: string, rest: string)
    requires sep != [] && forall i :: 0 <= i < |sep| ==> !IsSlugChar(sep[i])
    requires rest == [] || IsSlugChar(rest[0])
    ensures Dashify(sep + rest) == "-" + Dashify(rest)
  {
    var c, t := sep[0], sep[1..];
    assert DropOthers(t + rest) == rest by {
      TailNoSlug(sep);
      DropOthersRun(t, rest);
    }
    assert Dashify([c] + (t + rest)) == "-" + Dashify(DropOthers(t + rest)) by {
      DashifyCons(c, t + rest);
    }
    assert sep + rest == [c] + (t + rest) by { HeadTail(sep, rest); }
  }

  /** A run of separators between two words becomes exactly one '-'. */
  lemma DashifyRun(w: string, sep: string, rest: string)
    requires forall i :: 0 <= i < |w| ==> IsSlugChar(w[i])
    requires sep != [] && forall i :: 0 <= i < |sep| ==> !IsSlugChar(sep[i])
    requires rest == [] || IsSlugChar(rest[0])
    ensures Dashify(w + sep + rest) == w + "-" + Dashify(rest)
  {
    var d := Dashify(rest);
    assert Dashify(sep + rest) == "-" + d by { DashifySeparator(sep, rest); }
    assert Dashify(w + (sep + rest)) == w + Dashify(sep + rest) by { DashifyWord(w, sep + rest); }
    assert w + sep + rest == w + (sep + rest) by { AppendAssoc(w, sep, rest); }
    assert w + "-" + d == w + ("-" + d) by { AppendAssoc(w, "-", d); }
  }

  /** A slug is its own slug: the seed may slugify a slug again without
      changing it. */
  lemma SlugifyIdempotent(input: string)
    ensures Slugify(Slugify(input)) == Slugify(input)
  {
    SlugifyShape(input);
    var s := Slugify(input);
    FixesSlug(s);
  }

  lemma FixesSlug(s: string)
    requires InSlugAlphabet(s) && NoEdgeDash(s) && NoDoubleDash(s)
    ensures Slugify(s) == s
  {
    assert Folded(s) == s by {
      forall i | 0 <= i < |s| ensures IsSlugChar(s[i]) || AsciiSeparator(s[i]) { }
      FoldedPlain(s);
    }
    assert Dashify(s) == s by {
      DashifySlug(s);
    }
    assert TrimDashes(s) == s;
  }

  lemma {:induction false} DashifySlug(s: string)
    requires InSlugAlphabet(s) && NoDoubleDash(s)
    requires s == [] || s[0] != '-' || |s| == 1 || IsSlugChar(s[1])
    ensures Dashify(s) == s
    decreases |s|
  {
    if s != [] {
      var t := s[1..];
      SliceKeepsShape(s, 1, |s|);
      if t != [] {
        assert t[0] == s[1];
        if t[0] == '-' {
          assert s[0] != '-';
          assert |t| == 1 || t[1] != '-';
        }
      }
      DashifySlug(t);
    }
  }

  /** An ASCII character that is neither a letter nor a digit: one that
      folding keeps and the dash step replaces. */
  predicate AsciiSeparator(c: char) {
    c < '\U{80}' && !IsSlugChar(c) && !('A' <= c <= 'Z')
  }

  /** Text of lower-case letters, digits and ASCII separators is its own
      folded form. */
  lemma FoldedPlain(s: string)
    requires forall i :: 0 <= i < |s| ==> IsSlugChar(s[i]) || AsciiSeparator(s[i])
    ensures Folded(s) == s
  {
    assert ReplaceEszett(s) == s by {
      forall i | 0 <= i < |s| ensures s[i] != '\U{DF}' { }
    }
    assert StripDiacritics(s) == s by {
      forall i | 0 <= i < |s| ensures s[i] < '\U{C0}' && !IsCombiningMark(s[i]) { }
    }
    assert Lower(s) == s by {
      forall i | 0 <= i < |s| ensures Lower(s)[i] == s[i] { }
    }
  }

  /** Two words of lower-case letters and digits joined by any run of ASCII
      separators (' & ', ' - ', '...') give the two words joined by one '-'. */
  lemma SlugifyTwoWords(w1: string, sep: string, w2: string)
    requires w1 != [] && forall i :: 0 <= i < |w1| ==> IsSlugChar(w1[i])
    requires w2 != [] && forall i :: 0 <= i < |w2| ==> IsSlugChar(w2[i])
    requires sep != [] && forall i :: 0 <= i < |sep| ==> AsciiSeparator(sep[i])
    ensures Slugify(w1 + sep + w2) == w1 + "-" + w2
  {
    var x := w1 + sep + w2;
    var r := w1 + "-" + w2;
    assert Folded(x) == x by {
      forall i | 0 <= i < |x| ensures IsSlugChar(x[i]) || AsciiSeparator(x[i]) {
        if i < |w1| { assert x[i] == w1[i]; }
        else if i < |w1| + |sep| { assert x[i] == sep[i - |w1|]; }
        else { assert x[i] == w2[i - |w1| - |sep|]; }
      }
      FoldedPlain(x);
    }
    assert Dashify(x) == r by {
      DashifyRun(w1, sep, w2);
      DashifyWord(w2, []);
      assert w2 + [] == w2;
    }
    assert TrimDashes(r) == r by {
      assert r[0] == w1[0] && r[|r| - 1] == w2[|w2| - 1];
    }
    assert NoDoubleDash(r) by {
      DashifyShape(x);
    }
  }

  // ---------------------------------------------------------------------
  // Bootstrap flags

  datatype SeedRun = NoSeed | FillMissingImagesOnly | FullSeed

  /** The string 'true' exactly. */
  predicate FlagOn(v: Option<string>) {
    v == Some("true")
  }

  /** What `bootstrap` does for the variables `SEED` and `SEED_RESET` and the
      number of seminars `runSeed` counts (after a reset, if any): whether
      it deletes the data first, and which seed it runs. */
  function Bootstrap(seed: Option<string>, seedReset: Option<string>, seminarCount: nat)
    : (r: (bool, SeedRun))
    ensures r.0 <==> FlagOn(seedReset)
    ensures r.1 != NoSeed <==> FlagOn(seed) || FlagOn(seedReset)
    ensures r.1 == FullSeed <==> (FlagOn(seed) || FlagOn(seedReset)) && seminarCount == 0
  {
    var shouldSeed := seed == Some("true");
    var shouldReset := seedReset == Some("true");
    (shouldReset,
     if !(shouldSeed || shouldReset) then NoSeed
     else if seminarCount > 0 then FillMissingImagesOnly
     else FullSeed)
  }

  /** Any other spelling ('1', 'TRUE', 'yes') leaves the data alone. */
  lemma OnlyTrueSwitchesOn(seed: string, count: nat)
    requires seed != "true"
    ensures Bootstrap(Some(seed), Some(seed), count) == (false, NoSeed)
  {
  }

  // ---------------------------------------------------------------------
  // Filling in missing seminar images

  /** A published seminar as the image pass reads it: its id and the id of
      its image, if any (`s.bild?.id`). */
  datatype ExistingSeminar = ExistingSeminar(id: int, bild: Option<int>)

  predicate HasBild(s: ExistingSeminar) {
    s.bild.Some? && s.bild.value != 0
  }

  /** Image `n` of the rotation: `images[n % images.length]`. */
  function Rotation(images: seq<int>, n: nat): (b: int)
    requires |images| > 0
    ensures b in images
  {
    images[n % |images|]
  }

  /** The image updates `(seminar id, image id)` the pass makes from
      position `idx` of the rotation on. */
  function ImageUpdates(seminare: seq<ExistingSeminar>, images: seq<int>, idx: nat): (u: seq<(int, int)>)
    ensures |u| <= |seminare|
    ensures images == [] ==> u == []
  {
    if seminare == [] then []
    else if !HasBild(seminare[0]) && |images| > 0 then
      [(seminare[0].id, Rotation(images, idx))] + ImageUpdates(seminare[1..], images, idx + 1)
    else ImageUpdates(seminare[1..], images, idx)
  }

  /** The existing seminars without an image. */
  function Missing(seminare: seq<ExistingSeminar>): (m: seq<ExistingSeminar>)
    ensures |m| <= |seminare|
  {
    if seminare == [] then []
    else (if HasBild(seminare[0]) then [] else [seminare[0]]) + Missing(seminare[1..])
  }

  /** The seminars `m` paired, in order, with the images of the rotation
      from position `idx` on. */
  function Assigned(m: seq<ExistingSeminar>, images: seq<int>, idx: nat): (u: seq<(int, int)>)
    requires |images| > 0
    ensures |u| == |m|
  {
    if m == [] then [] else [(m[0].id, Rotation(images, idx))] + Assigned(m[1..], images, idx + 1)
  }

  /** With images available, the pass assigns the rotation to exactly the
      seminars without an image. */
  lemma {:induction false} ImageUpdatesAssigns(seminare: seq<ExistingSeminar>, images: seq<int>, idx: nat)
    requires |images| > 0
    ensures ImageUpdates(seminare, images, idx) == Assigned(Missing(seminare), images, idx)
    decreases |seminare|
  {
    if seminare != [] {
      var rest := seminare[1..];
      if HasBild(seminare[0]) {
        ImageUpdatesAssigns(rest, images, idx);
        assert Missing(seminare) == Missing(rest);
      } else {
        ImageUpdatesAssigns(rest, images, idx + 1);
        var m := Missing(seminare);
        assert m == [seminare[0]] + Missing(rest);
        assert m[0] == seminare[0] && m[1..] == Missing(rest);
      }
    }
  }

  lemma {:induction false} AssignedAt(m: seq<ExistingSeminar>, images: seq<int>, idx: nat, k: nat)
    requires |images| > 0 && k < |m|
    ensures Assigned(m, images, idx)[k] == (m[k].id, Rotation(images, idx + k))
    decreases k
  {
    if k > 0 {
      AssignedAt(m[1..], images, idx + 1, k - 1);
      assert m[1..][k - 1] == m[k];
      assert idx + 1 + (k - 1) == idx + k;
    }
  }

  /** With images available, every seminar without one gets one, in order,
      and the k-th of them gets image k of the rotation. */
  lemma ImageUpdatesMeaning(seminare: seq<ExistingSeminar>, images: seq<int>, idx: nat)
    requires |images| > 0
    ensures var u := ImageUpdates(seminare, images, idx); var m := Missing(seminare);
      |u| == |m| && forall k :: 0 <= k < |u| ==> u[k] == (m[k].id, Rotation(images, idx + k))
  {
    ImageUpdatesAssigns(seminare, images, idx);
    var m := Missing(seminare);
    forall k | 0 <= k < |m| ensures Assigned(m, images, idx)[k] == (m[k].id, Rotation(images, idx + k)) {
      AssignedAt(m, images, idx, k);
    }
  }

  /** The loop of the image pass (`idx` counts the updates made). */
  method FillMissingImages(seminare: seq<ExistingSeminar>, images: seq<int>) returns (updates: seq<(int, int)>)
    ensures updates == ImageUpdates(seminare, images, 0)
  {
    updates := [];
    var idx: nat := 0;
    var j := 0;
    while j < |seminare|
      invariant 0 <= j <= |seminare|
      invariant updates + ImageUpdates(seminare[j..], images, idx) == ImageUpdates(seminare, images, 0)
    {
      assert seminare[j..][1..] == seminare[j + 1..];
      if !HasBild(seminare[j]) && |images| > 0 {
        updates := updates + [(seminare[j].id, Rotation(images, idx))];
        idx := idx + 1;
      }
      j := j + 1;
    }
  }

  // ---------------------------------------------------------------------
  // The full seed: seminars

  /** One seminar of the seed list: its name and standard price in cents. */
  datatype SeminarPayload = SeminarPayload(seminarname: string, standardPreis: Cents)

  /** A seminar as created: store id, slug, price and image id. */
  datatype SeedSeminar = SeedSeminar(id: int, slug: string, standardPreis: Cents, bild: Option<int>)

  /** The seminars of the seed, in order. */
  const SeedSeminare: seq<SeminarPayload> := [
    SeminarPayload("Einf\U{FC}hrung in die Weinwelt", 8900),
    SeminarPayload("Italien intensiv", 11900),
    SeminarPayload("Frankreich Grand Crus", 14900),
    SeminarPayload("Sensorik & Foodpairing", 12900),
    SeminarPayload("Sekt & Champagner", 9900),
    SeminarPayload("Wein & K\U{E4}se", 10900)
  ]

  /** Seminar k of the list as created with store id `id`: its slug, and
      image k of the rotation when there are images. */
  function SeminarAt(p: SeminarPayload, k: nat, id: int, images: seq<int>): (s: SeedSeminar)
    ensures s.id == id && s.standardPreis == p.standardPreis
    ensures s.bild == ImageAt(images, k)
    ensures s.slug == Slugify(p.seminarname)
  {
    SeedSeminar(id, Slugify(p.seminarname), p.standardPreis, ImageAt(images, k))
  }

  /** `seedImages[k % seedImages.length]`, none when there are no images. */
  function ImageAt(images: seq<int>, k: nat): (b: Option<int>)
    ensures b.Some? <==> |images| > 0
    ensures b.Some? ==> b.value in images
  {
    if |images| > 0 then Some(Rotation(images, k)) else None
  }

  /** Every seeded slug is a slug: a-z, 0-9 and single inner '-', no '|',
      and the letters and digits of the folded name in order. */
  lemma SeminarAtSlug(p: SeminarPayload, k: nat, id: int, images: seq<int>)
    ensures var s := SeminarAt(p, k, id, images);
      InSlugAlphabet(s.slug) && NoEdgeDash(s.slug) && NoDoubleDash(s.slug) && '|' !in s.slug
      && Alnums(s.slug) == Alnums(Folded(p.seminarname))
  {
    SlugifyShape(p.seminarname);
    SlugifyKeepsAlnums(p.seminarname);
  }

  /** The loop that creates the seminars; `ids` are the ids the store
      assigns, one per create. */
  method CreateSeminare(payloads: seq<SeminarPayload>, ids: seq<int>, images: seq<int>)
    returns (created: seq<SeedSeminar>)
    requires |ids| == |payloads|
    ensures |created| == |payloads|
    ensures forall k :: 0 <= k < |payloads| ==> created[k] == SeminarAt(payloads[k], k, ids[k], images)
  {
    created := [];
    var n := 0;
    while n < |payloads|
      invariant 0 <= n <= |payloads| && |created| == n
      invariant forall k :: 0 <= k < n ==> created[k] == SeminarAt(payloads[k], k, ids[k], images)
    {
      var sem := SeminarAt(payloads[n], n, ids[n], images);
      var before := created;
      created := created + [sem];
      forall k | 0 <= k < n + 1 ensures created[k] == SeminarAt(payloads[k], k, ids[k], images) {
        if k < n {
          assert created[k] == before[k];
        }
      }
      n := n + 1;
    }
  }

  // ---------------------------------------------------------------------
  // The full seed: termine

  /** One day of a seeded termin: the date as an offset in days from today
      and the start and end times. */
  datatype SeedTag = SeedTag(dayOffset: int, startzeit: string, endzeit: string)

  /** A termin as the seed creates it, for the seminar with id `seminar`. */
  datatype SeedTermin = SeedTermin(seminar: int, tage: seq<SeedTag>, kapazitaet: int, preis: Cents, ort: int)

  /** `pickOrtId(idx)` */
  function PickOrt(orte: seq<int>, idx: nat): int
    requires |orte| > 0
  {
    orte[idx % |orte|]
  }

  /** `termineForSem` for seminar i. */
  function TermineFor(i: nat, sem: SeedSeminar, orte: seq<int>): (ts: seq<SeedTermin>)
    requires |orte| > 0
    ensures 2 <= |ts| <= 3
    ensures forall k :: 0 <= k < |ts| ==> ts[k].seminar == sem.id && ts[k].ort == PickOrt(orte, i + k)
  {
    var p := sem.standardPreis;
    var first := SeedTermin(sem.id, [SeedTag(7 + i * 3, "18:00:00.000", "21:00:00.000")],
                            12 + (i % 3) * 6, p, PickOrt(orte, i));
    var secondTage := [SeedTag(14 + i * 4, "18:30:00.000", "21:30:00.000")]
                      + (if i % 2 == 0 then [SeedTag(15 + i * 4, "10:00:00.000", "14:00:00.000")] else []);
    var second := SeedTermin(sem.id, secondTage, 16 + (i % 2) * 4, RoundDiv(p * 105, 100), PickOrt(orte, i + 1));
    var third := SeedTermin(sem.id, [SeedTag(28 + i * 2, "11:00:00.000", "16:00:00.000")],
                            10, RoundDiv(p * 95, 100), PickOrt(orte, i + 2));
    [first, second] + (if i % 3 == 0 then [third] else [])
  }

  /** The termine of the first n seminars, in creation order. */
  function TermineUpTo(seminare: seq<SeedSeminar>, orte: seq<int>, n: nat): seq<SeedTermin>
    requires |orte| > 0 && n <= |seminare|
  {
    if n == 0 then [] else TermineUpTo(seminare, orte, n - 1) + TermineFor(n - 1, seminare[n - 1], orte)
  }

  /** The loops that create the termine, counting them in `termCount`. */
  method CreateTermine(seminare: seq<SeedSeminar>, orte: seq<int>) returns (created: seq<SeedTermin>, termCount: nat)
    requires |orte| > 0
    ensures created == TermineUpTo(seminare, orte, |seminare|)
    ensures termCount == |created|
  {
    created := [];
    termCount := 0;
    var i := 0;
    while i < |seminare|
      invariant 0 <= i <= |seminare|
      invariant created == TermineUpTo(seminare, orte, i)
      invariant termCount == |created|
    {
      var ts := TermineFor(i, seminare[i], orte);
      created, termCount := CreateEach(created, termCount, ts);
      i := i + 1;
    }
  }

  /** The inner loop: each termin of one seminar is created in turn and
      counted. */
  method CreateEach(created0: seq<SeedTermin>, count0: nat, ts: seq<SeedTermin>)
    returns (created: seq<SeedTermin>, termCount: nat)
    ensures created == created0 + ts
    ensures termCount == count0 + |ts|
  {
    created, termCount := created0, count0;
    var k := 0;
    while k < |ts|
      invariant 0 <= k <= |ts|
      invariant created == created0 + ts[..k]
      invariant termCount == count0 + k
    {
      created := created + [ts[k]];
      termCount := termCount + 1;
      k := k + 1;
    }
    assert ts[..k] == ts;
  }

  /** Seminar i gets a third termin exactly when i is a multiple of 3; its
      second termin spans two days exactly when i is even, the second day
      following the first; capacities are 12, 18 or 24, then 16 or 20, then
      10; the first termin comes before the second. */
  lemma TermineForShape(i: nat, sem: SeedSeminar, orte: seq<int>)
    requires |orte| > 0
    ensures var ts := TermineFor(i, sem, orte);
      (|ts| == 3 <==> i % 3 == 0)
      && (|ts[1].tage| == 2 <==> i % 2 == 0)
      && ts[0].kapazitaet in {12, 18, 24} && ts[1].kapazitaet in {16, 20}
      && (|ts| == 3 ==> ts[2].kapazitaet == 10)
      && ts[0].tage[0].dayOffset < ts[1].tage[0].dayOffset
      && (|ts[1].tage| == 2 ==> ts[1].tage[1].dayOffset == ts[1].tage[0].dayOffset + 1)
  {
  }

  /** The first termin costs the standard price, the second 5 % more and
      the third 5 % less, each rounded to the nearest cent. */
  lemma TermineForPrices(i: nat, sem: SeedSeminar, orte: seq<int>)
    requires |orte| > 0 && sem.standardPreis >= 0
    ensures var ts := TermineFor(i, sem, orte); var p := sem.standardPreis;
      ts[0].preis == p
      && p <= ts[1].preis && -50 < 100 * ts[1].preis - 105 * p <= 50
      && (|ts| == 3 ==> ts[2].preis <= p && -50 < 100 * ts[2].preis - 95 * p <= 50)
  {
    PercentPrice(sem.standardPreis, 105);
    PercentPrice(sem.standardPreis, 95);
  }

  /** `round2(p * f / 100)` is within half a cent of the exact value, and
      above or below p as f is. */
  lemma PercentPrice(p: Cents, f: int)
    requires p >= 0 && 0 <= f
    ensures var r := RoundDiv(p * f, 100);
      -50 < 100 * r - f * p <= 50
      && (f >= 100 ==> p <= r) && (f <= 100 ==> r <= p)
  {
    var r := RoundDiv(p * f, 100);
    assert -100 < 200 * r - 2 * (p * f) <= 100;
    if f >= 100 {
      assert p * f >= p * 100 by { MulMono(p, 100, f); }
    } else {
      assert p * f <= p * 100 by { MulMono(p, f, 100); }
    }
  }

  /** n seminars give 2n termine plus one for every multiple of 3 below n. */
  lemma {:induction false} TermineCount(seminare: seq<SeedSeminar>, orte: seq<int>, n: nat)
    requires |orte| > 0 && n <= |seminare|
    ensures |TermineUpTo(seminare, orte, n)| == 2 * n + (n + 2) / 3
  {
    if n > 0 {
      TermineCount(seminare, orte, n - 1);
    }
  }

  /** The six seed seminars get 14 termine, whatever the orte. */
  lemma SeedTermineCount(seminare: seq<SeedSeminar>, orte: seq<int>)
    requires |orte| > 0 && |seminare| == |SeedSeminare|
    ensures |TermineUpTo(seminare, orte, |seminare|)| == 14
  {
    TermineCount(seminare, orte, |seminare|);
  }
}
