/** The frontend's access to the backend: the base URLs, how an API path
    is joined to a base, and how a media path becomes an absolute URL.
    The environment variables are parameters; `fetchJSON` itself is I/O
    and is not modelled. The response types that pages read are declared
    here as they are in the frontend's API module. */
module Api {
  import opened Common
  import opened Entities

  // ---------------------------------------------------------------------
  // Response types

  /** One termin of a seminar as the public seminar API returns it. */
  datatype TerminItem = TerminItem(id: int, preis: Option<Num>, tage: Option<seq<Tag>>, ort: Option<Ort>)

  /** One seminar as the public seminar API returns it. The API always
      selects `standardPreis`, so a seminar without one carries null; the
      field is undefined only in a reply that leaves it out. */
  datatype SeminarListItem = SeminarListItem(
    id: int, seminarname: string, slug: string, standardPreis: JsVal,
    mitMwst: Option<bool>, termine: Option<seq<TerminItem>>)

  /** The value when it is of type number (`typeof x === 'number'`). */
  function NumberValue(x: JsVal): (r: Option<Num>)
    ensures r.Some? <==> x.NumV?
    ensures r.Some? ==> x == NumV(r.value)
  {
    if x.NumV? then Some(x.n) else None
  }

  // ---------------------------------------------------------------------
  // Prefix and suffix tests

  predicate StartsWith(s: string, prefix: string) {
    |prefix| <= |s| && s[..|prefix|] == prefix
  }

  /** `s` ends in '/'. */
  predicate EndsInSlash(s: string) {
    s != [] && s[|s| - 1] == '/'
  }

  /** 'api' occurs at position k of u. */
  predicate ApiAt(u: string, k: int) {
    0 <= k && k + 3 <= |u| && u[k] == 'a' && u[k + 1] == 'p' && u[k + 2] == 'i'
  }

  /** The four strings the pattern `\/?api\/?$` can match at the end. */
  predicate IsApiSuffix(x: string) {
    x == "/api/" || x == "/api" || x == "api/" || x == "api"
  }

  /** The length of what `\/?api\/?$` matches at the end of u, 0 for no
      match. The expression takes its leftmost match, which is the longest
      of the four suffixes. */
  function ApiSuffixLength(u: string): (k: nat)
    ensures k <= |u| && (k == 0 || 3 <= k <= 5)
  {
    var n := |u|;
    if n >= 4 && u[n - 1] == '/' && ApiAt(u, n - 4) then (if n >= 5 && u[n - 5] == '/' then 5 else 4)
    else if ApiAt(u, n - 3) then (if n >= 4 && u[n - 4] == '/' then 4 else 3)
    else 0
  }

  /** `u.replace(/\/?api\/?$/, '')` */
  function StripApiSuffix(u: string): (r: string)
    ensures |r| <= |u| && r == u[..|r|]
  {
    u[..|u| - ApiSuffixLength(u)]
  }

  /** What is removed is one of the four suffixes, and no longer one ends
      the string: the longest match is removed, and nothing when there is
      none. */
  lemma StripApiSuffixMeaning(u: string, m: nat)
    requires m <= |u|
    ensures var r := StripApiSuffix(u);
      (r == u || IsApiSuffix(u[|r|..]))
      && (IsApiSuffix(u[|u| - m..]) ==> m <= |u| - |r|)
  {
    RemovedIsApiSuffix(u);
    if IsApiSuffix(u[|u| - m..]) {
      ApiSuffixBound(u, m);
    }
  }

  lemma RemovedIsApiSuffix(u: string)
    ensures ApiSuffixLength(u) == 0 || IsApiSuffix(u[|u| - ApiSuffixLength(u)..])
  {
    var n := |u|;
    var k := ApiSuffixLength(u);
    var x := u[n - k..];
    if k == 5 {
      assert x == [u[n - 5], u[n - 4], u[n - 3], u[n - 2], u[n - 1]];
    } else if k == 4 {
      assert x == [u[n - 4], u[n - 3], u[n - 2], u[n - 1]];
    } else if k == 3 {
      assert x == [u[n - 3], u[n - 2], u[n - 1]];
    }
  }

  /** Any api suffix at the end is at most as long as the matched one. */
  lemma ApiSuffixBound(u: string, m: nat)
    requires m <= |u| && IsApiSuffix(u[|u| - m..])
    ensures m <= ApiSuffixLength(u)
  {
    var n := |u|;
    var y := u[n - m..];
    assert |y| == m;
    forall j | 0 <= j < m ensures y[j] == u[n - m + j] {
    }
    if y == "/api/" {
      assert u[n - 5] == '/' && u[n - 4] == 'a' && u[n - 3] == 'p' && u[n - 2] == 'i' && u[n - 1] == '/'
        by { assert y[0] == u[n - 5] && y[1] == u[n - 4] && y[2] == u[n - 3] && y[3] == u[n - 2] && y[4] == u[n - 1]; }
    } else if y == "/api" {
      assert u[n - 4] == '/' && u[n - 3] == 'a' && u[n - 2] == 'p' && u[n - 1] == 'i'
        by { assert y[0] == u[n - 4] && y[1] == u[n - 3] && y[2] == u[n - 2] && y[3] == u[n - 1]; }
    } else if y == "api/" {
      assert u[n - 4] == 'a' && u[n - 3] == 'p' && u[n - 2] == 'i' && u[n - 1] == '/'
        by { assert y[0] == u[n - 4] && y[1] == u[n - 3] && y[2] == u[n - 2] && y[3] == u[n - 1]; }
    } else {
      assert u[n - 3] == 'a' && u[n - 2] == 'p' && u[n - 1] == 'i'
        by { assert y[0] == u[n - 3] && y[1] == u[n - 2] && y[2] == u[n - 1]; }
    }
  }

  /** Whatever the base, appending '/api' or '/api/' and stripping gives
      the base back. */
  lemma StripApiSuffixRoundTrip(b: string)
    ensures StripApiSuffix(b + "/api") == b
    ensures StripApiSuffix(b + "/api/") == b
  {
    var u, v := b + "/api", b + "/api/";
    var n := |b|;
    assert u[n] == '/' && u[n + 1] == 'a' && u[n + 2] == 'p' && u[n + 3] == 'i';
    assert v[n] == '/' && v[n + 1] == 'a' && v[n + 2] == 'p' && v[n + 3] == 'i' && v[n + 4] == '/';
    assert u[..n] == b && v[..n] == b;
  }

  // ---------------------------------------------------------------------
  // Base URLs

  const DefaultBase := "http://localhost:1337"

  /** The server-side API base: `API_INTERNAL_URL || NEXT_PUBLIC_API_URL ||
      'http://localhost:1337'`. */
  function ServerBase(internalUrl: Option<string>, publicUrl: Option<string>): (r: string)
    ensures Filled(internalUrl) ==> r == internalUrl.value
    ensures !Filled(internalUrl) && Filled(publicUrl) ==> r == publicUrl.value
    ensures !Filled(internalUrl) && !Filled(publicUrl) ==> r == DefaultBase
  {
    var s := OrStr(OrStr(internalUrl, publicUrl), Some(DefaultBase));
    s.value
  }

  /** The media base: the assets variable when it is non-empty, else the API
      base without its api suffix. */
  function MediaBase(assetsUrl: Option<string>, apiBase: string): (r: string)
    ensures Filled(assetsUrl) ==> r == assetsUrl.value
    ensures !Filled(assetsUrl) ==> r == StripApiSuffix(apiBase)
  {
    if Filled(assetsUrl) then assetsUrl.value else StripApiSuffix(apiBase)
  }

  /** With no variable set the media base is the default host itself, and an
      API base of the form 'host/api' has media under 'host'. */
  lemma MediaBaseDefaults(host: string)
    ensures MediaBase(None, DefaultBase) == DefaultBase
    ensures MediaBase(None, host + "/api") == host
  {
    StripApiSuffixRoundTrip(host);
    var d := DefaultBase;
    assert d[|d| - 1] == '7' && d[|d| - 3] == '3';
  }

  // ---------------------------------------------------------------------
  // joinUrl

  /** `b.replace(/\/$/, '')`: one trailing '/' removed. */
  function NoTrailingSlash(base: string): (b: string)
    ensures EndsInSlash(base) ==> base == b + "/"
    ensures !EndsInSlash(base) ==> b == base
  {
    if EndsInSlash(base) then base[..|base| - 1] else base
  }

  /** `/\/api$/i.test(b)`: b ends in '/api', the letters in any case. */
  predicate HasApi(b: string) {
    var n := |b|;
    n >= 4 && b[n - 4] == '/' && LowerChar(b[n - 3]) == 'a' && LowerChar(b[n - 2]) == 'p' && LowerChar(b[n - 1]) == 'i'
  }

  /** The base with '/api' appended unless it already ends in it. */
  function ApiBase(base: string): (r: string)
    ensures HasApi(r)
  {
    var b := NoTrailingSlash(base);
    if HasApi(b) then b
    else
      var r := b + "/api";
      assert r[|b|] == '/' && r[|b| + 1] == 'a' && r[|b| + 2] == 'p' && r[|b| + 3] == 'i';
      r
  }

  /** The path with a leading '/'. */
  function Slashed(path: string): (p: string)
    ensures p != [] && p[0] == '/'
    ensures path != [] && path[0] == '/' ==> p == path
    ensures !(path != [] && path[0] == '/') ==> p == "/" + path
  {
    if path != [] && path[0] == '/' then path else "/" + path
  }

  /** `joinUrl(base, path)` */
  function JoinUrl(base: string, path: string): (r: string)
    ensures var b, p := NoTrailingSlash(base), Slashed(path);
      |b| + |p| <= |r| && r[..|b|] == b && r[|r| - |p|..] == p
      && HasApi(r[..|r| - |p|]) && (|r| == |b| + |p| || |r| == |b| + 4 + |p|)
  {
    ApiBase(base) + Slashed(path)
  }

  /** '/api' is added once: a base that already ends in '/api' or '/api/'
      (in any case) is kept up to the trailing '/', and taking the api base
      twice gives the same as once. */
  lemma ApiBaseNeverDoubles(base: string)
    ensures HasApi(NoTrailingSlash(base)) ==> ApiBase(base) == NoTrailingSlash(base)
    ensures !HasApi(NoTrailingSlash(base)) ==> ApiBase(base) == NoTrailingSlash(base) + "/api"
    ensures ApiBase(ApiBase(base)) == ApiBase(base)
    ensures ApiBase(base + "/api") == base + "/api"
  {
    var c := base + "/api";
    assert c[|base|] == '/' && c[|base| + 1] == 'a' && c[|base| + 2] == 'p' && c[|base| + 3] == 'i';
  }

  /** A leading '/' is added only when missing, so the two spellings of a
      path give the same URL. */
  lemma JoinUrlLeadingSlash(base: string, path: string)
    ensures JoinUrl(base, path) == JoinUrl(base, Slashed(path))
    ensures !(path != [] && path[0] == '/') ==> JoinUrl(base, path) == JoinUrl(base, "/" + path)
  {
  }

  // ---------------------------------------------------------------------
  // mediaUrl

  /** `mediaUrl(path)` against the media base in force. */
  function MediaUrl(base: string, path: Option<string>): (r: Option<string>)
    ensures r.None? <==> !Filled(path)
    ensures Filled(path) && StartsWith(path.value, "http") ==> r == path
    ensures Filled(path) && !StartsWith(path.value, "http") ==> r == Some(base + path.value)
  {
    if !Filled(path) then None
    else if StartsWith(path.value, "http") then path
    else Some(base + path.value)
  }

  /** An absolute URL is never prefixed, whatever the base; a relative path
      keeps its text at the end of the result. */
  lemma MediaUrlKeepsPath(base1: string, base2: string, path: string)
    requires path != []
    ensures StartsWith(path, "http") ==> MediaUrl(base1, Some(path)) == MediaUrl(base2, Some(path))
    ensures var r := MediaUrl(base1, Some(path)).value; |path| <= |r| && r[|r| - |path|..] == path
  {
    var r := MediaUrl(base1, Some(path)).value;
    if !StartsWith(path, "http") {
      assert r[|r| - |path|..] == path;
    }
  }
}
