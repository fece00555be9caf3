/**
 * src/services/wsdotClient.js: building a request URL for the ferry provider and the
 * failure branch of `fetchJson`.
 */
module WsdotClient {
  import opened Wrappers
  import opened Js

  /** `baseUrl.endsWith("/") ? baseUrl : baseUrl + "/"`. */
  function NormalizeBase(base: string): (r: string)
    ensures |r| > 0 && r[|r| - 1] == '/'
    ensures base != [] && base[|base| - 1] == '/' ==> r == base
    ensures r[..|r| - 1] == base || r == base
  {
    if base != [] && base[|base| - 1] == '/' then base else base + "/"
  }

  /** Normalising a base twice changes nothing more. */
  lemma NormalizeBaseIdempotent(base: string)
    ensures NormalizeBase(NormalizeBase(base)) == NormalizeBase(base)
  {
  }

  /** `path.startsWith("/") ? path.slice(1) : path`. */
  function NormalizePath(path: string): (r: string)
    ensures path != [] && path[0] == '/' ==> path == "/" + r
    ensures !(path != [] && path[0] == '/') ==> r == path
  {
    if path != [] && path[0] == '/' then path[1..] else path
  }

  /** Exactly one leading slash goes: `//a` keeps its second one. */
  lemma NormalizePathDropsOneSlash(p: string)
    ensures NormalizePath("/" + p) == p
  {
  }

  /** A URL as `new URL(path, base)` resolves it: the location and its search parameters, in order. */
  datatype Url = Url(location: string, params: seq<(string, string)>)

  predicate HasKey(ps: seq<(string, string)>, k: string) {
    exists i :: 0 <= i < |ps| && ps[i].0 == k
  }

  /** The values stored under `k`, in order. */
  function ValuesOf(ps: seq<(string, string)>, k: string): seq<string> {
    if ps == [] then [] else (if ps[0].0 == k then [ps[0].1] else []) + ValuesOf(ps[1..], k)
  }

  function Without(ps: seq<(string, string)>, k: string): seq<(string, string)> {
    if ps == [] then [] else (if ps[0].0 == k then [] else [ps[0]]) + Without(ps[1..], k)
  }

  /** Replaces the first entry for `k` and removes the later ones. */
  function ReplaceFirst(ps: seq<(string, string)>, k: string, v: string): seq<(string, string)> {
    if ps == [] then []
    else if ps[0].0 == k then [(k, v)] + Without(ps[1..], k)
    else [ps[0]] + ReplaceFirst(ps[1..], k, v)
  }

  /** `URLSearchParams.set(k, v)`. */
  function SetParam(ps: seq<(string, string)>, k: string, v: string): seq<(string, string)> {
    if HasKey(ps, k) then ReplaceFirst(ps, k, v) else ps + [(k, v)]
  }

  lemma {:induction false} ValuesOfAppend(ps: seq<(string, string)>, qs: seq<(string, string)>, k: string)
    ensures ValuesOf(ps + qs, k) == ValuesOf(ps, k) + ValuesOf(qs, k)
    decreases |ps|
  {
    if ps != [] {
      var head := if ps[0].0 == k then [ps[0].1] else [];
      assert (ps + qs)[0] == ps[0];
      assert (ps + qs)[1..] == ps[1..] + qs;
      ValuesOfAppend(ps[1..], qs, k);
      assert ValuesOf(ps + qs, k) == head + (ValuesOf(ps[1..], k) + ValuesOf(qs, k));
    } else {
      assert ps + qs == qs;
    }
  }

  lemma {:induction false} ValuesOfWithout(ps: seq<(string, string)>, k: string, other: string)
    ensures ValuesOf(Without(ps, k), k) == []
    ensures other != k ==> ValuesOf(Without(ps, k), other) == ValuesOf(ps, other)
    decreases |ps|
  {
    if ps != [] {
      var head := if ps[0].0 == k then [] else [ps[0]];
      ValuesOfWithout(ps[1..], k, other);
      ValuesOfAppend(head, Without(ps[1..], k), k);
      ValuesOfAppend(head, Without(ps[1..], k), other);
    }
  }

  lemma {:induction false} ValuesOfReplaceFirst(ps: seq<(string, string)>, k: string, v: string, other: string)
    requires HasKey(ps, k)
    ensures ValuesOf(ReplaceFirst(ps, k, v), k) == [v]
    ensures other != k ==> ValuesOf(ReplaceFirst(ps, k, v), other) == ValuesOf(ps, other)
    decreases |ps|
  {
    if ps[0].0 == k {
      ValuesOfWithout(ps[1..], k, other);
      ValuesOfAppend([(k, v)], Without(ps[1..], k), k);
      ValuesOfAppend([(k, v)], Without(ps[1..], k), other);
    } else {
      var i :| 0 <= i < |ps| && ps[i].0 == k;
      assert ps[1..][i - 1].0 == k;
      ValuesOfReplaceFirst(ps[1..], k, v, other);
      ValuesOfAppend([ps[0]], ReplaceFirst(ps[1..], k, v), k);
      ValuesOfAppend([ps[0]], ReplaceFirst(ps[1..], k, v), other);
    }
  }

  lemma {:induction false} NoKeyNoValues(ps: seq<(string, string)>, k: string)
    requires !HasKey(ps, k)
    ensures ValuesOf(ps, k) == []
    decreases |ps|
  {
    if ps != [] {
      NoKeyNoValues(ps[1..], k);
    }
  }

  /**
   * `set(k, v)` leaves exactly one value under `k`, namely `v`, and every other key's
   * values as they were.
   */
  lemma SetParamEffect(ps: seq<(string, string)>, k: string, v: string, other: string)
    ensures ValuesOf(SetParam(ps, k, v), k) == [v]
    ensures other != k ==> ValuesOf(SetParam(ps, k, v), other) == ValuesOf(ps, other)
  {
    if HasKey(ps, k) {
      ValuesOfReplaceFirst(ps, k, v, other);
    } else {
      NoKeyNoValues(ps, k);
      ValuesOfAppend(ps, [(k, v)], k);
      ValuesOfAppend(ps, [(k, v)], other);
    }
  }

  /** The skip test of the query loop: strictly `null`, `undefined` or the empty string. */
  predicate Kept(v: Value) {
    !(v.Null? || v.Undefined? || v == Str(""))
  }

  /** The search parameters after the loop has visited the entries of `query`, in order. */
  function ApplyAll(ps: seq<(string, string)>, query: seq<(string, Value)>): seq<(string, string)> {
    if query == [] then ps
    else
      var before := ApplyAll(ps, query[..|query| - 1]);
      var (k, v) := query[|query| - 1];
      if Kept(v) then SetParam(before, k, ToJsString(v)) else before
  }

  /** The `forEach` over `Object.entries(query)`, setting each kept entry as `String(value)`. */
  method ApplyQuery(url: Url, query: seq<(string, Value)>) returns (result: Url)
    ensures result == Url(url.location, ApplyAll(url.params, query))
  {
    var params := url.params;
    var i := 0;
    while i < |query|
      invariant 0 <= i <= |query|
      invariant params == ApplyAll(url.params, query[..i])
    {
      var (k, v) := query[i];
      assert query[..i + 1][..i] == query[..i];
      if Kept(v) {
        params := SetParam(params, k, ToJsString(v));
      }
      i := i + 1;
    }
    assert query[..|query|] == query;
    result := Url(url.location, params);
  }

  /** The keys of an object are distinct. */
  predicate DistinctKeys(query: seq<(string, Value)>) {
    forall i, j :: 0 <= i < j < |query| ==> query[i].0 != query[j].0
  }

  /**
   * Each key of the query ends up with a single value, `String(value)`, when its value is
   * kept; a skipped entry leaves whatever the resolved URL already had under that key, and
   * so does every key the query does not mention.
   */
  lemma {:induction false} ApplyAllEffect(ps: seq<(string, string)>, query: seq<(string, Value)>, k: string)
    requires DistinctKeys(query)
    ensures forall i :: 0 <= i < |query| && query[i].0 == k ==>
      ValuesOf(ApplyAll(ps, query), k) == if Kept(query[i].1) then [ToJsString(query[i].1)] else ValuesOf(ps, k)
    ensures (forall i :: 0 <= i < |query| ==> query[i].0 != k) ==> ValuesOf(ApplyAll(ps, query), k) == ValuesOf(ps, k)
    decreases |query|
  {
    if query != [] {
      var n := |query| - 1;
      var init := query[..n];
      assert DistinctKeys(init);
      ApplyAllEffect(ps, init, k);
      var before := ApplyAll(ps, init);
      var (key, v) := query[n];
      if Kept(v) {
        SetParamEffect(before, key, ToJsString(v), k);
      }
      forall i | 0 <= i < |query| && query[i].0 == k
        ensures ValuesOf(ApplyAll(ps, query), k) == if Kept(query[i].1) then [ToJsString(query[i].1)] else ValuesOf(ps, k)
      {
        if i < n {
          assert init[i] == query[i];
          assert forall j :: 0 <= j < |init| && init[j].0 == k ==> j == i;
        } else {
          assert forall j :: 0 <= j < |init| ==> init[j].0 != k;
        }
      }
    }
  }

  /** The entries the loop keeps, as `(key, String(value))`, in order. */
  function KeptEntries(query: seq<(string, Value)>): seq<(string, string)> {
    if query == [] then []
    else
      var n := |query| - 1;
      KeptEntries(query[..n]) + (if Kept(query[n].1) then [(query[n].0, ToJsString(query[n].1))] else [])
  }

  lemma {:induction false} KeptEntriesKeys(query: seq<(string, Value)>, k: string)
    requires HasKey(KeptEntries(query), k)
    ensures exists i :: 0 <= i < |query| && query[i].0 == k
    decreases |query|
  {
    var n := |query| - 1;
    var e := KeptEntries(query);
    var j :| 0 <= j < |e| && e[j].0 == k;
    if j < |KeptEntries(query[..n])| {
      assert KeptEntries(query[..n])[j] == e[j];
      KeptEntriesKeys(query[..n], k);
      var i :| 0 <= i < n && query[..n][i].0 == k;
      assert query[i].0 == k;
    } else {
      assert query[n].0 == k;
    }
  }

  /**
   * Starting from a URL without search parameters, the result holds exactly the kept
   * entries of the query, in the query's order, with their values stringified.
   */
  lemma {:induction false} ApplyAllFromEmpty(query: seq<(string, Value)>)
    requires DistinctKeys(query)
    ensures ApplyAll([], query) == KeptEntries(query)
    decreases |query|
  {
    if query != [] {
      var n := |query| - 1;
      var init := query[..n];
      assert DistinctKeys(init);
      ApplyAllFromEmpty(init);
      if Kept(query[n].1) && HasKey(KeptEntries(init), query[n].0) {
        KeptEntriesKeys(init, query[n].0);
        assert false;
      }
    }
  }

  /** The URL `buildUrl(baseUrl, path, query)` produces; `resolve` is `new URL(path, base)`. */
  function UrlFor(base: string, path: string, query: seq<(string, Value)>, resolve: (string, string) -> Url): Url {
    var resolved := resolve(NormalizePath(path), NormalizeBase(base));
    Url(resolved.location, ApplyAll(resolved.params, query))
  }

  /** `buildUrl(baseUrl, path, query)`, up to `url.toString()`. */
  method BuildUrl(base: string, path: string, query: seq<(string, Value)>, resolve: (string, string) -> Url)
    returns (url: Url)
    ensures url == UrlFor(base, path, query, resolve)
  {
    var normalizedBase := NormalizeBase(base);
    var normalizedPath := NormalizePath(path);
    url := resolve(normalizedPath, normalizedBase);
    url := ApplyQuery(url, query);
  }

  /** What `fetchJson` makes of the response to its request. */
  function JsonOf(response: HttpResponse): Result<Value, Error> {
    if !response.ok then Err(RequestFailed("WSDOT", response.status, response.body))
    else if response.json.None? then Err(MalformedBody)
    else Ok(response.json.value)
  }

  /**
   * `fetchJson(baseUrl, path, query)`; `http` is `fetch`. A response that is not ok is
   * thrown with its status and body; an ok response yields its decoded body.
   */
  method FetchJson(base: string, path: string, query: seq<(string, Value)>,
                   resolve: (string, string) -> Url, http: Url -> HttpResponse)
    returns (r: Result<Value, Error>)
    ensures var response := http(UrlFor(base, path, query, resolve));
      && (!response.ok ==> r == Err(RequestFailed("WSDOT", response.status, response.body)))
      && (response.ok && response.json.Some? ==> r == Ok(response.json.value))
      && (response.ok && response.json.None? ==> r == Err(MalformedBody))
  {
    var url := BuildUrl(base, path, query, resolve);
    var response := http(url);
    if !response.ok {
      return Err(RequestFailed("WSDOT", response.status, response.body));
    }
    if response.json.None? {
      return Err(MalformedBody);
    }
    r := Ok(response.json.value);
  }
}
