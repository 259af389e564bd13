/**
 * What the route handlers see of HTTP: the query string of the request URL
 * (`new URL(req.url).searchParams`), the outcome of one upstream `fetch`,
 * and the `Response` a handler returns.
 */
module Http {
  import opened Wrappers
  import opened Strings

  /** The query parameters in the order they appear in the URL; a name may repeat. */
  type Query = seq<(string, string)>

  /** `searchParams.get(name)`: the value of the first parameter with that name, `None` for `null`. */
  function Param(q: Query, name: string): (r: Option<string>)
    ensures r.None? <==> forall i :: 0 <= i < |q| ==> q[i].0 != name
    ensures r.Some? ==> exists i :: 0 <= i < |q| && q[i] == (name, r.value)
                                    && forall j :: 0 <= j < i ==> q[j].0 != name
  {
    if q == [] then None
    else if q[0].0 == name then Some(q[0].1)
    else
      var r := Param(q[1..], name);
      assert r.Some? ==> exists i :: 0 <= i < |q[1..]| && q[1..][i] == (name, r.value)
                                      && forall j :: 0 <= j < i ==> q[1..][j].0 != name;
      r
  }

  /** `searchParams.get(name) || fallback`: JavaScript's `||` also replaces the empty string. */
  function ParamOr(q: Query, name: string, fallback: string): (r: string)
    ensures r == fallback <==> Param(q, name) in {None, Some(""), Some(fallback)}
    ensures r != fallback ==> Param(q, name) == Some(r) && r != ""
  {
    match Param(q, name)
    case None => fallback
    case Some(v) => if v == "" then fallback else v
  }

  // ---------------------------------------------------------------------------
  // Reading a query string back (URLSearchParams, without percent-decoding)
  // ---------------------------------------------------------------------------

  /**
   * A name or value that the routes and the page put into a URL without escaping, and that the
   * URL parser behind `fetch` and `new URL` passes through: it deletes tabs and line breaks and
   * strips control characters and spaces at the ends, so those (everything up to U+0020) are
   * excluded too.
   */
  predicate QuerySafe(s: string) {
    forall i :: 0 <= i < |s| ==> s[i] > ' ' && s[i] != '&' && s[i] != '=' && s[i] != '?' && s[i] != '#'
                                 && s[i] != '%' && s[i] != '+'
  }

  /** One `name=value` piece; a piece without `=` is a name with the empty value. */
  function PairOf(piece: string): (string, string)
  {
    var j := IndexOf(piece, '=');
    if j == |piece| then (piece, "") else (piece[..j], piece[j + 1..])
  }

  /** The pairs of the non-empty pieces, in order (empty pieces such as `a&&b` are skipped). */
  function PairsOf(pieces: seq<string>): (q: Query)
    ensures |q| <= |pieces|
  {
    if pieces == [] then []
    else if pieces[0] == "" then PairsOf(pieces[1..])
    else [PairOf(pieces[0])] + PairsOf(pieces[1..])
  }

  /** The query parameters of `url`: the text after the first `?`, up to a `#`, split on `&`. */
  function ParseQuery(url: string): Query
  {
    var i := IndexOf(url, '?');
    if i == |url| then []
    else
      var rest := url[i + 1..];
      PairsOf(Split(rest[..IndexOf(rest, '#')], '&'))
  }

  /** The `name=value` pieces of a query, before they are joined with `&`. */
  function Pieces(pairs: Query): (r: seq<string>)
    ensures |r| == |pairs|
  {
    if pairs == [] then [] else [pairs[0].0 + "=" + pairs[0].1] + Pieces(pairs[1..])
  }

  /** `name1=value1&name2=value2...`. */
  function RenderQuery(pairs: Query): string
  {
    Join(Pieces(pairs), '&')
  }

  lemma RenderTwo(n1: string, v1: string, n2: string, v2: string)
    ensures RenderQuery([(n1, v1), (n2, v2)]) == n1 + "=" + v1 + "&" + n2 + "=" + v2
  {
    var ps := [(n1, v1), (n2, v2)];
    var p1, p2 := n1 + "=" + v1, n2 + "=" + v2;
    assert ps[1..] == [(n2, v2)] && ps[1..][1..] == [];
    assert Pieces(ps[1..]) == [p2];
    var xs := Pieces(ps);
    assert xs == [p1, p2];
    assert xs[1..] == [p2];
    assert Join(xs, '&') == p1 + ['&'] + p2;
    assert p1 + ['&'] + p2 == n1 + "=" + v1 + "&" + n2 + "=" + v2;
  }

  lemma RenderThree(n1: string, v1: string, n2: string, v2: string, n3: string, v3: string)
    ensures RenderQuery([(n1, v1), (n2, v2), (n3, v3)])
         == n1 + "=" + v1 + "&" + n2 + "=" + v2 + "&" + n3 + "=" + v3
  {
    var ps := [(n1, v1), (n2, v2), (n3, v3)];
    var p1 := n1 + "=" + v1;
    assert ps[1..] == [(n2, v2), (n3, v3)];
    RenderTwo(n2, v2, n3, v3);
    var ys := Pieces([(n2, v2), (n3, v3)]);
    var xs := Pieces(ps);
    assert xs == [p1] + ys;
    assert |ys| == 2;
    assert xs[1..] == ys;
    assert Join(xs, '&') == p1 + ['&'] + Join(ys, '&');
    assert p1 + ['&'] + (n2 + "=" + v2 + "&" + n3 + "=" + v3)
        == n1 + "=" + v1 + "&" + n2 + "=" + v2 + "&" + n3 + "=" + v3;
  }

  /** What `${parseInt(...)}` renders (digits, a minus sign, or `NaN`) needs no escaping. */
  lemma NumberTextSafe(x: Option<int>)
    ensures QuerySafe(NumberText(x))
  {
    match x
    case None =>
    case Some(i) =>
      var d := Decimal(if i < 0 then -i else i);
      assert forall k :: 0 <= k < |d| ==> IsDecimalDigit(d[k]);
      if i < 0 {
        assert NumberText(x) == "-" + d;
        assert forall k :: 1 <= k < |NumberText(x)| ==> NumberText(x)[k] == d[k - 1];
      }
  }

  /** Every name is non-empty and every name and value is safe to put unescaped into a URL. */
  predicate SafePairs(pairs: Query) {
    forall i :: 0 <= i < |pairs| ==> pairs[i].0 != "" && QuerySafe(pairs[i].0) && QuerySafe(pairs[i].1)
  }

  lemma {:induction false} PiecesFacts(pairs: Query)
    requires SafePairs(pairs)
    ensures forall i :: 0 <= i < |pairs| ==> Pieces(pairs)[i] == pairs[i].0 + "=" + pairs[i].1
    ensures forall p :: p in Pieces(pairs) ==> '&' !in p && '#' !in p && p != ""
    ensures PairsOf(Pieces(pairs)) == pairs
  {
    if pairs != [] {
      var (n, v) := pairs[0];
      var p := n + "=" + v;
      assert SafePairs(pairs[1..]) by {
        forall i | 0 <= i < |pairs[1..]|
          ensures pairs[1..][i].0 != "" && QuerySafe(pairs[1..][i].0) && QuerySafe(pairs[1..][i].1)
        {
          assert pairs[1..][i] == pairs[i + 1];
        }
      }
      PiecesFacts(pairs[1..]);
      assert QuerySafe(n) && QuerySafe(v) && n != "";
      assert '&' !in p && '#' !in p by {
        forall k | 0 <= k < |p| ensures p[k] != '&' && p[k] != '#' {
          if k < |n| { assert p[k] == n[k]; } else if k > |n| { assert p[k] == v[k - |n| - 1]; }
        }
      }
      assert IndexOf(p, '=') == |n| by {
        assert p[|n|] == '=';
        forall k | 0 <= k < |n| ensures p[k] != '=' { assert p[k] == n[k]; }
      }
      assert p[..|n|] == n && p[|n| + 1..] == v;
      assert PairOf(p) == (n, v);
    }
  }

  /** The query string a route or the page builds is read back as exactly the pairs it was built from. */
  lemma ParseRenderedQuery(base: string, pairs: Query)
    requires '?' !in base
    requires SafePairs(pairs)
    ensures ParseQuery(base + "?" + RenderQuery(pairs)) == pairs
  {
    var url := base + "?" + RenderQuery(pairs);
    var r := RenderQuery(pairs);
    assert IndexOf(url, '?') == |base| by {
      assert url[|base|] == '?';
      forall k | 0 <= k < |base| ensures url[k] != '?' { assert url[k] == base[k]; }
    }
    assert url[|base| + 1..] == r;
    PiecesFacts(pairs);
    assert IndexOf(r, '#') == |r| by {
      forall k | 0 <= k < |r| ensures r[k] != '#' {
        JoinChars(Pieces(pairs), '&', k);
      }
    }
    assert r[..|r|] == r;
    if pairs == [] {
      assert r == "";
      assert Split(r, '&') == [""];
    } else {
      SplitJoin(Pieces(pairs), '&');
    }
  }

  // ---------------------------------------------------------------------------
  // Upstream outcome and handler response
  // ---------------------------------------------------------------------------

  /**
   * What one `fetch(url)` followed by `res.json()` gives a handler: `fetch` threw, or the
   * response came back with its `res.ok` flag and the parsed body (`None`: `res.json()` threw).
   */
  datatype Upstream<B> = Threw | Answered(ok: bool, body: Option<B>)

  /**
   * What a handler produces: `new Response(message, { status })`, `Response.json(body)`
   * (status 200), or an exception that escapes the handler.
   */
  datatype Response<B> = Text(status: nat, message: string) | Json(body: B) | Rejected

  /** One request to a route: the upstream URL it fetched, if any, and its response. */
  datatype Exchange<B> = Exchange(upstreamRequest: Option<string>, response: Response<B>)
}
