/**
 * `GET /api/price?ids=<csv>&vs=<currency>`: validates `ids`, defaults `vs` to
 * `usd`, asks CoinGecko's simple/price endpoint and passes its JSON through.
 * The handler has no `try`: a `fetch` or `res.json()` that throws escapes it.
 */
module PriceRoute {
  import opened Wrappers
  import opened Strings
  import opened Http

  const Origin: string := "https://api.coingecko.com"
  const Base: string := Origin + "/api/v3/simple/price"

  const MissingIds: string := "Missing ids param"
  const FetchFailed: string := "Failed to fetch prices"

  /** `ids` is present and not empty (JavaScript's `!ids` is false). */
  predicate HasIds(q: Query) { Param(q, "ids") !in {None, Some("")} }

  /** The currency, `usd` when `vs` is absent or empty. */
  function Currency(q: Query): (vs: string)
    ensures vs != ""
    ensures Param(q, "vs") in {None, Some("")} ==> vs == "usd"
    ensures Param(q, "vs") !in {None, Some("")} ==> Param(q, "vs") == Some(vs)
  {
    ParamOr(q, "vs", "usd")
  }

  /** The upstream request for these ids in this currency. */
  function UpstreamUrl(ids: string, vs: string): (url: string)
    ensures url == Base + "?" + RenderQuery([("ids", ids), ("vs_currencies", vs)])
  {
    RenderTwo("ids", ids, "vs_currencies", vs);
    Base + "?" + ("ids" + "=" + ids + "&" + "vs_currencies" + "=" + vs)
  }

  lemma BaseHasNoQuery()
    ensures '?' !in Base
  {
  }

  /** CoinGecko reads the upstream URL's query back as exactly `ids` and `vs_currencies`. */
  lemma UpstreamQuery(ids: string, vs: string)
    requires ids != "" && QuerySafe(ids) && QuerySafe(vs)
    ensures ParseQuery(UpstreamUrl(ids, vs)) == [("ids", ids), ("vs_currencies", vs)]
  {
    BaseHasNoQuery();
    var pairs := [("ids", ids), ("vs_currencies", vs)];
    assert SafePairs(pairs) by {
      assert QuerySafe("ids") && QuerySafe("vs_currencies");
    }
    ParseRenderedQuery(Base, pairs);
    assert UpstreamUrl(ids, vs) == Base + "?" + RenderQuery(pairs);
  }

  /** The status decision on the upstream outcome. */
  function Outcome<B>(u: Upstream<B>): (r: Response<B>)
    ensures u.Answered? && !u.ok ==> r == Text(500, FetchFailed)
    ensures u.Answered? && u.ok && u.body.Some? ==> r == Json(u.body.value)
    ensures (u.Threw? || (u.Answered? && u.ok && u.body.None?)) <==> r.Rejected?
  {
    match u
    case Threw => Rejected
    case Answered(ok, body) =>
      if !ok then Text(500, FetchFailed)
      else match body
        case None => Rejected
        case Some(b) => Json(b)
  }

  /** The handler for one request; `fetch` stands for the upstream. */
  function Get<B>(q: Query, fetch: string -> Upstream<B>): (x: Exchange<B>)
    ensures !HasIds(q) <==> x.response == Text(400, MissingIds)
    ensures !HasIds(q) ==> x.upstreamRequest == None
    ensures HasIds(q) ==> x.upstreamRequest == Some(UpstreamUrl(Param(q, "ids").value, Currency(q)))
    ensures x.upstreamRequest.Some? ==> x.response == Outcome(fetch(x.upstreamRequest.value))
  {
    var ids := Param(q, "ids");
    var vs := Currency(q);
    if ids.None? || ids.value == "" then
      Exchange(None, Text(400, MissingIds))
    else
      var url := UpstreamUrl(ids.value, vs);
      Exchange(Some(url), Outcome(fetch(url)))
  }

  /** Without `ids` the answer does not depend on the upstream at all: nothing is fetched. */
  lemma MissingIdsIgnoresUpstream<B>(q: Query, f: string -> Upstream<B>, g: string -> Upstream<B>)
    requires !HasIds(q)
    ensures Get(q, f) == Get(q, g) == Exchange(None, Text(400, MissingIds))
  {
  }

  /** An ok upstream answer is passed to the client unchanged. */
  lemma OkBodyPassesThrough<B>(q: Query, fetch: string -> Upstream<B>, body: B)
    requires HasIds(q)
    requires fetch(UpstreamUrl(Param(q, "ids").value, Currency(q))) == Answered(true, Some(body))
    ensures Get(q, fetch).response == Json(body)
  {
  }
}
