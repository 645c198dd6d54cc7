/**
  Crawler option parsing: `CrawlerOptions.from` reads a request's query
  (where header-style names such as `X-Respond-With` and camelCase names
  such as `respondWith` can both appear) and `CrawlerOptionsHeaderOnly.from`
  reads lower-case request headers. Both fill a fresh record whose fields
  are independent expressions of the input.

  Inputs are string-valued dictionaries; a missing key is `undefined`.
 */
module ScrappingOptions {
  import opened Common
  import Decimal
  import Js

  /** `dict[first] || dict[second]`: the first key wins unless its value is missing or empty. */
  function Pick(dict: map<string, string>, first: string, second: string): (v: Option<string>)
    ensures first in dict && dict[first] != "" ==> v == Some(dict[first])
    ensures !(first in dict && dict[first] != "") ==> v == ValueAt(dict, second)
  {
    Js.Or(ValueAt(dict, first), ValueAt(dict, second))
  }

  /** `dict[first] === 'true' || dict[second] === 'true'`. */
  predicate Flag(dict: map<string, string>, first: string, second: string) {
    ValueAt(dict, first) == Some("true") || ValueAt(dict, second) == Some("true")
  }

  /** `parseInt(raw) || undefined`: NaN and zero give `undefined`; `parseInt(undefined)` is NaN. */
  function TimeoutOf(raw: Option<string>): (t: Option<int>)
    ensures t.Some? ==> t.value != 0 && raw.Some? && Js.ParseInt(raw.value) == t
    ensures raw.Some? && Js.ParseInt(raw.value).Some? && Js.ParseInt(raw.value).value != 0 ==> t == Js.ParseInt(raw.value)
  {
    if raw.None? then None
    else match Js.ParseInt(raw.value)
      case None => None
      case Some(n) => if n == 0 then None else Some(n)
  }

  datatype CrawlerOptions = CrawlerOptions(
    respondWith: string,
    withGeneratedAlt: bool,
    withLinksSummary: bool,
    withImagesSummary: bool,
    keepImgDataUrl: bool,
    cacheTolerance: Option<string>,
    userAgent: Option<string>,
    timeout: Option<int>,
    html: Option<string>,
    proxyUrl: Option<string>,
    removeSelector: Option<string>,
    targetSelector: Option<string>,
    waitForSelector: Option<string>,
    withIframe: bool)

  /** `CrawlerOptions.from(query)`. */
  function CrawlerOptionsFrom(query: map<string, string>): (o: CrawlerOptions)
    // respondWith: header-style key, then camelCase key, then "markdown"; never empty, never validated
    ensures o.respondWith != ""
    ensures "X-Respond-With" in query && query["X-Respond-With"] != "" ==> o.respondWith == query["X-Respond-With"]
    ensures (!("X-Respond-With" in query && query["X-Respond-With"] != "") && "respondWith" in query
             && query["respondWith"] != "") ==> o.respondWith == query["respondWith"]
    ensures ValueAt(query, "X-Respond-With").GetOr("") == "" && ValueAt(query, "respondWith").GetOr("") == ""
            ==> o.respondWith == "markdown"
    // flags: exactly the string "true" under either name
    ensures o.withGeneratedAlt <==> Flag(query, "X-With-Generated-Alt", "withGeneratedAlt")
    ensures o.withLinksSummary <==> Flag(query, "X-With-Links-Summary", "withLinksSummary")
    ensures o.withImagesSummary <==> Flag(query, "X-With-Images-Summary", "withImagesSummary")
    ensures o.keepImgDataUrl <==> Flag(query, "X-Keep-Img-Data-Url", "keepImgDataUrl")
    ensures o.withIframe <==> Flag(query, "X-With-Iframe", "withIframe")
    // string options: header-style key first
    ensures o.cacheTolerance == Pick(query, "X-Cache-Tolerance", "cacheTolerance")
    ensures o.proxyUrl == Pick(query, "X-Proxy-Url", "proxyUrl")
    ensures o.removeSelector == Pick(query, "X-Remove-Selector", "removeSelector")
    ensures o.targetSelector == Pick(query, "X-Target-Selector", "targetSelector")
    ensures o.waitForSelector == Pick(query, "X-Wait-For-Selector", "waitForSelector")
    ensures "X-User-Agent" in query && query["X-User-Agent"] != "" ==> o.userAgent == Some(query["X-User-Agent"])
    ensures !("X-User-Agent" in query && query["X-User-Agent"] != "") ==> o.userAgent == Pick(query, "User-Agent", "userAgent")
    // timeout: the header when truthy, else the camelCase key; never zero
    ensures o.timeout == TimeoutOf(Pick(query, "X-Timeout", "timeout"))
    ensures o.timeout != Some(0)
    // html only from the query's own `html` key
    ensures o.html == ValueAt(query, "html")
  {
    CrawlerOptions(
      respondWith := Js.OrElse(Js.Or(ValueAt(query, "X-Respond-With"), ValueAt(query, "respondWith")), "markdown"),
      withGeneratedAlt := Flag(query, "X-With-Generated-Alt", "withGeneratedAlt"),
      withLinksSummary := Flag(query, "X-With-Links-Summary", "withLinksSummary"),
      withImagesSummary := Flag(query, "X-With-Images-Summary", "withImagesSummary"),
      keepImgDataUrl := Flag(query, "X-Keep-Img-Data-Url", "keepImgDataUrl"),
      cacheTolerance := Pick(query, "X-Cache-Tolerance", "cacheTolerance"),
      userAgent := Js.Or(Js.Or(ValueAt(query, "X-User-Agent"), ValueAt(query, "User-Agent")), ValueAt(query, "userAgent")),
      timeout := TimeoutOf(Js.Or(ValueAt(query, "X-Timeout"), ValueAt(query, "timeout"))),
      html := ValueAt(query, "html"),
      proxyUrl := Pick(query, "X-Proxy-Url", "proxyUrl"),
      removeSelector := Pick(query, "X-Remove-Selector", "removeSelector"),
      targetSelector := Pick(query, "X-Target-Selector", "targetSelector"),
      waitForSelector := Pick(query, "X-Wait-For-Selector", "waitForSelector"),
      withIframe := Flag(query, "X-With-Iframe", "withIframe"))
  }

  /** A timeout written in decimal under `X-Timeout` is read back exactly (zero excepted). */
  lemma TimeoutHeaderRoundTrip(query: map<string, string>, n: int)
    requires n != 0
    requires "X-Timeout" in query && query["X-Timeout"] == Decimal.IntToString(n)
    ensures CrawlerOptionsFrom(query).timeout == Some(n)
  {
    Js.ParseIntOfIntToString(n, "");
    assert Decimal.IntToString(n) + "" == Decimal.IntToString(n);
  }

  /**
    A truthy `X-Timeout` that does not parse gives no timeout whatever the
    `timeout` key holds (even a valid number): there is no fallback.
   */
  lemma NonNumericTimeoutHeaderDoesNotFallBack(query: map<string, string>)
    requires "X-Timeout" in query && query["X-Timeout"] != ""
    requires Js.ParseInt(query["X-Timeout"]).None?
    ensures CrawlerOptionsFrom(query).timeout == None
  {
  }

  /** An empty header falls through to the camelCase key, which is read the same way. */
  lemma EmptyTimeoutHeaderFallsBack(query: map<string, string>, n: int)
    requires n != 0
    requires "X-Timeout" !in query || query["X-Timeout"] == ""
    requires "timeout" in query && query["timeout"] == Decimal.IntToString(n)
    ensures CrawlerOptionsFrom(query).timeout == Some(n)
  {
    Js.ParseIntOfIntToString(n, "");
    assert Decimal.IntToString(n) + "" == Decimal.IntToString(n);
  }

  /** `"0"` is falsy after parsing, so it means "no timeout". */
  lemma ZeroTimeoutIsUndefined(query: map<string, string>)
    requires "X-Timeout" in query && query["X-Timeout"] == "0"
    ensures CrawlerOptionsFrom(query).timeout == None
  {
    Js.ParseIntOfIntToString(0, "");
    assert Decimal.IntToString(0) + "" == "0";
  }

  /** Only `query.html` matters for `html`: a header-style `X-Html` key is ignored. */
  lemma HtmlOnlyFromQuery(query: map<string, string>, v: string)
    ensures CrawlerOptionsFrom(query["X-Html" := v]).html == CrawlerOptionsFrom(query).html
  {
  }

  /** The header-only variant: the same fields, read from lower-case header names. */
  datatype CrawlerOptionsHeaderOnly = CrawlerOptionsHeaderOnly(
    respondWith: string,
    withGeneratedAlt: bool,
    withLinksSummary: bool,
    withImagesSummary: bool,
    keepImgDataUrl: bool,
    cacheTolerance: Option<string>,
    userAgent: Option<string>)

  /** `CrawlerOptionsHeaderOnly.from(req)`, given `req.headers`. */
  function HeaderOnlyFrom(headers: map<string, string>): (o: CrawlerOptionsHeaderOnly)
    ensures o.respondWith != ""
    ensures "x-respond-with" in headers && headers["x-respond-with"] != "" ==> o.respondWith == headers["x-respond-with"]
    ensures !("x-respond-with" in headers && headers["x-respond-with"] != "") ==> o.respondWith == "markdown"
    ensures o.withGeneratedAlt <==> ValueAt(headers, "x-with-generated-alt") == Some("true")
    ensures o.withLinksSummary <==> ValueAt(headers, "x-with-links-summary") == Some("true")
    ensures o.withImagesSummary <==> ValueAt(headers, "x-with-images-summary") == Some("true")
    ensures o.keepImgDataUrl <==> ValueAt(headers, "x-keep-img-data-url") == Some("true")
    ensures o.cacheTolerance == ValueAt(headers, "x-cache-tolerance")
    ensures o.userAgent == Pick(headers, "x-user-agent", "user-agent")
  {
    CrawlerOptionsHeaderOnly(
      respondWith := Js.OrElse(ValueAt(headers, "x-respond-with"), "markdown"),
      withGeneratedAlt := ValueAt(headers, "x-with-generated-alt") == Some("true"),
      withLinksSummary := ValueAt(headers, "x-with-links-summary") == Some("true"),
      withImagesSummary := ValueAt(headers, "x-with-images-summary") == Some("true"),
      keepImgDataUrl := ValueAt(headers, "x-keep-img-data-url") == Some("true"),
      cacheTolerance := ValueAt(headers, "x-cache-tolerance"),
      userAgent := Pick(headers, "x-user-agent", "user-agent"))
  }

  /**
    The two readers agree: a query carrying the header values under the
    header-style names (and no camelCase names) yields the same shared fields
    as the headers do.
   */
  lemma HeaderOnlyAgreesWithQuery(headers: map<string, string>, query: map<string, string>)
    requires ValueAt(query, "X-Respond-With") == ValueAt(headers, "x-respond-with") && "respondWith" !in query
    requires ValueAt(query, "X-With-Generated-Alt") == ValueAt(headers, "x-with-generated-alt") && "withGeneratedAlt" !in query
    requires ValueAt(query, "X-With-Links-Summary") == ValueAt(headers, "x-with-links-summary") && "withLinksSummary" !in query
    requires ValueAt(query, "X-With-Images-Summary") == ValueAt(headers, "x-with-images-summary") && "withImagesSummary" !in query
    requires ValueAt(query, "X-Keep-Img-Data-Url") == ValueAt(headers, "x-keep-img-data-url") && "keepImgDataUrl" !in query
    requires ValueAt(query, "X-Cache-Tolerance") == ValueAt(headers, "x-cache-tolerance") && "cacheTolerance" !in query
    requires ValueAt(query, "X-User-Agent") == ValueAt(headers, "x-user-agent")
    requires ValueAt(query, "User-Agent") == ValueAt(headers, "user-agent") && "userAgent" !in query
    // `'' || undefined` is `undefined`: the query form drops an empty last alternative
    requires ValueAt(headers, "x-cache-tolerance") != Some("") && ValueAt(headers, "user-agent") != Some("")
    ensures var q, h := CrawlerOptionsFrom(query), HeaderOnlyFrom(headers);
      && q.respondWith == h.respondWith
      && q.withGeneratedAlt == h.withGeneratedAlt && q.withLinksSummary == h.withLinksSummary
      && q.withImagesSummary == h.withImagesSummary && q.keepImgDataUrl == h.keepImgDataUrl
      && q.cacheTolerance == h.cacheTolerance && q.userAgent == h.userAgent
  {
  }
}
