/**
  The reader service's catch-all route (`app.all` on every path): it takes the target
  URL from the request path, answers the banner and not-found cases itself,
  normalises and checks the target, scrapes it with a fresh
  `PuppeteerService`, stores the screenshot URLs, formats the snapshot for
  the `X-Respond-With` mode and answers with a redirect or a text body.

  Hono is not modelled: a request is its path and its headers keyed by
  lower-case name, and a reply says what the handler hands back to Hono.
  The WHATWG URL parser, the environment, the browser, the DOM parser and
  `crypto.randomUUID` are inputs gathered in `Surroundings`.
 */
module ReaderRoute {
  import opened Common
  import Js
  import Decimal
  import P = Puppeteer

  /** The parts of a parsed `URL` the handler reads. */
  datatype Url = Url(protocol: string, href: string)

  /** `new URL(s)`: `None` when the constructor throws. */
  type UrlParser = string -> Option<Url>

  datatype Request = Request(path: string, headers: map<string, string>)

  /** Everything the handler takes from outside the request. */
  datatype Surroundings = Surroundings(
    executablePathEnv: Option<string>,   // PUPPETEER_EXECUTABLE_PATH
    parseUrl: UrlParser,
    launch: P.Launcher,
    run: P.PageRun,
    parse: P.Parser,
    screenshotId: string,                // the UUIDs the handler and `formatSnapshot` draw
    pageshotId: string,
    responseId: string)

  datatype Reply =
    | NotFound                                                   // c.notFound()
    | Text(body: string, status: int, contentType: Option<string>) // c.text(...); None keeps Hono's default type
    | Redirect(location: string)                                 // c.redirect(...)
    | Crashed(error: P.JsError)                                  // a rejection escaping the handler

  const BannerLines := ["Reader MCP Server - Deno + Hono + Puppeteer", "", "Endpoints:",
                        "- GET /<url> - Fetch and convert URL",
                        "- X-Respond-With: markdown|html|text|screenshot|pageshot"]

  /** The usage text answered for an empty target or `favicon.ico`. */
  function Banner(): (b: string)
    ensures StartsWith(b, BannerLines[0] + "\n\n")
  {
    var b := BannerLines[0] + "\n\n" + BannerLines[2] + "\n" + BannerLines[3] + "\n" + BannerLines[4];
    assert b[..|BannerLines[0] + "\n\n"|] == BannerLines[0] + "\n\n";
    b
  }

  const PlainText := "text/plain; charset=utf-8"


  /** `X-Respond-With`, or `markdown` when it is missing or empty; any other value is kept as it is. */
  function RespondWith(headers: map<string, string>): (mode: string)
    ensures Js.Truthy(ValueAt(headers, "x-respond-with")) ==> mode == headers["x-respond-with"]
    ensures !Js.Truthy(ValueAt(headers, "x-respond-with")) ==> mode == "markdown"
    ensures mode != ""
  {
    Js.OrElse(ValueAt(headers, "x-respond-with"), "markdown")
  }

  /** `path.slice(1)`. */
  function Target(path: string): (url: string)
    ensures path != [] ==> path == [path[0]] + url
    ensures path == [] ==> url == []
  {
    if path == [] then [] else path[1..]
  }

  /** A target that does not start with `http` gets `http://` in front. */
  function Normalised(url: string): (u: string)
    ensures StartsWith(u, "http")
    ensures StartsWith(url, "http") ==> u == url
    ensures !StartsWith(url, "http") ==> u == "http://" + url
  {
    if StartsWith(url, "http") then url
    else
      assert ("http://" + url)[..4] == "http";
      "http://" + url
  }

  predicate AllowedProtocol(protocol: string) {
    protocol in ["http:", "https:"]
  }

  /** Where a request goes before any browser work. */
  datatype Route = NotFoundRoute | BannerRoute | InvalidRoute | ScrapeRoute(href: string)

  function Classify(path: string, parseUrl: UrlParser): (r: Route)
    ensures r.NotFoundRoute? <==> StartsWith(path, P.ScreenshotRoute)
    ensures r.BannerRoute? <==>
      !StartsWith(path, P.ScreenshotRoute) && (Target(path) == "" || Target(path) == "favicon.ico")
    ensures r.InvalidRoute? || r.ScrapeRoute? ==>
      !StartsWith(path, P.ScreenshotRoute) && Target(path) != "" && Target(path) != "favicon.ico"
    ensures r.ScrapeRoute? <==>
      && !r.NotFoundRoute? && !r.BannerRoute?
      && parseUrl(Normalised(Target(path))).Some?
      && AllowedProtocol(parseUrl(Normalised(Target(path))).value.protocol)
    ensures r.ScrapeRoute? ==> r.href == parseUrl(Normalised(Target(path))).value.href
  {
    if StartsWith(path, P.ScreenshotRoute) then NotFoundRoute
    else
      var url := Target(path);
      if url == "" || url == "favicon.ico" then BannerRoute
      else
        var parsed := parseUrl(Normalised(url));
        if parsed.None? || !AllowedProtocol(parsed.value.protocol) then InvalidRoute
        else ScrapeRoute(parsed.value.href)
  }

  /** The scraping options the handler derives from the headers. */
  function OptionsFor(headers: map<string, string>): (o: P.ScrappingOptions)
    ensures o.favorScreenshot <==> RespondWith(headers) == "screenshot" || RespondWith(headers) == "pageshot"
    ensures o.timeoutMs == Js.ParseInt(Js.OrElse(ValueAt(headers, "x-timeout"), "30000"))
    ensures Js.Truthy(ValueAt(headers, "x-user-agent")) ==> o.overrideUserAgent == ValueAt(headers, "x-user-agent")
    ensures !Js.Truthy(ValueAt(headers, "x-user-agent")) ==> o.overrideUserAgent == ValueAt(headers, "user-agent")
    ensures "x-wait-for-selector" in headers ==> o.waitForSelector == P.One(headers["x-wait-for-selector"])
    ensures "x-wait-for-selector" !in headers ==> o.waitForSelector == P.NoSelector
  {
    var mode := RespondWith(headers);
    var selector := ValueAt(headers, "x-wait-for-selector");
    P.ScrappingOptions(
      mode in ["screenshot", "pageshot"],
      if selector.Some? then P.One(selector.value) else P.NoSelector,
      Js.ParseInt(Js.OrElse(ValueAt(headers, "x-timeout"), "30000")),
      Js.Or(ValueAt(headers, "x-user-agent"), ValueAt(headers, "user-agent")))
  }

  /** Without a usable `X-Timeout` header the navigation timeout is 30 000 ms. */
  lemma MissingTimeoutHeaderMeans30s(headers: map<string, string>)
    requires !Js.Truthy(ValueAt(headers, "x-timeout"))
    ensures OptionsFor(headers).timeoutMs == Some(30000)
    ensures P.TimeoutFor(OptionsFor(headers)) == P.DefaultTimeoutMs
  {
    assert Decimal.NatToString(3) == "3";
    assert Decimal.NatToString(30) == "30";
    assert Decimal.NatToString(300) == "300";
    assert Decimal.NatToString(3000) == "3000";
    assert Decimal.NatToString(30000) == "30000";
    Js.ParseIntOfIntToString(30000, "");
    assert Decimal.IntToString(30000) + "" == "30000";
  }

  /** `http://${host}/instant-screenshots/${id}.png`; a missing `Host` header prints as `undefined`. */
  function ImageUrl(headers: map<string, string>, id: string): (u: string)
    ensures StartsWith(u, "http://") && EndsWith(u, ".png")
    ensures "host" in headers ==> u == "http://" + headers["host"] + P.ScreenshotPath(id)
    ensures "host" !in headers ==> u == "http://undefined" + P.ScreenshotPath(id)
  {
    var host := if "host" in headers then headers["host"] else "undefined";
    var u := "http://" + host + P.ScreenshotPath(id);
    assert u == "http://" + (host + P.ScreenshotPath(id));
    StartsWithConcat("http://", host + P.ScreenshotPath(id));
    EndsWithConcat("http://" + host + P.ScreenshotRoute + id, ".png");
    u
  }

  /** One `"key": value` line of `JSON.stringify(response, null, 2)`. */
  function Member(quotedKey: string, value: string): string {
    "  " + quotedKey + ": " + Js.JsonQuote(value)
  }

  function OptionalMember(quotedKey: string, value: Option<string>): string {
    if value.Some? then ",\n" + Member(quotedKey, value.value) else ""
  }

  /** `JSON.stringify(response, null, 2)`: title and url, then the fields that are set, two-space indented. */
  function ResponseJson(r: P.ReaderResponse): (j: string)
    ensures StartsWith(j, "{\n" + Member("\"title\"", r.title) + ",\n" + Member("\"url\"", r.url))
    ensures EndsWith(j, "\n}")
  {
    var head := "{\n" + Member("\"title\"", r.title) + ",\n" + Member("\"url\"", r.url);
    var rest := OptionalMember("\"html\"", r.html) + OptionalMember("\"text\"", r.text)
      + OptionalMember("\"content\"", r.content) + OptionalMember("\"screenshotUrl\"", r.screenshotUrl)
      + OptionalMember("\"pageshotUrl\"", r.pageshotUrl);
    StartsWithConcat(head, rest + "\n}");
    EndsWithConcat(head + rest, "\n}");
    assert head + (rest + "\n}") == head + rest + "\n}";
    head + rest + "\n}"
  }

  /** The body: the first non-empty of content, html and text, else the JSON dump of the response. */
  function Body(r: P.ReaderResponse): (body: string)
    ensures Js.Truthy(r.content) ==> body == r.content.value
    ensures !Js.Truthy(r.content) && Js.Truthy(r.html) ==> body == r.html.value
    ensures !Js.Truthy(r.content) && !Js.Truthy(r.html) && Js.Truthy(r.text) ==> body == r.text.value
    ensures !Js.Truthy(r.content) && !Js.Truthy(r.html) && !Js.Truthy(r.text) ==> body == ResponseJson(r)
    ensures body != ""
  {
    if Js.Truthy(r.content) then r.content.value
    else if Js.Truthy(r.html) then r.html.value
    else if Js.Truthy(r.text) then r.text.value
    else ResponseJson(r)
  }

  /** `text/html` exactly for the `html` mode. */
  function ContentType(mode: string): (t: string)
    ensures mode == "html" <==> t == "text/html"
    ensures mode != "html" <==> t == PlainText
  {
    if mode == "html" then "text/html" else PlainText
  }

  /** What the handler answers once the scrape produced `snapshot`. */
  function Respond(mode: string, snapshot: P.PageSnapshot, headers: map<string, string>, s: Surroundings): Reply {
    var favor := mode in ["screenshot", "pageshot"];
    if mode == "screenshot" && favor && snapshot.screenshot.Some? then Redirect(ImageUrl(headers, s.screenshotId))
    else if mode == "pageshot" && favor && snapshot.pageshot.Some? then Redirect(ImageUrl(headers, s.pageshotId))
    else Text(Body(P.Formatted(snapshot, mode, s.parse, s.responseId)), 200, Some(ContentType(mode)))
  }

  /** The launch request a fresh service sends. */
  function LaunchRequestOf(s: Surroundings): P.LaunchRequest {
    P.LaunchRequestFor(Js.OrElse(s.executablePathEnv, P.DefaultChromePath))
  }

  /** The reply to `req`, as a function of the request and its surroundings. */
  function ReaderReply(req: Request, s: Surroundings): Reply {
    match Classify(req.path, s.parseUrl)
    case NotFoundRoute => NotFound
    case BannerRoute => Text(Banner(), 200, None)
    case InvalidRoute => Text("Invalid URL", 400, None)
    case ScrapeRoute(href) =>
      var launched := s.launch(LaunchRequestOf(s));
      if !launched.Launched? then Crashed(launched.error)
      else
        var snapshot := P.ScrapOutcome(href, OptionsFor(req.headers), s.run);
        Respond(RespondWith(req.headers), snapshot, req.headers, s)
  }

  /**
    The handler itself: routing, URL checks, a fresh service that is
    initialised and asked to scrape, the image URLs stored beside the
    snapshot, then a redirect or the body picked by the `content` chain.
   */
  method HandleReader(req: Request, s: Surroundings) returns (reply: Reply)
    ensures reply == ReaderReply(req, s)
  {
    var path := req.path;
    var respondWith := RespondWith(req.headers);
    if StartsWith(path, P.ScreenshotRoute) {
      return NotFound;
    }
    var url := Target(path);
    if url == "" || url == "favicon.ico" {
      return Text(Banner(), 200, None);
    }
    var targetUrl := s.parseUrl(Normalised(url));
    if targetUrl.None? || !AllowedProtocol(targetUrl.value.protocol) {
      return Text("Invalid URL", 400, None);
    }
    assert Classify(path, s.parseUrl) == ScrapeRoute(targetUrl.value.href);

    var puppeteer := new P.PuppeteerService(s.executablePathEnv);
    var thrown := puppeteer.Init(s.launch);
    if thrown.Some? {
      return Crashed(thrown.value);
    }

    var options := OptionsFor(req.headers);
    var result, _ := puppeteer.Scrap(targetUrl.value.href, options, s.launch, s.run);
    // `scrap` only launches when there is no page, and `init` has just made one
    assert result.Snapshot?;
    var snapshot := result.snapshot;

    reply := Answer(respondWith, snapshot, req.headers, s);
  }

  /**
    The tail of the handler: the image URLs stored beside the snapshot, the
    formatted response, then a redirect or the body picked by the `content` chain.
   */
  method Answer(respondWith: string, snapshot: P.PageSnapshot, headers: map<string, string>, s: Surroundings)
    returns (reply: Reply)
    ensures reply == Respond(respondWith, snapshot, headers, s)
  {
    var favorScreenshot := respondWith in ["screenshot", "pageshot"];
    var screenshotUrl: Option<string> := None;
    var pageshotUrl: Option<string> := None;
    if favorScreenshot && snapshot.screenshot.Some? {
      screenshotUrl := Some(ImageUrl(headers, s.screenshotId));
    }
    if favorScreenshot && snapshot.pageshot.Some? {
      pageshotUrl := Some(ImageUrl(headers, s.pageshotId));
    }

    var response := P.FormatSnapshot(snapshot, respondWith, s.parse, s.responseId);

    if respondWith == "screenshot" && Js.Truthy(screenshotUrl) {
      return Redirect(screenshotUrl.value);
    }
    if respondWith == "pageshot" && Js.Truthy(pageshotUrl) {
      return Redirect(pageshotUrl.value);
    }

    var content := "";
    if Js.Truthy(response.content) {
      content := response.content.value;
    } else if Js.Truthy(response.html) {
      content := response.html.value;
    } else if Js.Truthy(response.text) {
      content := response.text.value;
    } else {
      content := ResponseJson(response);
    }
    reply := Text(content, 200, Some(if respondWith == "html" then "text/html" else PlainText));
  }

  // ---------------------------------------------------------------------------
  // What the route promises

  /** No browser is launched and no page is touched unless the request reaches the scrape. */
  lemma NoBrowserBeforeScrape(req: Request, s: Surroundings, launch: P.Launcher, run: P.PageRun)
    requires !Classify(req.path, s.parseUrl).ScrapeRoute?
    ensures ReaderReply(req, s) == ReaderReply(req, s.(launch := launch, run := run))
    ensures ReaderReply(req, s).NotFound? <==> StartsWith(req.path, P.ScreenshotRoute)
    ensures ReaderReply(req, s).Text? && ReaderReply(req, s).status == 200 <==>
      Classify(req.path, s.parseUrl).BannerRoute?
  {
  }

  /** A failed launch escapes the handler with the launcher's error. */
  lemma LaunchFailureEscapes(req: Request, s: Surroundings)
    requires Classify(req.path, s.parseUrl).ScrapeRoute?
    requires !s.launch(LaunchRequestOf(s)).Launched?
    ensures ReaderReply(req, s) == Crashed(s.launch(LaunchRequestOf(s)).error)
  {
  }

  /** Redirects happen only in the image modes, to an absolute URL of a stored `.png`. */
  lemma RedirectsOnlyToImages(req: Request, s: Surroundings)
    ensures ReaderReply(req, s).Redirect? ==>
      && (RespondWith(req.headers) == "screenshot" || RespondWith(req.headers) == "pageshot")
      && StartsWith(ReaderReply(req, s).location, "http://")
      && EndsWith(ReaderReply(req, s).location, ".png")
  {
  }

  /** A scrape that completes in `screenshot` mode redirects to the stored screenshot. */
  lemma ScreenshotModeRedirects(req: Request, s: Surroundings)
    requires Classify(req.path, s.parseUrl).ScrapeRoute?
    requires s.launch(LaunchRequestOf(s)).Launched?
    requires RespondWith(req.headers) == "screenshot"
    requires P.FailureOf(P.Plan(Classify(req.path, s.parseUrl).href, OptionsFor(req.headers)), s.run).None?
    ensures ReaderReply(req, s) == Redirect(ImageUrl(req.headers, s.screenshotId))
  {
  }

  /** A response holding only an image path is dumped as JSON with title, url and that path. */
  lemma ImageOnlyBody(r: P.ReaderResponse)
    requires r.content.None? && r.html.None? && r.text.None? && r.pageshotUrl.None? && r.screenshotUrl.Some?
    ensures Body(r) == "{\n" + Member("\"title\"", r.title) + ",\n" + Member("\"url\"", r.url)
                       + ",\n" + Member("\"screenshotUrl\"", r.screenshotUrl.value) + "\n}"
  {
  }

  /**
    A scrape that fails in `screenshot` mode has no image, so the body is the
    JSON dump of a response holding only the title `Error`, the url and the
    relative image path.
   */
  lemma FailedScreenshotDumpsJson(req: Request, s: Surroundings)
    requires Classify(req.path, s.parseUrl).ScrapeRoute?
    requires s.launch(LaunchRequestOf(s)).Launched?
    requires RespondWith(req.headers) == "screenshot"
    requires P.FailureOf(P.Plan(Classify(req.path, s.parseUrl).href, OptionsFor(req.headers)), s.run).Some?
    ensures var snapshot := P.ScrapOutcome(Classify(req.path, s.parseUrl).href, OptionsFor(req.headers), s.run);
      && snapshot.title == "Error"
      && ReaderReply(req, s) == Text(
           "{\n" + Member("\"title\"", snapshot.title) + ",\n" + Member("\"url\"", Classify(req.path, s.parseUrl).href)
           + ",\n" + Member("\"screenshotUrl\"", P.ScreenshotPath(s.responseId)) + "\n}",
           200, Some(PlainText))
  {
    var href := Classify(req.path, s.parseUrl).href;
    var snapshot := P.ScrapOutcome(href, OptionsFor(req.headers), s.run);
    assert snapshot.screenshot.None? && snapshot.parsed.None? && snapshot.href == href;
    var r := P.Formatted(snapshot, "screenshot", s.parse, s.responseId);
    assert r.title == snapshot.title && r.url == href;
    ImageOnlyBody(r);
    assert Respond("screenshot", snapshot, req.headers, s) == Text(Body(r), 200, Some(PlainText));
  }

  /** In `markdown` mode (the default) the body is the Markdown built from the snapshot. */
  lemma MarkdownModeBody(req: Request, s: Surroundings)
    requires Classify(req.path, s.parseUrl).ScrapeRoute?
    requires s.launch(LaunchRequestOf(s)).Launched?
    requires RespondWith(req.headers) == "markdown"
    ensures var snapshot := P.ScrapOutcome(Classify(req.path, s.parseUrl).href, OptionsFor(req.headers), s.run);
      ReaderReply(req, s) == Text(P.Markdown(snapshot.title, s.parse(snapshot.html, snapshot.href)), 200, Some(PlainText))
  {
    var snapshot := P.ScrapOutcome(Classify(req.path, s.parseUrl).href, OptionsFor(req.headers), s.run);
    P.MarkdownStartsWithTitle(snapshot.title, s.parse(snapshot.html, snapshot.href));
  }

  /** In `html` mode the page's HTML is sent as `text/html`, unless it is empty. */
  lemma HtmlModeBody(req: Request, s: Surroundings)
    requires Classify(req.path, s.parseUrl).ScrapeRoute?
    requires s.launch(LaunchRequestOf(s)).Launched?
    requires RespondWith(req.headers) == "html"
    ensures var snapshot := P.ScrapOutcome(Classify(req.path, s.parseUrl).href, OptionsFor(req.headers), s.run);
      var reply := ReaderReply(req, s);
      && reply.Text? && reply.contentType == Some("text/html")
      && (snapshot.html != "" ==> reply.body == snapshot.html)
  {
  }

  /** An unknown mode sets no field, so the body is the JSON dump of title and url alone. */
  lemma UnknownModeDumpsTitleAndUrl(snapshot: P.PageSnapshot, mode: string, parse: P.Parser, id: string)
    requires mode !in ["markdown", "html", "text", "screenshot", "pageshot"]
    ensures Body(P.Formatted(snapshot, mode, parse, id))
         == "{\n" + Member("\"title\"", P.ResponseTitle(snapshot)) + ",\n" + Member("\"url\"", snapshot.href) + "\n}"
  {
  }

  // ---------------------------------------------------------------------------
  // The handler as written

  /**
    The `TypeError` V8 raises for `c.req.path()`: Hono's `path` is a string
    property of the request, so calling it throws.
   */
  const PathNotAFunction := P.JsError(Some("c.req.path is not a function"))

  /**
    The handler as written: its first statement calls `c.req.path()`, which
    throws before the route looks at anything, so every request the
    catch-all receives ends in that error. `ReaderReply` is the handler with
    `c.req.path` read as the property it is.
   */
  function ReaderReplyAsWritten(req: Request, s: Surroundings): Reply {
    Crashed(PathNotAFunction)
  }

  /**
    The two handlers agree only where the intended one itself fails with the
    same error: a scrape whose launch failed with exactly that message.
   */
  lemma AsWrittenDiffers(req: Request, s: Surroundings)
    ensures ReaderReplyAsWritten(req, s) == ReaderReply(req, s) ==>
      Classify(req.path, s.parseUrl).ScrapeRoute?
      && !s.launch(LaunchRequestOf(s)).Launched? && s.launch(LaunchRequestOf(s)).error == PathNotAFunction
  {
  }

  /** The root path shows the discrepancy: the banner is intended, the code as written crashes. */
  lemma RootPathCrashesAsWritten(s: Surroundings)
    ensures ReaderReply(Request("/", map[]), s) == Text(Banner(), 200, None)
    ensures ReaderReplyAsWritten(Request("/", map[]), s) == Crashed(PathNotAFunction)
    ensures ReaderReply(Request("/", map[]), s) != ReaderReplyAsWritten(Request("/", map[]), s)
  {
    assert !StartsWith("/", P.ScreenshotRoute);
    assert Target("/") == "";
  }
}
