/**
  The reader service's browser side: `formatSnapshot`, which turns a page
  snapshot into the response for one output mode (building Markdown from the
  page's paragraphs, links and headings), and `PuppeteerService`, which owns
  one browser and one page, launches them lazily and scrapes a URL.

  The browser is not modelled: launching is a function from the launch
  request to its outcome, and a page is a function saying which page
  operations throw, together with what evaluation and the screenshots yield.
  The DOM that `JSDOM` builds from the snapshot's HTML is given as the
  sequence of elements the queries can see, in document order.
 */
module Puppeteer {
  import opened Common
  import Js

  // ---------------------------------------------------------------------------
  // The DOM as the Markdown conversion queries it

  /** The digit of a heading tag name `H1` … `H6`. */
  type HeadingLevel = n: nat | 1 <= n <= 6 witness 1

  /** An element in document order: `p`, `a` (its `href` attribute, if any), `h1`…`h6`, or anything else. */
  datatype Element =
    | Paragraph(text: string)
    | Anchor(href: Option<string>, text: string)
    | Heading(level: HeadingLevel, text: string)
    | OtherElement

  datatype Link = Link(href: Option<string>, text: string)
  datatype Head = Head(level: HeadingLevel, text: string)

  /** `querySelectorAll('p')`: the paragraphs' texts in document order. */
  function Paragraphs(doc: seq<Element>): seq<string> {
    if doc == [] then []
    else (if doc[0].Paragraph? then [doc[0].text] else []) + Paragraphs(doc[1..])
  }

  /** `querySelectorAll('a')`. */
  function Links(doc: seq<Element>): seq<Link> {
    if doc == [] then []
    else (if doc[0].Anchor? then [Link(doc[0].href, doc[0].text)] else []) + Links(doc[1..])
  }

  /** `querySelectorAll('h1, h2, h3, h4, h5, h6')`: all levels together, in document order. */
  function Headings(doc: seq<Element>): seq<Head> {
    if doc == [] then []
    else (if doc[0].Heading? then [Head(doc[0].level, doc[0].text)] else []) + Headings(doc[1..])
  }

  /** Each query distributes over a split of the document. */
  lemma {:induction false} ParagraphsAppend(a: seq<Element>, b: seq<Element>)
    ensures Paragraphs(a + b) == Paragraphs(a) + Paragraphs(b)
  {
    if a == [] {
      assert a + b == b;
    } else {
      ParagraphsAppend(a[1..], b);
      assert (a + b)[1..] == a[1..] + b;
    }
  }

  lemma {:induction false} LinksAppend(a: seq<Element>, b: seq<Element>)
    ensures Links(a + b) == Links(a) + Links(b)
  {
    if a == [] {
      assert a + b == b;
    } else {
      LinksAppend(a[1..], b);
      assert (a + b)[1..] == a[1..] + b;
    }
  }

  lemma {:induction false} HeadingsAppend(a: seq<Element>, b: seq<Element>)
    ensures Headings(a + b) == Headings(a) + Headings(b)
  {
    if a == [] {
      assert a + b == b;
    } else {
      HeadingsAppend(a[1..], b);
      assert (a + b)[1..] == a[1..] + b;
    }
  }

  // ---------------------------------------------------------------------------
  // Markdown

  /** The text a `forEach` appends, item by item, in order. */
  function ConcatMap<T>(items: seq<T>, line: T -> string): string {
    if items == [] then "" else ConcatMap(items[..|items| - 1], line) + line(items[|items| - 1])
  }

  /** One more item appended by a `forEach` step. */
  lemma ConcatMapSnoc<T>(prefix: string, items: seq<T>, i: nat, line: T -> string)
    requires i < |items|
    ensures prefix + ConcatMap(items[..i + 1], line) == (prefix + ConcatMap(items[..i], line)) + line(items[i])
  {
    assert items[..i + 1][..i] == items[..i];
    var a, b, c := prefix, ConcatMap(items[..i], line), line(items[i]);
    assert a + (b + c) == (a + b) + c;
  }

  lemma {:induction false} ConcatMapAppend<T>(a: seq<T>, b: seq<T>, line: T -> string)
    ensures ConcatMap(a + b, line) == ConcatMap(a, line) + ConcatMap(b, line)
    decreases |b|
  {
    if b == [] {
      assert a + b == a;
    } else {
      var b' := b[..|b| - 1];
      assert (a + b)[..|a + b| - 1] == a + b';
      ConcatMapAppend(a, b', line);
    }
  }

  /** A paragraph's text followed by a blank line. */
  function ParagraphLine(text: string): string {
    text + "\n\n"
  }

  /** A link is written only when both its `href` and its text are non-empty, with no separator. */
  function LinkLine(l: Link): (md: string)
    ensures md != "" <==> Js.Truthy(l.href) && l.text != ""
    ensures md != "" ==> md[0] == '[' && md[|md| - 1] == ')'
  {
    if Js.Truthy(l.href) && l.text != "" then "[" + l.text + "](" + l.href.value + ")" else ""
  }

  /** `'#'.repeat(level)`. */
  function Hashes(level: nat): (h: string)
    ensures |h| == level && forall i :: 0 <= i < level ==> h[i] == '#'
  {
    if level == 0 then "" else Hashes(level - 1) + "#"
  }

  /** A heading line: its level's number of `#`, a blank, the text, preceded by one and followed by two newlines. */
  function HeadingLine(h: Head): string {
    "\n" + Hashes(h.level) + " " + h.text + "\n\n"
  }

  lemma HeadingLineShape(h: Head)
    ensures var md := HeadingLine(h);
      && |md| == |h.text| + h.level + 4
      && md[0] == '\n' && md[1..h.level + 1] == Hashes(h.level) && md[h.level + 1] == ' '
      && md[h.level + 2..|md| - 2] == h.text && EndsWith(md, "\n\n")
  {
    var md := HeadingLine(h);
    assert md[|md| - 2..] == "\n\n";
  }

  function MarkdownTitle(title: string): string {
    "# " + title + "\n\n"
  }

  /**
    The Markdown of a document: the raw title line, then every paragraph, then
    every usable link, then every heading, each kind as a block.
   */
  function Markdown(title: string, doc: seq<Element>): string {
    MarkdownTitle(title) + ConcatMap(Paragraphs(doc), ParagraphLine) + ConcatMap(Links(doc), LinkLine)
    + ConcatMap(Headings(doc), HeadingLine)
  }

  /** The Markdown opens with the snapshot's own title as a level-one heading. */
  lemma MarkdownStartsWithTitle(title: string, doc: seq<Element>)
    ensures StartsWith(Markdown(title, doc), "# " + title + "\n\n")
  {
    var md := Markdown(title, doc);
    var rest := ConcatMap(Paragraphs(doc), ParagraphLine) + ConcatMap(Links(doc), LinkLine)
                + ConcatMap(Headings(doc), HeadingLine);
    assert md == MarkdownTitle(title) + rest;
    StartsWithConcat(MarkdownTitle(title), rest);
  }

  /**
    Output is grouped by kind, not by document order: splitting the document
    in two puts both halves' paragraphs before both halves' links, and those
    before both halves' headings.
   */
  lemma MarkdownGroupsByKind(title: string, a: seq<Element>, b: seq<Element>)
    ensures Markdown(title, a + b) ==
      MarkdownTitle(title)
      + (ConcatMap(Paragraphs(a), ParagraphLine) + ConcatMap(Paragraphs(b), ParagraphLine))
      + (ConcatMap(Links(a), LinkLine) + ConcatMap(Links(b), LinkLine))
      + (ConcatMap(Headings(a), HeadingLine) + ConcatMap(Headings(b), HeadingLine))
  {
    ParagraphsAppend(a, b);
    LinksAppend(a, b);
    HeadingsAppend(a, b);
    ConcatMapAppend(Paragraphs(a), Paragraphs(b), ParagraphLine);
    ConcatMapAppend(Links(a), Links(b), LinkLine);
    ConcatMapAppend(Headings(a), Headings(b), HeadingLine);
  }

  /** A heading that precedes a paragraph in the page still comes after it in the Markdown. */
  lemma HeadingFollowsLaterParagraph(title: string, level: HeadingLevel, heading: string, paragraph: string)
    ensures Markdown(title, [Heading(level, heading), Paragraph(paragraph)])
         == MarkdownTitle(title) + ParagraphLine(paragraph) + HeadingLine(Head(level, heading))
  {
    var doc := [Heading(level, heading), Paragraph(paragraph)];
    var tail := [Paragraph(paragraph)];
    assert doc[1..] == tail && tail[1..] == [];
    assert Paragraphs(tail) == [paragraph] + Paragraphs([]);
    assert Paragraphs(doc) == [] + Paragraphs(tail);
    assert Links(tail) == [] + Links([]);
    assert Links(doc) == [] + Links(tail);
    assert Headings(tail) == [] + Headings([]);
    assert Headings(doc) == [Head(level, heading)] + Headings(tail);
    assert [paragraph][..0] == [] && [Head(level, heading)][..0] == [];
    assert ConcatMap([paragraph], ParagraphLine) == ParagraphLine(paragraph);
    assert ConcatMap([Head(level, heading)], HeadingLine) == HeadingLine(Head(level, heading));
  }

  /** An anchor without an `href` or without text adds nothing to the Markdown. */
  lemma UnusableLinkAddsNothing(title: string, doc: seq<Element>, href: Option<string>, text: string)
    requires !Js.Truthy(href) || text == ""
    ensures Markdown(title, doc + [Anchor(href, text)]) == Markdown(title, doc)
  {
    var e := [Anchor(href, text)];
    ParagraphsAppend(doc, e);
    LinksAppend(doc, e);
    HeadingsAppend(doc, e);
    assert Paragraphs(e) == [] && Headings(e) == [] && Links(e) == [Link(href, text)];
    assert Paragraphs(doc) + [] == Paragraphs(doc) && Headings(doc) + [] == Headings(doc);
    ConcatMapAppend(Links(doc), [Link(href, text)], LinkLine);
    assert [Link(href, text)][..0] == [];
  }

  // ---------------------------------------------------------------------------
  // Snapshots and responses

  /** What Readability extracted, when it ran. */
  datatype Parsed = Parsed(title: Option<string>, content: Option<string>, textContent: Option<string>,
                           publishedTime: Option<string>)

  datatype PageSnapshot = PageSnapshot(
    title: string,
    href: string,
    html: string,
    text: string,
    parsed: Option<Parsed>,
    screenshot: Option<seq<bv8>>,
    pageshot: Option<seq<bv8>>,
    error: Option<string>)

  datatype ReaderResponse = ReaderResponse(
    title: string,
    url: string,
    content: Option<string>,
    html: Option<string>,
    text: Option<string>,
    screenshotUrl: Option<string>,
    pageshotUrl: Option<string>)

  const ScreenshotRoute := "/instant-screenshots/"

  /** The relative image path `formatSnapshot` reports for a fresh UUID. */
  function ScreenshotPath(uuid: string): (p: string)
    ensures |p| == |ScreenshotRoute| + |uuid| + 4
    ensures StartsWith(p, ScreenshotRoute) && EndsWith(p, ".png")
    ensures p[|ScreenshotRoute|..|p| - 4] == uuid
  {
    var p := ScreenshotRoute + uuid + ".png";
    assert p[..|ScreenshotRoute|] == ScreenshotRoute;
    assert p[|p| - 4..] == ".png";
    p
  }

  /** `snapshot.parsed?.title || snapshot.title`. */
  function ResponseTitle(s: PageSnapshot): (t: string)
    ensures s.parsed.Some? && Js.Truthy(s.parsed.value.title) ==> t == s.parsed.value.title.value
    ensures !(s.parsed.Some? && Js.Truthy(s.parsed.value.title)) ==> t == s.title
  {
    Js.OrElse(if s.parsed.Some? then s.parsed.value.title else None, s.title)
  }

  /** The DOM `new JSDOM(html, { url: href })` builds, as its query results see it. */
  type Parser = (string, string) -> seq<Element>

  /** What `formatSnapshot(snapshot, mode)` returns: title and url always, plus one field chosen by the mode. */
  function Formatted(s: PageSnapshot, mode: string, parse: Parser, uuid: string): (r: ReaderResponse)
    ensures r.title == ResponseTitle(s) && r.url == s.href
    ensures r.content.Some? <==> mode == "markdown"
    ensures r.html.Some? <==> mode == "html"
    ensures r.text.Some? <==> mode == "text"
    ensures r.screenshotUrl.Some? <==> mode == "screenshot"
    ensures r.pageshotUrl.Some? <==> mode == "pageshot"
    ensures mode == "markdown" ==> r.content == Some(Markdown(s.title, parse(s.html, s.href)))
    ensures mode == "html" ==> r.html == Some(s.html)
    ensures mode == "text" ==> r.text == Some(s.text)
    ensures mode == "screenshot" ==> r.screenshotUrl == Some(ScreenshotPath(uuid))
    ensures mode == "pageshot" ==> r.pageshotUrl == Some(ScreenshotPath(uuid))
  {
    var base := ReaderResponse(ResponseTitle(s), s.href, None, None, None, None, None);
    if mode == "html" then base.(html := Some(s.html))
    else if mode == "text" then base.(text := Some(s.text))
    else if mode == "markdown" then base.(content := Some(Markdown(s.title, parse(s.html, s.href))))
    else if mode == "screenshot" then base.(screenshotUrl := Some(ScreenshotPath(uuid)))
    else if mode == "pageshot" then base.(pageshotUrl := Some(ScreenshotPath(uuid)))
    else base
  }

  /** The `markdown` branch of `formatSnapshot`: `+=` over the three query results in turn. */
  method BuildMarkdown(title: string, doc: seq<Element>) returns (markdown: string)
    ensures markdown == Markdown(title, doc)
  {
    markdown := MarkdownTitle(title);
    var paragraphs := Paragraphs(doc);
    for i := 0 to |paragraphs|
      invariant markdown == MarkdownTitle(title) + ConcatMap(paragraphs[..i], ParagraphLine)
    {
      ConcatMapSnoc(MarkdownTitle(title), paragraphs, i, ParagraphLine);
      markdown := markdown + ParagraphLine(paragraphs[i]);
    }
    assert paragraphs[..|paragraphs|] == paragraphs;
    ghost var afterParagraphs := markdown;
    var links := Links(doc);
    for i := 0 to |links|
      invariant markdown == afterParagraphs + ConcatMap(links[..i], LinkLine)
    {
      ConcatMapSnoc(afterParagraphs, links, i, LinkLine);
      markdown := markdown + LinkLine(links[i]);
    }
    assert links[..|links|] == links;
    ghost var afterLinks := markdown;
    var headings := Headings(doc);
    for i := 0 to |headings|
      invariant markdown == afterLinks + ConcatMap(headings[..i], HeadingLine)
    {
      ConcatMapSnoc(afterLinks, headings, i, HeadingLine);
      markdown := markdown + HeadingLine(headings[i]);
    }
    assert headings[..|headings|] == headings;
  }

  /** `formatSnapshot(snapshot, mode)`: title and url, then the field the mode asks for. */
  method FormatSnapshot(snapshot: PageSnapshot, mode: string, parse: Parser, uuid: string)
    returns (response: ReaderResponse)
    ensures response == Formatted(snapshot, mode, parse, uuid)
  {
    response := ReaderResponse(ResponseTitle(snapshot), snapshot.href, None, None, None, None, None);
    if mode == "html" {
      response := response.(html := Some(snapshot.html));
    } else if mode == "text" {
      response := response.(text := Some(snapshot.text));
    } else if mode == "markdown" {
      var markdown := BuildMarkdown(snapshot.title, parse(snapshot.html, snapshot.href));
      response := response.(content := Some(markdown));
    } else if mode == "screenshot" {
      response := response.(screenshotUrl := Some(ScreenshotPath(uuid)));
    } else if mode == "pageshot" {
      response := response.(pageshotUrl := Some(ScreenshotPath(uuid)));
    }
  }

  // ---------------------------------------------------------------------------
  // Scraping

  /** A value thrown by a browser call: its `message` may be missing or empty. */
  datatype JsError = JsError(message: Option<string>)

  /** A single `waitForSelector` option or a list of them. */
  datatype Selectors = NoSelector | One(selector: string) | Many(selectors: seq<string>)

  datatype ScrappingOptions = ScrappingOptions(
    favorScreenshot: bool,
    waitForSelector: Selectors,
    timeoutMs: Option<int>,          // None stands for `undefined` and for NaN
    overrideUserAgent: Option<string>)

  const DefaultTimeoutMs := 30000
  const SelectorTimeoutMs := 5000

  /** `options.timeoutMs || 30000`. */
  function TimeoutFor(o: ScrappingOptions): (t: int)
    ensures o.timeoutMs.Some? && o.timeoutMs.value != 0 ==> t == o.timeoutMs.value
    ensures o.timeoutMs.None? || o.timeoutMs.value == 0 ==> t == DefaultTimeoutMs
    ensures t != 0
  {
    if o.timeoutMs.Some? && o.timeoutMs.value != 0 then o.timeoutMs.value else DefaultTimeoutMs
  }

  /** The selectors awaited: none for a falsy option, a single string as a one-element list, a list as given. */
  function SelectorList(s: Selectors): (l: seq<string>)
    ensures s.NoSelector? ==> l == []
    ensures s.One? ==> (s.selector == "" ==> l == []) && (s.selector != "" ==> l == [s.selector])
    ensures s.Many? ==> l == s.selectors
  {
    match s
    case NoSelector => []
    case One(sel) => if sel == "" then [] else [sel]
    case Many(sels) => sels
  }

  /** A call made on the page, with the arguments that matter. */
  datatype PageAction =
    | SetUserAgent(userAgent: string)
    | Goto(url: string, timeoutMs: int)        // waitUntil load and domcontentloaded
    | WaitForSelector(selector: string, timeoutMs: int)
    | Evaluate
    | Screenshot(fullPage: bool)

  /** What `page.evaluate` collects from the document. */
  datatype PageContent = PageContent(title: string, href: string, html: string, text: string, parsed: Option<Parsed>)

  /** The page's behaviour: which calls throw (and what), what evaluation returns, and the two images. */
  datatype PageRun = PageRun(fails: PageAction -> Option<JsError>, content: PageContent,
                             screenshot: seq<bv8>, pageshot: seq<bv8>)

  function WaitSteps(selectors: seq<string>): (steps: seq<PageAction>)
    ensures |steps| == |selectors|
    ensures forall i :: 0 <= i < |steps| ==> steps[i] == WaitForSelector(selectors[i], SelectorTimeoutMs)
  {
    seq(|selectors|, i requires 0 <= i < |selectors| => WaitForSelector(selectors[i], SelectorTimeoutMs))
  }

  function UserAgentSteps(o: ScrappingOptions): seq<PageAction> {
    if Js.Truthy(o.overrideUserAgent) then [SetUserAgent(o.overrideUserAgent.value)] else []
  }

  function ScreenshotSteps(o: ScrappingOptions): seq<PageAction> {
    if o.favorScreenshot then [Screenshot(false), Screenshot(true)] else []
  }

  /** The calls `scrap` makes on the page when none of them throws, in order. */
  function Plan(url: string, o: ScrappingOptions): seq<PageAction> {
    UserAgentSteps(o) + ([Goto(url, TimeoutFor(o))] + AfterNavigation(o))
  }

  /** The calls after a successful navigation: the selector waits, the evaluation, the screenshots. */
  function AfterNavigation(o: ScrappingOptions): seq<PageAction> {
    WaitSteps(SelectorList(o.waitForSelector)) + ([Evaluate] + ScreenshotSteps(o))
  }

  /** The user agent is set first, when one is given; then the navigation with the effective timeout. */
  lemma PlanStartsWithNavigation(url: string, o: ScrappingOptions)
    ensures var p, nav := Plan(url, o), Goto(url, TimeoutFor(o));
      && (Js.Truthy(o.overrideUserAgent) ==> |p| >= 2 && p[0] == SetUserAgent(o.overrideUserAgent.value) && p[1] == nav)
      && (!Js.Truthy(o.overrideUserAgent) ==> |p| >= 1 && p[0] == nav)
  {
  }

  /** Every selector is awaited, in order, for 5 s, between the navigation and the evaluation. */
  lemma PlanAwaitsSelectors(url: string, o: ScrappingOptions)
    ensures var p, u, w := Plan(url, o), |UserAgentSteps(o)|, SelectorList(o.waitForSelector);
      && |p| == u + |w| + 2 + |ScreenshotSteps(o)|
      && (forall i :: 0 <= i < |w| ==> p[u + 1 + i] == WaitForSelector(w[i], SelectorTimeoutMs))
      && p[u + 1 + |w|] == Evaluate
  {
    var p, u, w := Plan(url, o), |UserAgentSteps(o)|, SelectorList(o.waitForSelector);
    var ws := WaitSteps(w);
    var tail := [Goto(url, TimeoutFor(o))] + AfterNavigation(o);
    assert p == UserAgentSteps(o) + tail;
    assert forall i :: 0 <= i < |w| ==> tail[1 + i] == ws[i];
  }

  /** A call that ends the scrape when it throws: everything but a selector wait, whose failure is ignored. */
  predicate Fatal(a: PageAction, run: PageRun) {
    !a.WaitForSelector? && run.fails(a).Some?
  }

  /** The calls actually made: the plan up to and including the first fatal one. */
  function Executed(plan: seq<PageAction>, run: PageRun): seq<PageAction> {
    if plan == [] then []
    else if Fatal(plan[0], run) then [plan[0]]
    else [plan[0]] + Executed(plan[1..], run)
  }

  /** What the first fatal call threw, if any call was fatal. */
  function FailureOf(plan: seq<PageAction>, run: PageRun): Option<JsError> {
    if plan == [] then None
    else if Fatal(plan[0], run) then run.fails(plan[0])
    else FailureOf(plan[1..], run)
  }

  /**
    The run is a prefix of the plan; it fails exactly when some planned call
    is fatal, and then it ends with the first such call, which threw the
    reported error.
   */
  lemma {:induction false} ExecutedIsPrefix(plan: seq<PageAction>, run: PageRun)
    ensures var done := Executed(plan, run);
      && |done| <= |plan| && done == plan[..|done|]
      && (FailureOf(plan, run).Some? <==> exists i :: 0 <= i < |plan| && Fatal(plan[i], run))
      && (FailureOf(plan, run).Some? ==>
            (|done| > 0 && Fatal(done[|done| - 1], run) && FailureOf(plan, run) == run.fails(done[|done| - 1])
             && forall i :: 0 <= i < |done| - 1 ==> !Fatal(done[i], run)))
      && (FailureOf(plan, run).None? ==> done == plan)
  {
    if plan != [] && !Fatal(plan[0], run) {
      ExecutedIsPrefix(plan[1..], run);
      assert forall i :: 1 <= i < |plan| ==> plan[i] == plan[1..][i - 1];
      var rest := Executed(plan[1..], run);
      assert Executed(plan, run) == [plan[0]] + rest;
      assert plan == [plan[0]] + plan[1..];
    }
  }

  /** One call: a fatal one ends the run, any other is followed by the rest. */
  lemma Step(x: PageAction, rest: seq<PageAction>, run: PageRun)
    ensures Fatal(x, run) ==> Executed([x] + rest, run) == [x] && FailureOf([x] + rest, run) == run.fails(x)
    ensures !Fatal(x, run) ==>
      Executed([x] + rest, run) == [x] + Executed(rest, run) && FailureOf([x] + rest, run) == FailureOf(rest, run)
  {
    assert ([x] + rest)[0] == x && ([x] + rest)[1..] == rest;
  }

  /** Selector waits never end the run. */
  lemma {:induction false} Waits(ws: seq<PageAction>, rest: seq<PageAction>, run: PageRun)
    requires forall i :: 0 <= i < |ws| ==> ws[i].WaitForSelector?
    ensures Executed(ws + rest, run) == ws + Executed(rest, run)
    ensures FailureOf(ws + rest, run) == FailureOf(rest, run)
  {
    if ws != [] {
      Waits(ws[1..], rest, run);
      assert ws + rest == [ws[0]] + (ws[1..] + rest);
      Step(ws[0], ws[1..] + rest, run);
      assert ws == [ws[0]] + ws[1..];
      Assoc([ws[0]], ws[1..], Executed(rest, run));
    } else {
      assert ws + rest == rest;
    }
  }

  /** A plan without a fatal call runs to the end. */
  lemma {:induction false} RunsToEnd(plan: seq<PageAction>, run: PageRun)
    requires forall i :: 0 <= i < |plan| ==> !Fatal(plan[i], run)
    ensures Executed(plan, run) == plan && FailureOf(plan, run).None?
  {
    if plan != [] {
      RunsToEnd(plan[1..], run);
      assert plan == [plan[0]] + plan[1..];
    }
  }

  /** The snapshot of a failed scrape. */
  function ErrorSnapshot(url: string, e: JsError): (s: PageSnapshot)
    ensures s.title == "Error" && s.href == url && s.html == ""
    ensures Js.Truthy(e.message) ==> s.text == e.message.value
    ensures !Js.Truthy(e.message) ==> s.text == "Unknown error"
    ensures s.error == e.message && s.parsed.None? && s.screenshot.None? && s.pageshot.None?
  {
    PageSnapshot("Error", url, "", Js.OrElse(e.message, "Unknown error"), None, None, None, e.message)
  }

  /** The snapshot for a run that failed with `failure`, or else captured the page's content. */
  function Outcome(url: string, o: ScrappingOptions, run: PageRun, failure: Option<JsError>): (s: PageSnapshot)
    ensures failure.Some? ==> s == ErrorSnapshot(url, failure.value)
    ensures failure.None? ==>
      && s.title == run.content.title && s.href == run.content.href && s.html == run.content.html
      && s.text == run.content.text && s.parsed == run.content.parsed && s.error.None?
      && (o.favorScreenshot ==> s.screenshot == Some(run.screenshot) && s.pageshot == Some(run.pageshot))
      && (!o.favorScreenshot ==> s.screenshot.None? && s.pageshot.None?)
  {
    match failure
    case Some(e) => ErrorSnapshot(url, e)
    case None =>
      var c := run.content;
      PageSnapshot(c.title, c.href, c.html, c.text, c.parsed,
                   if o.favorScreenshot then Some(run.screenshot) else None,
                   if o.favorScreenshot then Some(run.pageshot) else None, None)
  }

  /** The outcome of running the plan on a page: the error snapshot at the first fatal call, else the page's content. */
  function ScrapOutcome(url: string, o: ScrappingOptions, run: PageRun): PageSnapshot {
    Outcome(url, o, run, FailureOf(Plan(url, o), run))
  }

  /** Screenshots are taken only when `favorScreenshot` is set. */
  lemma ScreenshotsOnlyWhenFavoured(url: string, o: ScrappingOptions, run: PageRun, full: bool)
    requires !o.favorScreenshot
    ensures Screenshot(full) !in Executed(Plan(url, o), run)
  {
    var p := Plan(url, o);
    var w := WaitSteps(SelectorList(o.waitForSelector));
    assert Screenshot(full) !in w;
    assert p == UserAgentSteps(o) + [Goto(url, TimeoutFor(o))] + w + [Evaluate];
    assert Screenshot(full) !in p;
    var done := Executed(p, run);
    ExecutedIsPrefix(p, run);
    assert forall x :: x in done ==> x in p;
  }

  /** Failing selector waits never spoil the scrape. */
  lemma WaitFailuresIgnored(url: string, o: ScrappingOptions, run: PageRun)
    requires forall a: PageAction :: !a.WaitForSelector? ==> run.fails(a).None?
    ensures Executed(Plan(url, o), run) == Plan(url, o)
    ensures ScrapOutcome(url, o, run).error.None? && ScrapOutcome(url, o, run).title == run.content.title
  {
    RunsToEnd(Plan(url, o), run);
  }

  // ---------------------------------------------------------------------------
  // The service and its browser lifecycle

  const DefaultChromePath := "/usr/bin/google-chrome-stable"
  const ChromeArgs := ["--no-sandbox", "--disable-setuid-sandbox", "--disable-dev-shm-usage", "--single-process",
                       "--disable-gpu"]
  const LaunchTimeoutMs := 10000
  const ViewportWidth := 1920
  const ViewportHeight := 1080

  /** The whole of `init`'s browser work: launch, context, new page, CSP bypass, viewport. */
  datatype LaunchRequest = LaunchRequest(executablePath: string, args: seq<string>, timeoutMs: int,
                                         bypassCSP: bool, viewportWidth: int, viewportHeight: int)

  /**
    How far `init` got: the launch threw; the browser came up but the page
    could not be created; the page exists but its set-up threw; or all went well.
   */
  datatype LaunchOutcome =
    | LaunchFailed(error: JsError)
    | PageFailed(browserId: nat, error: JsError)
    | SetupFailed(browserId: nat, pageId: nat, error: JsError)
    | Launched(browserId: nat, pageId: nat)

  type Launcher = LaunchRequest -> LaunchOutcome

  function LaunchRequestFor(chromePath: string): (r: LaunchRequest)
    ensures r.executablePath == chromePath && r.args == ChromeArgs && r.timeoutMs == LaunchTimeoutMs
    ensures r.bypassCSP && r.viewportWidth == ViewportWidth && r.viewportHeight == ViewportHeight
  {
    LaunchRequest(chromePath, ChromeArgs, LaunchTimeoutMs, true, ViewportWidth, ViewportHeight)
  }

  /** `scrap`'s answer: a snapshot, or the rejection of the `init` it had to run. */
  datatype ScrapResult = Snapshot(snapshot: PageSnapshot) | Rejected(error: JsError)

  /** The message a call on an undefined page throws: the first call `scrap` would make. */
  function UndefinedPageMessage(o: ScrappingOptions): string {
    "Cannot read properties of undefined (reading '"
    + (if Js.Truthy(o.overrideUserAgent) then "setUserAgent" else "goto") + "')"
  }

  /**
    The `try` block of `scrap` on a defined page: set the user agent when one
    is given and navigate; the remaining calls follow in `FinishPage`. The
    first throwing call (other than a selector wait) gives the error snapshot.
   */
  method RunPage(url: string, options: ScrappingOptions, run: PageRun)
    returns (snapshot: PageSnapshot, actions: seq<PageAction>)
    ensures actions == Executed(Plan(url, options), run)
    ensures snapshot == ScrapOutcome(url, options, run)
  {
    ghost var plan := Plan(url, options);
    var nav := Goto(url, TimeoutFor(options));
    ghost var rest := AfterNavigation(options);
    assert plan == UserAgentSteps(options) + ([nav] + rest);
    actions := [];
    if Js.Truthy(options.overrideUserAgent) {
      var step := SetUserAgent(options.overrideUserAgent.value);
      assert plan == [step] + ([nav] + rest);
      Step(step, [nav] + rest, run);
      actions := [step];
      if run.fails(step).Some? {
        return ErrorSnapshot(url, run.fails(step).value), actions;
      }
    } else {
      assert plan == [nav] + rest;
    }
    Step(nav, rest, run);
    actions := actions + [nav];
    if run.fails(nav).Some? {
      return ErrorSnapshot(url, run.fails(nav).value), actions;
    }
    var more;
    snapshot, more := FinishPage(url, options, run);
    Assoc(actions[..|actions| - 1], [nav], more);
    actions := actions + more;
  }

  /** The rest of the `try` block: each selector awaited for 5 s (failures ignored), evaluation, screenshots. */
  method FinishPage(url: string, options: ScrappingOptions, run: PageRun)
    returns (snapshot: PageSnapshot, actions: seq<PageAction>)
    ensures actions == Executed(AfterNavigation(options), run)
    ensures snapshot == Outcome(url, options, run, FailureOf(AfterNavigation(options), run))
  {
    var selectors := SelectorList(options.waitForSelector);
    ghost var waits := WaitSteps(selectors);
    ghost var evalTail := [Evaluate] + ScreenshotSteps(options);
    actions := [];
    for i := 0 to |selectors|
      invariant actions == waits[..i]
    {
      // a failed wait is caught and ignored
      actions := actions + [WaitForSelector(selectors[i], SelectorTimeoutMs)];
      assert waits[..i + 1] == waits[..i] + [waits[i]];
    }
    assert actions == waits;
    Waits(waits, evalTail, run);
    Step(Evaluate, ScreenshotSteps(options), run);
    Assoc(actions, [Evaluate], Executed(ScreenshotSteps(options), run));
    actions := actions + [Evaluate];
    if run.fails(Evaluate).Some? {
      return ErrorSnapshot(url, run.fails(Evaluate).value), actions;
    }
    var screenshot, pageshot := None, None;
    if options.favorScreenshot {
      Step(Screenshot(false), [Screenshot(true)], run);
      Step(Screenshot(true), [], run);
      assert [Screenshot(true)] + [] == [Screenshot(true)];
      actions := actions + [Screenshot(false)];
      if run.fails(Screenshot(false)).Some? {
        return ErrorSnapshot(url, run.fails(Screenshot(false)).value), actions;
      }
      screenshot := Some(run.screenshot);
      actions := actions + [Screenshot(true)];
      if run.fails(Screenshot(true)).Some? {
        return ErrorSnapshot(url, run.fails(Screenshot(true)).value), actions;
      }
      pageshot := Some(run.pageshot);
    }
    var c := run.content;
    snapshot := PageSnapshot(c.title, c.href, c.html, c.text, c.parsed, screenshot, pageshot, None);
  }

  lemma Assoc<T>(a: seq<T>, b: seq<T>, c: seq<T>)
    ensures a + (b + c) == (a + b) + c
  {
  }

  class PuppeteerService {
    var browser: Option<nat>
    var page: Option<nat>
    const chromePath: string

    /** A page only ever exists inside a browser. */
    ghost predicate Valid()
      reads this
    {
      page.Some? ==> browser.Some?
    }

    /** `PUPPETEER_EXECUTABLE_PATH`, unless missing or empty, else the stock Chrome path. */
    constructor(executablePathEnv: Option<string>)
      ensures Valid() && browser.None? && page.None?
      ensures Js.Truthy(executablePathEnv) ==> chromePath == executablePathEnv.value
      ensures !Js.Truthy(executablePathEnv) ==> chromePath == DefaultChromePath
    {
      browser := None;
      page := None;
      chromePath := Js.OrElse(executablePathEnv, DefaultChromePath);
    }

    /** `init`: nothing when a browser exists; otherwise launch and keep whatever was created before a throw. */
    method Init(launch: Launcher) returns (thrown: Option<JsError>)
      requires Valid()
      modifies this
      ensures Valid()
      ensures old(browser).Some? ==> browser == old(browser) && page == old(page) && thrown.None?
      ensures old(browser).None? ==>
        match launch(LaunchRequestFor(chromePath))
        case LaunchFailed(e) => browser.None? && page.None? && thrown == Some(e)
        case PageFailed(b, e) => browser == Some(b) && page.None? && thrown == Some(e)
        case SetupFailed(b, p, e) => browser == Some(b) && page == Some(p) && thrown == Some(e)
        case Launched(b, p) => browser == Some(b) && page == Some(p) && thrown.None?
    {
      if browser.Some? {
        return None;
      }
      match launch(LaunchRequestFor(chromePath))
      case LaunchFailed(e) =>
        thrown := Some(e);
      case PageFailed(b, e) =>
        browser := Some(b);
        thrown := Some(e);
      case SetupFailed(b, p, e) =>
        browser := Some(b);
        page := Some(p);
        thrown := Some(e);
      case Launched(b, p) =>
        browser := Some(b);
        page := Some(p);
        thrown := None;
    }

    /**
      `scrap(url, options)`: runs `init` when there is no page (its rejection
      escapes), then makes the page calls in order; the first throwing call
      other than a selector wait ends the scrape with the error snapshot.
     */
    method Scrap(url: string, options: ScrappingOptions, launch: Launcher, run: PageRun)
      returns (result: ScrapResult, actions: seq<PageAction>)
      requires Valid()
      modifies this
      ensures Valid()
      ensures old(page).Some? || old(browser).Some? ==> browser == old(browser) && page == old(page)
      ensures old(browser).None? ==>
        match launch(LaunchRequestFor(chromePath))
        case LaunchFailed(_) => browser.None? && page.None?
        case PageFailed(b, _) => browser == Some(b) && page.None?
        case SetupFailed(b, p, _) => browser == Some(b) && page == Some(p)
        case Launched(b, p) => browser == Some(b) && page == Some(p)
      ensures result.Rejected? <==> old(browser).None? && !launch(LaunchRequestFor(chromePath)).Launched?
      ensures result.Rejected? ==> actions == [] && result.error == launch(LaunchRequestFor(chromePath)).error
      ensures result.Snapshot? && page.None? ==>
        actions == [] && result.snapshot == ErrorSnapshot(url, JsError(Some(UndefinedPageMessage(options))))
      ensures result.Snapshot? && page.Some? ==>
        actions == Executed(Plan(url, options), run) && result.snapshot == ScrapOutcome(url, options, run)
    {
      actions := [];
      if page.None? {
        var thrown := Init(launch);
        if thrown.Some? {
          return Rejected(thrown.value), [];
        }
      }
      if page.None? {
        return Snapshot(ErrorSnapshot(url, JsError(Some(UndefinedPageMessage(options))))), [];
      }
      var snapshot;
      snapshot, actions := RunPage(url, options, run);
      result := Snapshot(snapshot);
    }

    /** `close`: only with a browser; the fields are cleared once the browser has closed without throwing. */
    method Close(closeFails: Option<JsError>) returns (thrown: Option<JsError>)
      requires Valid()
      modifies this
      ensures Valid()
      ensures old(browser).None? ==> browser.None? && page == old(page) && thrown.None?
      ensures old(browser).Some? && closeFails.None? ==> browser.None? && page.None? && thrown.None?
      ensures old(browser).Some? && closeFails.Some? ==>
        browser == old(browser) && page == old(page) && thrown == closeFails
    {
      thrown := None;
      if browser.Some? {
        if closeFails.Some? {
          return closeFails;
        }
        browser := None;
        page := None;
      }
    }
  }
}
