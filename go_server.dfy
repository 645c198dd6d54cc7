/**
  The Go MCP server: the reader client (`ReaderServer`), its upstream fetch,
  the tool handlers that turn a fetch outcome into an MCP `CallToolResult`,
  and the registration of the five tools at start-up.

  The HTTP exchange is a parameter: `Upstream` says what the reader service
  answers to a given outbound request, so every handler is a function of
  its inputs and of that answer.
 */
module GoReaderServer {
  import opened Common
  import Decimal

  const DefaultReaderEndpoint := "http://reader-container:3000"
  const DefaultPort := "8080"
  /** The only status accepted as success: 200 OK (section 15.3.1 of RFC 9110). */
  const StatusOK := 200
  const ClientTimeoutSeconds := 60

  /** `ReaderServer`: the base URL of the reader service and the client's timeout. */
  datatype ReaderServer = ReaderServer(baseURL: string, timeoutSeconds: nat)

  /** `NewReaderServer`: an empty base URL falls back to the default endpoint. */
  function NewReaderServer(baseURL: string): (s: ReaderServer)
    ensures s.baseURL != ""
    ensures baseURL != "" ==> s.baseURL == baseURL
    ensures baseURL == "" ==> s.baseURL == DefaultReaderEndpoint
    ensures s.timeoutSeconds == ClientTimeoutSeconds
  {
    ReaderServer(if baseURL == "" then DefaultReaderEndpoint else baseURL, ClientTimeoutSeconds)
  }

  /** The listen address `main` builds from the PORT setting. */
  function ListenAddress(port: string): (addr: string)
    ensures StartsWith(addr, ":")
    ensures port != "" ==> addr[1..] == port
    ensures port == "" ==> addr == ":8080"
  {
    ":" + (if port == "" then DefaultPort else port)
  }

  // ---------------------------------------------------------------------------
  // The upstream exchange

  /** The one GET request `fetchURL` sends: its URL and its `X-Respond-With` header. */
  datatype OutboundRequest = OutboundRequest(httpMethod: string, url: string, respondWith: string)

  /** What happens to an outbound request. */
  datatype Exchange =
    | Unbuildable(reason: string)        // http.NewRequestWithContext rejects the URL
    | TransportFailed(reason: string)    // client.Do fails: DNS, refused connection, timeout, cancellation
    | Responded(status: int, body: string, readError: Option<string>)
                                         // a response; `body` is what io.ReadAll returned, `readError` its error

  type Upstream = OutboundRequest -> Exchange

  /** Go's `(string, error)` pair: exactly one of a value or an error message. */
  datatype Fetched = Body(body: string) | Failure(message: string)

  /** The request `fetchURL` builds: `baseURL + "/" + url`, with no encoding of `url`. */
  function BuildRequest(s: ReaderServer, url: string, responseType: string): (r: OutboundRequest)
    ensures r.httpMethod == "GET" && r.respondWith == responseType
    ensures StartsWith(r.url, s.baseURL + "/") && r.url[|s.baseURL| + 1..] == url
  {
    var r := OutboundRequest("GET", s.baseURL + "/" + url, responseType);
    assert r.url[..|s.baseURL| + 1] == s.baseURL + "/";
    r
  }

  const StatusFailurePrefix := "request failed with status "

  /** The message of a non-200 reply: the status code, then the body the reader sent. */
  function StatusFailureMessage(status: int, body: string): (m: string)
    ensures StartsWith(m, StatusFailurePrefix + Decimal.IntToString(status) + ": ")
    ensures EndsWith(m, body)
  {
    var m := StatusFailurePrefix + Decimal.IntToString(status) + ": " + body;
    StartsWithConcat(StatusFailurePrefix + Decimal.IntToString(status) + ": ", body);
    EndsWithConcat(StatusFailurePrefix + Decimal.IntToString(status) + ": ", body);
    m
  }

  /** Reads the status code back out of a non-200 failure message. */
  function StatusOfMessage(m: string): Option<int> {
    if StartsWith(m, StatusFailurePrefix) then LeadingInt(m[|StatusFailurePrefix|..]) else None
  }

  /** The optionally signed decimal integer at the start of `s`, if any. */
  function LeadingInt(s: string): Option<int> {
    var negative := s != [] && s[0] == '-';
    var digits := LeadingDigits(if negative then s[1..] else s);
    if digits == [] then None
    else Some(if negative then -(Decimal.DigitsValue(digits) as int) else Decimal.DigitsValue(digits))
  }

  function LeadingDigits(s: string): (d: string)
    ensures Decimal.AllDigits(d) && StartsWith(s, d)
  {
    if s == [] || !Decimal.IsDigit(s[0]) then [] else [s[0]] + LeadingDigits(s[1..])
  }

  lemma {:induction false} LeadingDigitsOfDigits(d: string, rest: string)
    requires Decimal.AllDigits(d) && rest != [] && !Decimal.IsDigit(rest[0])
    ensures LeadingDigits(d + rest) == d
    decreases |d|
  {
    if d == [] {
      assert d + rest == rest;
    } else {
      assert (d + rest)[1..] == d[1..] + rest;
      LeadingDigitsOfDigits(d[1..], rest);
    }
  }

  /** The status code in a non-200 failure message can be read back exactly, whatever the body. */
  lemma StatusRecoverable(status: int, body: string)
    ensures StatusOfMessage(StatusFailureMessage(status, body)) == Some(status)
  {
    var tail := ": " + body;
    var rest := Decimal.IntToString(status) + tail;
    assert StatusFailureMessage(status, body) == StatusFailurePrefix + rest;
    assert tail[0] == ':';
    StartsWithConcat(StatusFailurePrefix, rest);
    assert (StatusFailurePrefix + rest)[|StatusFailurePrefix|..] == rest;
    LeadingIntOfIntToString(status, tail);
  }

  lemma LeadingIntOfIntToString(n: int, tail: string)
    requires tail != [] && !Decimal.IsDigit(tail[0])
    ensures LeadingInt(Decimal.IntToString(n) + tail) == Some(n)
  {
    var digits := Decimal.NatToString(if n < 0 then -n else n);
    var s := Decimal.IntToString(n) + tail;
    if n < 0 {
      assert s == "-" + digits + tail;
      assert s[1..] == digits + tail;
    } else {
      assert s == digits + tail;
    }
    LeadingDigitsOfDigits(digits, tail);
    Decimal.NatToStringRoundTrip(if n < 0 then -n else n);
  }

  /**
    `fetchURL`: one GET of `baseURL + "/" + url` with `X-Respond-With` set to
    the response type; success only on status 200, where the whole body is
    the result.
   */
  function FetchURL(s: ReaderServer, url: string, responseType: string, upstream: Upstream): (r: Fetched)
    ensures var ex := upstream(BuildRequest(s, url, responseType));
      && (ex.Unbuildable? ==> r == Failure("failed to create request: " + ex.reason))
      && (ex.TransportFailed? ==> r == Failure("failed to fetch URL: " + ex.reason))
      && (ex.Responded? && ex.status != StatusOK ==> r == Failure(StatusFailureMessage(ex.status, ex.body))
                                                     && StatusOfMessage(r.message) == Some(ex.status)
                                                     && EndsWith(r.message, ex.body))
      && (ex.Responded? && ex.status == StatusOK && ex.readError.Some? ==>
            r == Failure("failed to read response body: " + ex.readError.value))
      && (r.Body? <==> ex.Responded? && ex.status == StatusOK && ex.readError.None?)
      && (r.Body? ==> r.body == ex.body)
  {
    var ex := upstream(BuildRequest(s, url, responseType));
    match ex
    case Unbuildable(reason) => Failure("failed to create request: " + reason)
    case TransportFailed(reason) => Failure("failed to fetch URL: " + reason)
    case Responded(status, body, readError) =>
      if status != StatusOK then
        StatusRecoverable(status, body);
        Failure(StatusFailureMessage(status, body))
      else if readError.Some? then Failure("failed to read response body: " + readError.value)
      else Body(body)
  }

  // ---------------------------------------------------------------------------
  // MCP results

  datatype Content = TextContent(text: string)

  /** `mcp.CallToolResult` as the handlers fill it. */
  datatype CallToolResult = CallToolResult(content: seq<Content>, isError: bool)

  /** The text of an error result: `fmt.Sprintf("Error: %v", err)`. */
  function FetchErrorResult(message: string): (r: CallToolResult)
    ensures r.isError && r.content == [TextContent("Error: " + message)]
  {
    CallToolResult([TextContent("Error: " + message)], true)
  }

  /** A handler's return: the result, the Go `error` it returns, and the upstream request it sent, if any. */
  datatype Handled = Handled(result: CallToolResult, goError: Option<string>, sent: Option<OutboundRequest>)

  /**
    What `json.Unmarshal` makes of a call's arguments: the `url` field
    (empty when the arguments leave it out) or the decoding error.
   */
  datatype Decoded = Url(url: string) | Undecodable(message: string)

  /**
    The request `fetchURL` hands to `client.Do`: none when
    `http.NewRequestWithContext` rejects it, since `fetchURL` then returns first.
   */
  function Sent(s: ReaderServer, url: string, responseType: string, upstream: Upstream): Option<OutboundRequest> {
    var request := BuildRequest(s, url, responseType);
    if upstream(request).Unbuildable? then None else Some(request)
  }

  /** The handler `manualFetch(responseType)` returns, given the decoded arguments. */
  function ManualFetch(s: ReaderServer, responseType: string, decoded: Decoded, upstream: Upstream): (h: Handled)
    ensures h.goError == None
    ensures |h.result.content| == 1
    ensures decoded.Undecodable? ==> h.sent == None && h.result.isError
                                     && h.result.content[0].text == "Invalid arguments: " + decoded.message
    ensures decoded.Url? ==>
      var request := BuildRequest(s, decoded.url, responseType);
      && (upstream(request).Unbuildable? ==> h.sent == None)
      && (!upstream(request).Unbuildable? ==> h.sent == Some(request))
    ensures decoded.Url? ==>
      var f := FetchURL(s, decoded.url, responseType, upstream);
      && (f.Failure? ==> h.result == FetchErrorResult(f.message))
      && (f.Body? ==> !h.result.isError && h.result.content[0].text == f.body)
  {
    match decoded
    case Undecodable(message) =>
      Handled(CallToolResult([TextContent("Invalid arguments: " + message)], true), None, None)
    case Url(url) =>
      var sent := Sent(s, url, responseType, upstream);
      match FetchURL(s, url, responseType, upstream)
      case Failure(message) => Handled(FetchErrorResult(message), None, sent)
      case Body(body) => Handled(CallToolResult([TextContent(body)], false), None, sent)
  }

  /** A 200 reply reaches the agent verbatim as the single text block. */
  lemma ManualFetchRelaysBody(s: ReaderServer, responseType: string, url: string, upstream: Upstream, body: string)
    requires upstream(BuildRequest(s, url, responseType)) == Responded(StatusOK, body, None)
    ensures ManualFetch(s, responseType, Url(url), upstream).result == CallToolResult([TextContent(body)], false)
  {
  }

  /**
    Any other status is reported in-band, as an error result whose single text
    names the status and ends with the reader's body, never as a Go error.
   */
  lemma ManualFetchReportsStatus(s: ReaderServer, responseType: string, url: string, upstream: Upstream,
                                 status: int, body: string, readError: Option<string>)
    requires status != StatusOK
    requires upstream(BuildRequest(s, url, responseType)) == Responded(status, body, readError)
    ensures var h := ManualFetch(s, responseType, Url(url), upstream);
      && h.goError == None && h.result.isError && |h.result.content| == 1
      && StartsWith(h.result.content[0].text, "Error: " + (StatusFailurePrefix + Decimal.IntToString(status)))
      && EndsWith(h.result.content[0].text, body)
  {
    assert FetchURL(s, url, responseType, upstream) == Failure(StatusFailureMessage(status, body));
    StatusErrorText(status, body);
  }

  lemma StatusErrorText(status: int, body: string)
    ensures StartsWith("Error: " + StatusFailureMessage(status, body), "Error: " + (StatusFailurePrefix + Decimal.IntToString(status)))
    ensures EndsWith("Error: " + StatusFailureMessage(status, body), body)
  {
    var m := StatusFailureMessage(status, body);
    var code := StatusFailurePrefix + Decimal.IntToString(status);
    StartsWithShorter(m, code, ": ");
    StartsWithPrepend("Error: ", m, code);
    EndsWithPrepend("Error: ", m, body);
  }

  // ---------------------------------------------------------------------------
  // The typed handlers FetchMarkdown ... FetchPageshot

  /** `FetchOutput`: the structured output of a typed handler. */
  datatype FetchOutput = FetchOutput(result: string)

  /** A typed handler's `(any, *FetchOutput, error)` triple, and the request it sent, if any. */
  datatype TypedHandled = TypedHandled(result: Option<CallToolResult>, output: Option<FetchOutput>,
                                       goError: Option<string>, sent: Option<OutboundRequest>)

  /**
    The shared body of the typed handlers: an error result and no output on a
    failed fetch; no result and the body as output on success; never a Go error.
   */
  function FetchTyped(s: ReaderServer, responseType: string, url: string, upstream: Upstream): (t: TypedHandled)
    ensures t.goError == None
    ensures var request := BuildRequest(s, url, responseType);
      && (upstream(request).Unbuildable? ==> t.sent == None && t.result.Some?)
      && (!upstream(request).Unbuildable? ==> t.sent == Some(request))
    ensures t.result.Some? <==> t.output.None?
    ensures var f := FetchURL(s, url, responseType, upstream);
      && (f.Failure? ==> t.result == Some(FetchErrorResult(f.message)))
      && (f.Body? ==> t.output == Some(FetchOutput(f.body)))
  {
    var sent := Sent(s, url, responseType, upstream);
    match FetchURL(s, url, responseType, upstream)
    case Failure(message) => TypedHandled(Some(FetchErrorResult(message)), None, None, sent)
    case Body(body) => TypedHandled(None, Some(FetchOutput(body)), None, sent)
  }

  function FetchMarkdown(s: ReaderServer, url: string, upstream: Upstream): TypedHandled {
    FetchTyped(s, "markdown", url, upstream)
  }

  function FetchHTML(s: ReaderServer, url: string, upstream: Upstream): TypedHandled {
    FetchTyped(s, "html", url, upstream)
  }

  function FetchText(s: ReaderServer, url: string, upstream: Upstream): TypedHandled {
    FetchTyped(s, "text", url, upstream)
  }

  function FetchScreenshot(s: ReaderServer, url: string, upstream: Upstream): TypedHandled {
    FetchTyped(s, "screenshot", url, upstream)
  }

  function FetchPageshot(s: ReaderServer, url: string, upstream: Upstream): TypedHandled {
    FetchTyped(s, "pageshot", url, upstream)
  }

  /** Each typed handler asks the reader for its own representation. */
  lemma TypedHandlersTokens(s: ReaderServer, url: string, upstream: Upstream)
    ensures FetchMarkdown(s, url, upstream).sent.Some? ==> FetchMarkdown(s, url, upstream).sent.value.respondWith == "markdown"
    ensures FetchHTML(s, url, upstream).sent.Some? ==> FetchHTML(s, url, upstream).sent.value.respondWith == "html"
    ensures FetchText(s, url, upstream).sent.Some? ==> FetchText(s, url, upstream).sent.value.respondWith == "text"
    ensures FetchScreenshot(s, url, upstream).sent.Some? ==> FetchScreenshot(s, url, upstream).sent.value.respondWith == "screenshot"
    ensures FetchPageshot(s, url, upstream).sent.Some? ==> FetchPageshot(s, url, upstream).sent.value.respondWith == "pageshot"
  {
  }

  /**
    A request `http.NewRequestWithContext` rejects is never sent: both handler
    shapes report "failed to create request" and record no request.
   */
  lemma UnbuildableSendsNothing(s: ReaderServer, responseType: string, url: string, upstream: Upstream, reason: string)
    requires upstream(BuildRequest(s, url, responseType)) == Unbuildable(reason)
    ensures var h := ManualFetch(s, responseType, Url(url), upstream);
      h.sent == None && h.result == FetchErrorResult("failed to create request: " + reason)
    ensures var t := FetchTyped(s, responseType, url, upstream);
      t.sent == None && t.result == Some(FetchErrorResult("failed to create request: " + reason)) && t.output == None
  {
  }

  /** Typed and manual handlers agree: same request, same error text, same body. */
  lemma TypedAgreesWithManual(s: ReaderServer, responseType: string, url: string, upstream: Upstream)
    ensures var t := FetchTyped(s, responseType, url, upstream);
            var h := ManualFetch(s, responseType, Url(url), upstream);
      && h.sent == t.sent
      && (t.result.Some? ==> h.result == t.result.value)
      && (t.output.Some? ==> h.result == CallToolResult([TextContent(t.output.value.result)], false))
  {
  }

  // ---------------------------------------------------------------------------
  // Tool registration in main

  datatype PropertySchema = PropertySchema(typ: string, description: string)

  /** `jsonschema.Schema` of a tool's input: an object with properties and required names. */
  datatype InputSchema = InputSchema(typ: string, properties: map<string, PropertySchema>, required: seq<string>)

  const FetchInputSchema := InputSchema("object", map["url" := PropertySchema("string", "The URL to fetch")], ["url"])

  /** One row of the tool table in `main`. */
  datatype ToolSpec = ToolSpec(name: string, description: string, responseType: string)

  const TableNames := ["fetch_markdown", "fetch_html", "fetch_text", "fetch_screenshot", "fetch_pageshot"]

  const TableDescriptions := [
    "Fetch a webpage and return its content as Markdown (bypasses readability processing)",
    "Fetch a webpage and return its HTML (documentElement.outerHTML)",
    "Fetch a webpage and return its text content (document.body.innerText)",
    "Fetch a screen-size screenshot of a webpage (returns the URL of the screenshot)",
    "Fetch a full-page screenshot of a webpage (returns the URL of the screenshot)"]

  const TableTokens := ["markdown", "html", "text", "screenshot", "pageshot"]

  /** The rows `main` registers, in order. */
  const ToolTable: seq<ToolSpec> :=
    seq(5, i requires 0 <= i < 5 => ToolSpec(TableNames[i], TableDescriptions[i], TableTokens[i]))

  /** The five response-format tokens the reader understands. */
  const ResponseFormats: set<string> := {"markdown", "html", "text", "screenshot", "pageshot"}

  /**
    The table holds five tools with distinct names, each bound to a distinct
    response-format token, and together they cover every token.
   */
  lemma ToolTableShape()
    ensures |ToolTable| == 5
    ensures forall i, j :: 0 <= i < j < |ToolTable| ==> ToolTable[i].name != ToolTable[j].name
    ensures forall i, j :: 0 <= i < j < |ToolTable| ==> ToolTable[i].responseType != ToolTable[j].responseType
    ensures (set t | t in ToolTable :: t.responseType) == ResponseFormats
  {
    assert (set t | t in ToolTable :: t.responseType) == ResponseFormats by {
      forall f | f in ResponseFormats ensures f in (set t | t in ToolTable :: t.responseType) {
        if f == "markdown" { assert ToolTable[0] in ToolTable; }
        else if f == "html" { assert ToolTable[1] in ToolTable; }
        else if f == "text" { assert ToolTable[2] in ToolTable; }
        else if f == "screenshot" { assert ToolTable[3] in ToolTable; }
        else { assert ToolTable[4] in ToolTable; }
      }
    }
  }

  /** The shared input schema: an object whose only required property is the string `url`. */
  lemma FetchInputSchemaShape()
    ensures FetchInputSchema.typ == "object"
    ensures FetchInputSchema.required == ["url"]
    ensures FetchInputSchema.properties.Keys == {"url"}
    ensures FetchInputSchema.properties["url"].typ == "string"
  {
  }

  /** A registered tool: what `AddTool` is given, the handler named by its response type. */
  datatype Tool = Tool(name: string, description: string, inputSchema: InputSchema, responseType: string)

  function ToolOf(t: ToolSpec): Tool {
    Tool(t.name, t.description, FetchInputSchema, t.responseType)
  }

  /** The tools registered by the first `n` rows of a table, keyed by name. */
  function Registered(table: seq<ToolSpec>): map<string, Tool>
    decreases |table|
  {
    if table == [] then map[]
    else Registered(table[..|table| - 1])[table[|table| - 1].name := ToolOf(table[|table| - 1])]
  }

  /** The MCP server's tool set, keyed by name, as `AddTool` leaves it. */
  class McpServer {
    const name: string
    const version: string
    var tools: map<string, Tool>

    constructor (name: string, version: string)
      ensures this.name == name && this.version == version && tools == map[]
    {
      this.name := name;
      this.version := version;
      tools := map[];
    }

    /** `AddTool`: registers `t` under its name. */
    method AddTool(t: Tool)
      modifies this
      ensures tools == old(tools)[t.name := t]
    {
      tools := tools[t.name := t];
    }
  }

  /** The registration loop in `main`: one `AddTool` per table row, all with the shared schema. */
  method RegisterTools(server: McpServer, table: seq<ToolSpec>)
    modifies server
    ensures server.tools == old(server.tools) + Registered(table)
  {
    ghost var start := server.tools;
    for i := 0 to |table|
      invariant server.tools == start + Registered(table[..i])
    {
      assert table[..i + 1][..i] == table[..i];
      server.AddTool(ToolOf(table[i]));
    }
    assert table[..|table|] == table;
  }

  predicate DistinctNames(table: seq<ToolSpec>) {
    forall i, j :: 0 <= i < j < |table| ==> table[i].name != table[j].name
  }

  /** A name is registered exactly when some row of the table carries it. */
  lemma {:induction false} RegisteredKeys(table: seq<ToolSpec>, n: string)
    ensures n in Registered(table) <==> exists i :: 0 <= i < |table| && table[i].name == n
    decreases |table|
  {
    if table != [] {
      var prefix := table[..|table| - 1];
      RegisteredKeys(prefix, n);
      if n in Registered(prefix) {
        var i :| 0 <= i < |prefix| && prefix[i].name == n;
        assert table[i].name == n;
      }
      if exists i :: 0 <= i < |table| && table[i].name == n {
        var i :| 0 <= i < |table| && table[i].name == n;
        if i < |prefix| { assert prefix[i].name == n; }
      }
    }
  }

  /** With distinct names, each row's tool is registered under its name. */
  lemma {:induction false} RegisteredAt(table: seq<ToolSpec>, i: nat)
    requires DistinctNames(table) && i < |table|
    ensures table[i].name in Registered(table) && Registered(table)[table[i].name] == ToolOf(table[i])
    decreases |table|
  {
    var prefix := table[..|table| - 1];
    if i < |prefix| {
      assert DistinctNames(prefix);
      RegisteredAt(prefix, i);
      assert table[i] == prefix[i];
    }
  }

  const ToolNames: set<string> := {"fetch_markdown", "fetch_html", "fetch_text", "fetch_screenshot", "fetch_pageshot"}

  /** Registering the whole table yields the five tools, each under its own name. */
  lemma RegisteredToolTable()
    ensures Registered(ToolTable).Keys == ToolNames
    ensures forall i :: 0 <= i < |ToolTable| ==> Registered(ToolTable)[ToolTable[i].name] == ToolOf(ToolTable[i])
  {
    assert DistinctNames(ToolTable) by {
      ToolTableShape();
    }
    forall i | 0 <= i < |ToolTable|
      ensures ToolTable[i].name in Registered(ToolTable)
      ensures Registered(ToolTable)[ToolTable[i].name] == ToolOf(ToolTable[i])
    {
      RegisteredAt(ToolTable, i);
    }
    forall n ensures n in Registered(ToolTable) <==> n in ToolNames {
      RegisteredKeys(ToolTable, n);
      if n in ToolNames {
        assert n == ToolTable[0].name || n == ToolTable[1].name || n == ToolTable[2].name
            || n == ToolTable[3].name || n == ToolTable[4].name;
      }
    }
  }

  /**
    After start-up the server holds exactly the five tools, each under its
    name, with the shared schema and its own response type.
   */
  method Startup() returns (server: McpServer)
    ensures fresh(server)
    ensures server.name == "reader-mcp" && server.version == "1.0.0"
    ensures server.tools.Keys == ToolNames
    ensures forall i :: 0 <= i < |ToolTable| ==> server.tools[ToolTable[i].name] == ToolOf(ToolTable[i])
  {
    server := new McpServer("reader-mcp", "1.0.0");
    RegisterTools(server, ToolTable);
    RegisteredToolTable();
  }
}
