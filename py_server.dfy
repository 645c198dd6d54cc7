/**
  The Python MCP server: a hand-written JSON-RPC 2.0 switch over
  `initialize`, `tools/list` and `tools/call`, the tool list, the tool-call
  handler and its upstream fetch.

  Request bodies are JSON values as `json.loads` yields them. Python
  operations that raise where the code has no handler (`.get` on a value
  that is not a dict, a dict lookup with an unhashable key) give `Raised`;
  the web framework then answers with an internal server error.
 */
module PyServer {
  import opened Common
  import Decimal

  /** A JSON value; object members keep their textual order, duplicates included. */
  datatype Json =
    | JNull
    | JBool(b: bool)
    | JInt(i: int)
    | JStr(s: string)
    | JArr(items: seq<Json>)
    | JObj(members: seq<(string, Json)>)

  /** A Python evaluation that either yields a value or raises an exception of the named class. */
  datatype Py<T> = Value(value: T) | Raised(exception: string)

  /** The member value a Python dict built by `json.loads` holds for `key`. */
  function Lookup(members: seq<(string, Json)>, key: string): Option<Json>
    decreases |members|
  {
    if members == [] then None
    else if members[|members| - 1].0 == key then Some(members[|members| - 1].1)
    else Lookup(members[..|members| - 1], key)
  }

  /** A key is found exactly when some member carries it, and the last such member's value wins. */
  lemma {:induction false} LookupLastWins(members: seq<(string, Json)>, key: string)
    ensures Lookup(members, key).Some? <==> exists i :: 0 <= i < |members| && members[i].0 == key
    ensures Lookup(members, key).Some? ==>
      exists i :: 0 <= i < |members| && members[i] == (key, Lookup(members, key).value)
                  && forall j :: i < j < |members| ==> members[j].0 != key
    decreases |members|
  {
    if members != [] && members[|members| - 1].0 != key {
      var prefix := members[..|members| - 1];
      LookupLastWins(prefix, key);
      assert forall i :: 0 <= i < |prefix| ==> prefix[i] == members[i];
    }
  }

  /** `d.get(key, default)`: raises `AttributeError` when `d` is not a dict. */
  function DictGet(d: Json, key: string, default: Json): (r: Py<Json>)
    ensures !d.JObj? <==> r.Raised?
    ensures d.JObj? && Lookup(d.members, key).None? ==> r == Value(default)
    ensures d.JObj? && Lookup(d.members, key).Some? ==> r == Value(Lookup(d.members, key).value)
  {
    if !d.JObj? then Raised("AttributeError")
    else match Lookup(d.members, key)
      case Some(v) => Value(v)
      case None => Value(default)
  }

  /** Python truthiness of a JSON-loaded value. */
  predicate Truthy(j: Json) {
    match j
    case JNull => false
    case JBool(b) => b
    case JInt(i) => i != 0
    case JStr(s) => s != ""
    case JArr(items) => items != []
    case JObj(members) => members != []
  }

  /** Hashable values can be dict keys: lists and dicts cannot. */
  predicate Hashable(j: Json) {
    !j.JArr? && !j.JObj?
  }

  /** `repr()` of a string: single quotes unless the text holds a single quote and no double quote. */
  function StrRepr(s: string): (r: string)
    ensures |r| >= 2 && r[0] == r[|r| - 1]
    ensures r[0] == (if '\'' in s && '"' !in s then '"' else '\'')
  {
    var q := if '\'' in s && '"' !in s then '"' else '\'';
    [q] + EscapeRepr(s, q) + [q]
  }

  function EscapeRepr(s: string, q: char): string {
    if s == [] then []
    else
      var c := s[0];
      var e := if c == '\\' then "\\\\" else if c == q then ['\\', q] else if c == '\n' then "\\n"
               else if c == '\r' then "\\r" else if c == '\t' then "\\t" else [c];
      e + EscapeRepr(s[1..], q)
  }

  function Join(parts: seq<string>): string {
    if parts == [] then [] else if |parts| == 1 then parts[0] else parts[0] + ", " + Join(parts[1..])
  }

  /** `repr()` of a JSON-loaded value. */
  function Repr(j: Json): string
    decreases j
  {
    match j
    case JNull => "None"
    case JBool(b) => if b then "True" else "False"
    case JInt(i) => Decimal.IntToString(i)
    case JStr(s) => StrRepr(s)
    case JArr(items) => "[" + Join(seq(|items|, k requires 0 <= k < |items| => Repr(items[k]))) + "]"
    case JObj(members) =>
      "{" + Join(seq(|members|, k requires 0 <= k < |members| => StrRepr(members[k].0) + ": " + Repr(members[k].1))) + "}"
  }

  /** `str()` (and so an f-string field) of a JSON-loaded value: strings stand for themselves. */
  function Str(j: Json): (r: string)
    ensures j.JStr? ==> r == j.s
    ensures j.JNull? ==> r == "None"
    ensures j.JInt? ==> r == Decimal.IntToString(j.i)
  {
    if j.JStr? then j.s else Repr(j)
  }

  // ---------------------------------------------------------------------------
  // Configuration

  const DefaultReaderUrl := "http://localhost:3000"

  /** `os.environ.get("READER_URL", default)`: only a missing variable falls back; an empty one is kept. */
  function ReaderUrlSetting(env: Option<string>): (url: string)
    ensures env.Some? ==> url == env.value
    ensures env.None? ==> url == DefaultReaderUrl
  {
    if env.Some? then env.value else DefaultReaderUrl
  }

  // ---------------------------------------------------------------------------
  // fetch_url

  /** The GET `fetch_url` sends through the httpx client. */
  datatype PyRequest = PyRequest(url: string, respondWith: string, followRedirects: bool)

  /**
    What httpx makes of a request: a final response (its status, decoded text
    and the text of the `HTTPStatusError` that `raise_for_status` would
    raise); any other `httpx.HTTPError` (transport failure, timeout, too many
    redirects) with its message; or an exception outside that hierarchy,
    raised before anything is sent (`httpx.InvalidURL` for a URL httpx cannot
    parse), with its class name.
   */
  datatype PyOutcome =
    | Completed(status: int, text: string, statusError: string)
    | HttpError(message: string)
    | Unsendable(exception: string)

  type PyUpstream = PyRequest -> PyOutcome

  /** `raise_for_status` passes 2xx statuses only. */
  predicate IsSuccess(status: int) {
    200 <= status < 300
  }

  function FetchRequest(readerUrl: string, url: string, respondWith: string): (r: PyRequest)
    ensures StartsWith(r.url, readerUrl + "/") && r.url[|readerUrl| + 1..] == url
    ensures r.respondWith == respondWith && r.followRedirects
  {
    var r := PyRequest(readerUrl + "/" + url, respondWith, true);
    assert r.url[..|readerUrl| + 1] == readerUrl + "/";
    r
  }

  const FetchErrorPrefix := "Error fetching URL: "

  /**
    `fetch_url`: the response text on success, an `httpx.HTTPError` rendered
    as text; an exception the `except` clause does not name escapes.
   */
  function FetchUrl(readerUrl: string, url: string, respondWith: string, upstream: PyUpstream): (text: Py<string>)
    ensures var o := upstream(FetchRequest(readerUrl, url, respondWith));
      && (o.Completed? && IsSuccess(o.status) ==> text == Value(o.text))
      && (o.Completed? && !IsSuccess(o.status) ==> text == Value(FetchErrorPrefix + o.statusError))
      && (o.HttpError? ==> text == Value(FetchErrorPrefix + o.message))
      && (text.Raised? <==> o.Unsendable?)
      && (o.Unsendable? ==> text.exception == o.exception)
  {
    match upstream(FetchRequest(readerUrl, url, respondWith))
    case Completed(status, text, statusError) =>
      Value(if IsSuccess(status) then text else FetchErrorPrefix + statusError)
    case HttpError(message) => Value(FetchErrorPrefix + message)
    case Unsendable(exception) => Raised(exception)
  }

  /**
    The Python variant reports fetch failures as ordinary text: a failed fetch
    and a successful one whose page reads like an error yield the same
    content, so a caller cannot tell them apart.
   */
  lemma FetchFailureIndistinguishable(readerUrl: string, url: string, respondWith: string, message: string)
    ensures var failing := (r: PyRequest) => HttpError(message);
            var succeeding := (r: PyRequest) => Completed(200, FetchErrorPrefix + message, "");
      FetchUrl(readerUrl, url, respondWith, failing) == FetchUrl(readerUrl, url, respondWith, succeeding)
  {
  }

  // ---------------------------------------------------------------------------
  // Tools

  /** The `tool_to_response` table of `handle_call_tool`. */
  function ToolResponseType(name: string): (r: Option<string>)
    ensures r.Some? <==> name in {"get_markdown", "get_html", "get_text", "get_screenshot", "get_pageshot"}
    ensures r.Some? ==> r.value != "" && name == "get_" + r.value
  {
    if name == "get_markdown" then Some("markdown")
    else if name == "get_html" then Some("html")
    else if name == "get_text" then Some("text")
    else if name == "get_screenshot" then Some("screenshot")
    else if name == "get_pageshot" then Some("pageshot")
    else None
  }

  datatype Tool = Tool(name: string, description: string, urlDescription: string)

  /** The input schema every tool declares: an object requiring the string property `url`. */
  function InputSchema(urlDescription: string): Json {
    JObj([("type", JStr("object")),
          ("properties", JObj([("url", JObj([("type", JStr("string")), ("description", JStr(urlDescription))]))])),
          ("required", JArr([JStr("url")]))])
  }

  function ToolDoc(t: Tool): Json {
    JObj([("name", JStr(t.name)), ("description", JStr(t.description)), ("inputSchema", InputSchema(t.urlDescription))])
  }

  const ToolNames := ["get_markdown", "get_html", "get_text", "get_screenshot", "get_pageshot"]

  const ToolDescriptions := [
    "Convert a URL to markdown format. This bypasses readability processing and returns the raw content as markdown.",
    "Convert a URL to HTML format. Returns documentElement.outerHTML.",
    "Convert a URL to plain text format. Returns document.body.innerText.",
    "Take a screen-size screenshot of a URL. Returns the URL of the screenshot image.",
    "Take a full-page screenshot of a URL. Returns the URL of the full-page screenshot image."]

  const UrlDescriptions := [
    "The URL to fetch and convert to markdown", "The URL to fetch and convert to HTML",
    "The URL to fetch and convert to text", "The URL to screenshot", "The URL to take a full-page screenshot of"]

  /** `handle_list_tools`: the five tools, always in the same order. */
  function ListTools(): seq<Tool> {
    seq(5, i requires 0 <= i < 5 => Tool(ToolNames[i], ToolDescriptions[i], UrlDescriptions[i]))
  }

  /** The listed tools are exactly the five names `handle_call_tool` dispatches, each once, in a fixed order. */
  lemma ListToolsMatchDispatch()
    ensures |ListTools()| == 5
    ensures forall i :: 0 <= i < 5 ==> ToolResponseType(ListTools()[i].name).Some?
    ensures forall i, j :: 0 <= i < j < 5 ==> ListTools()[i].name != ListTools()[j].name
    ensures ListTools()[0].name == "get_markdown" && ListTools()[1].name == "get_html"
    ensures ListTools()[2].name == "get_text" && ListTools()[3].name == "get_screenshot"
    ensures ListTools()[4].name == "get_pageshot"
  {
  }

  /** Every listed tool's schema requires `url`, of type string, and nothing else. */
  lemma ListedSchemasRequireUrl(i: nat)
    requires i < |ListTools()|
    ensures var s := InputSchema(ListTools()[i].urlDescription);
      && Lookup(s.members, "type") == Some(JStr("object"))
      && Lookup(s.members, "required") == Some(JArr([JStr("url")]))
      && Lookup(Lookup(Lookup(s.members, "properties").value.members, "url").value.members, "type") == Some(JStr("string"))
  {
  }

  /** What a tool call produced, and the upstream request it sent, if any. */
  datatype ToolCall = ToolCall(texts: Py<seq<string>>, sent: Option<PyRequest>)

  const UrlRequiredText := "Error: URL is required"

  /**
    `handle_call_tool(name, arguments)`: the `url` check comes first, then the
    tool lookup, then exactly one fetch; every answer is a single text block.
   */
  function HandleCallTool(readerUrl: string, name: Json, arguments: Json, upstream: PyUpstream): (c: ToolCall)
    ensures !arguments.JObj? ==> c == ToolCall(Raised("AttributeError"), None)
    ensures c.texts.Value? ==> |c.texts.value| == 1
    ensures c.sent.Some? ==> c.texts.Value?
    ensures arguments.JObj? ==>
      var url := DictGet(arguments, "url", JStr("")).value;
      && (!Truthy(url) ==> c == ToolCall(Value([UrlRequiredText]), None))
      && (Truthy(url) && !Hashable(name) ==> c == ToolCall(Raised("TypeError"), None))
      && (Truthy(url) && Hashable(name) && (!name.JStr? || ToolResponseType(name.s).None?) ==>
            c == ToolCall(Value(["Unknown tool: " + Str(name)]), None))
      && (Truthy(url) && name.JStr? && ToolResponseType(name.s).Some? ==>
            var token := ToolResponseType(name.s).value;
            var fetched := FetchUrl(readerUrl, Str(url), token, upstream);
            && (fetched.Value? ==> c == ToolCall(Value([fetched.value]), Some(FetchRequest(readerUrl, Str(url), token))))
            && (fetched.Raised? ==> c == ToolCall(Raised(fetched.exception), None)))
  {
    match DictGet(arguments, "url", JStr(""))
    case Raised(e) => ToolCall(Raised(e), None)
    case Value(url) =>
      if !Truthy(url) then ToolCall(Value([UrlRequiredText]), None)
      else if !Hashable(name) then ToolCall(Raised("TypeError"), None)
      else
        var token := if name.JStr? then ToolResponseType(name.s) else None;
        if token.None? then ToolCall(Value(["Unknown tool: " + Str(name)]), None)
        else match FetchUrl(readerUrl, Str(url), token.value, upstream)
          case Value(text) => ToolCall(Value([text]), Some(FetchRequest(readerUrl, Str(url), token.value)))
          case Raised(e) => ToolCall(Raised(e), None)
  }

  /** Without a usable url even an unknown tool gets the missing-url message, and nothing is fetched. */
  lemma UrlCheckedBeforeTool(readerUrl: string, name: string, upstream: PyUpstream)
    ensures HandleCallTool(readerUrl, JStr(name), JObj([]), upstream) == ToolCall(Value([UrlRequiredText]), None)
  {
  }

  // ---------------------------------------------------------------------------
  // The HTTP endpoint

  datatype HttpRequest = Get | Post(body: Json)

  /** The endpoint's answer: a JSON document, or an unhandled exception (an internal server error). */
  datatype PyReply = JsonReply(doc: Json) | Crashed(exception: string)

  const ServerInfo := JObj([("name", JStr("reader-mcp")), ("version", JStr("1.0.0")),
                            ("description", JStr("MCP server for Reader URL to LLM-friendly conversion"))])

  const InitializeResult := JObj([("protocolVersion", JStr("2024-11-05")),
                                  ("capabilities", JObj([("tools", JObj([]))])),
                                  ("serverInfo", JObj([("name", JStr("reader-mcp")), ("version", JStr("1.0.0"))]))])

  /** JSON-RPC "Method not found" (section 5.1 of the JSON-RPC 2.0 specification). */
  const MethodNotFoundCode := -32601

  function MethodNotFound(rpcMethod: Json): Json {
    JObj([("code", JInt(MethodNotFoundCode)), ("message", JStr("Method not found: " + Str(rpcMethod)))])
  }

  /** The `tools/list` result for a tool list: `{"tools": [...]}`, one document per tool, in order. */
  function ToolsListResult(tools: seq<Tool>): Json {
    JObj([("tools", JArr(seq(|tools|, i requires 0 <= i < |tools| => ToolDoc(tools[i]))))])
  }

  function ContentResult(texts: seq<string>): Json {
    JObj([("content", JArr(seq(|texts|, i requires 0 <= i < |texts| => JObj([("type", JStr("text")), ("text", JStr(texts[i]))]))))])
  }

  /** The request's `id`, or null when it has none (section 5 of the JSON-RPC 2.0 specification). */
  function RequestId(body: Json): Json
    requires body.JObj?
  {
    Lookup(body.members, "id").GetOr(JNull)
  }

  function RequestMethod(body: Json): Json
    requires body.JObj?
  {
    Lookup(body.members, "method").GetOr(JNull)
  }

  predicate KnownMethod(rpcMethod: Json) {
    rpcMethod == JStr("initialize") || rpcMethod == JStr("tools/list") || rpcMethod == JStr("tools/call")
  }

  /** A response document: version, echoed id, then exactly one of `result` or `error`. */
  function Envelope(id: Json, key: string, value: Json): Json {
    JObj([("jsonrpc", JStr("2.0")), ("id", id), (key, value)])
  }

  /** The tool call a `tools/call` body makes: `params` defaults to `{}`, `arguments` too, `name` to null. */
  function CallOf(readerUrl: string, body: Json, upstream: PyUpstream): (c: ToolCall)
    requires body.JObj?
    ensures c.texts.Value? ==> |c.texts.value| == 1
    ensures c.sent.Some? ==> c.texts.Value?
    ensures var params := Lookup(body.members, "params").GetOr(JObj([]));
      && (!params.JObj? ==> c == ToolCall(Raised("AttributeError"), None))
      && (params.JObj? ==>
            c == HandleCallTool(readerUrl, Lookup(params.members, "name").GetOr(JNull),
                                Lookup(params.members, "arguments").GetOr(JObj([])), upstream))
  {
    match DictGet(body, "params", JObj([]))
    case Raised(e) => ToolCall(Raised(e), None)
    case Value(params) =>
      match DictGet(params, "name", JNull)
      case Raised(e) => ToolCall(Raised(e), None)
      case Value(name) =>
        HandleCallTool(readerUrl, name, DictGet(params, "arguments", JObj([])).value, upstream)
  }

  /** A `tools/call` without `params` reaches the url check with empty arguments, so nothing is fetched. */
  lemma CallWithoutParams(readerUrl: string, body: Json, upstream: PyUpstream)
    requires body.JObj? && Lookup(body.members, "params").None?
    ensures CallOf(readerUrl, body, upstream) == ToolCall(Value([UrlRequiredText]), None)
  {
  }

  /** `"params": null` is present, so no default applies: `.get` on `None` raises. */
  lemma NullParamsRaise(readerUrl: string, body: Json, upstream: PyUpstream)
    requires body.JObj? && Lookup(body.members, "params") == Some(JNull)
    ensures CallOf(readerUrl, body, upstream) == ToolCall(Raised("AttributeError"), None)
  {
  }

  /** `handle_streamable_http`. */
  method HandleStreamableHttp(request: HttpRequest, readerUrl: string, upstream: PyUpstream)
    returns (reply: PyReply, sent: Option<PyRequest>)
    ensures request.Get? ==> reply == JsonReply(ServerInfo) && sent == None
    ensures request.Post? && !request.body.JObj? ==> reply == Crashed("AttributeError") && sent == None
    ensures request.Post? && request.body.JObj? ==>
      var body, id, rpcMethod := request.body, RequestId(request.body), RequestMethod(request.body);
      && (sent.Some? ==> rpcMethod == JStr("tools/call"))
      && (reply.Crashed? ==> rpcMethod == JStr("tools/call") && CallOf(readerUrl, body, upstream).texts.Raised?)
      && (rpcMethod == JStr("tools/call") && CallOf(readerUrl, body, upstream).texts.Raised? ==>
            reply == Crashed(CallOf(readerUrl, body, upstream).texts.exception) && sent == None)
      && (!KnownMethod(rpcMethod) ==> reply == JsonReply(Envelope(id, "error", MethodNotFound(rpcMethod))))
      && (rpcMethod == JStr("initialize") ==> reply == JsonReply(Envelope(id, "result", InitializeResult)))
      && (rpcMethod == JStr("tools/list") ==> reply == JsonReply(Envelope(id, "result", ToolsListResult(ListTools()))))
      && (rpcMethod == JStr("tools/call") && CallOf(readerUrl, body, upstream).texts.Value? ==>
            var texts := CallOf(readerUrl, body, upstream).texts.value;
            |texts| == 1 && reply == JsonReply(Envelope(id, "result", ContentResult(texts)))
            && sent == CallOf(readerUrl, body, upstream).sent)
  {
    sent := None;
    if request.Get? {
      return JsonReply(ServerInfo), None;
    }
    var body := request.body;
    if !body.JObj? {
      return Crashed("AttributeError"), None;
    }
    var rpcMethod := RequestMethod(body);
    var id := RequestId(body);
    var response := [("jsonrpc", JStr("2.0")), ("id", id)];
    var member;
    if rpcMethod == JStr("tools/list") {
      member := ("result", ToolsListResult(ListTools()));
    } else if rpcMethod == JStr("tools/call") {
      var call := CallOf(readerUrl, body, upstream);
      sent := call.sent;
      if call.texts.Raised? {
        return Crashed(call.texts.exception), sent;
      }
      member := ("result", ContentResult(call.texts.value));
    } else if rpcMethod == JStr("initialize") {
      member := ("result", InitializeResult);
    } else {
      member := ("error", MethodNotFound(rpcMethod));
    }
    response := response + [member];
    assert JObj(response) == Envelope(id, member.0, member.1);
    reply := JsonReply(JObj(response));
  }

  /** Every document the POST branch answers with carries `"jsonrpc": "2.0"`, the echoed id and one of result/error. */
  lemma EnvelopeShape(id: Json, key: string, value: Json)
    requires key == "result" || key == "error"
    ensures var d := Envelope(id, key, value);
      && Lookup(d.members, "jsonrpc") == Some(JStr("2.0"))
      && Lookup(d.members, "id") == Some(id)
      && Lookup(d.members, key) == Some(value)
      && (key == "result" ==> Lookup(d.members, "error") == None)
      && (key == "error" ==> Lookup(d.members, "result") == None)
  {
    var m := Envelope(id, key, value).members;
    assert key[0] != "jsonrpc"[0] && key[0] != "id"[0];
    assert "result"[0] != "error"[0];
    assert "error"[0] != "jsonrpc"[0] && "error"[0] != "id"[0];
    assert "result"[0] != "jsonrpc"[0] && "result"[0] != "id"[0];
    assert m[..2] == [("jsonrpc", JStr("2.0")), ("id", id)];
    assert m[..2][..1] == [("jsonrpc", JStr("2.0"))];
    assert m[..2][..1][..0] == [];
    var other := if key == "result" then "error" else "result";
    assert Lookup(m, other) == Lookup(m[..2], other) == Lookup(m[..2][..1], other) == Lookup([], other);
    assert Lookup(m, "jsonrpc") == Lookup(m[..2], "jsonrpc") == Lookup(m[..2][..1], "jsonrpc");
    assert Lookup(m, "id") == Lookup(m[..2], "id");
  }
}
