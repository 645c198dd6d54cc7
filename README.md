# Reader MCP: a Dafny model

The Reader system turns a web page into text an LLM can use. It has four parts, and this project models the core of each:

- **Reader service** (`deno/main.ts`, `deno/services/puppeteer.ts`). A Hono route takes `/<url>` and validates the URL. Each scraping request creates a fresh `PuppeteerService`, which launches a new headless Chrome that is never closed, and scrapes the page. Only the lazy launch inside `init` happens once per service. Then `formatSnapshot` answers in one of five modes: `markdown`, `html`, `text`, `screenshot` or `pageshot`. The last two redirect to a stored image.
- **Go MCP server** (`main.go`). It registers five `fetch_*` tools. Each tool forwards the URL to the Reader service with `X-Respond-With` set and relays the body or an error result.
- **Python MCP server** (`mcp_server/server.py`). It lists five `get_*` tools and dispatches calls the same way. It also answers raw JSON-RPC posts on its streamable-HTTP endpoint.
- **Backend helpers**. `CrawlerOptions.from` / `CrawlerOptionsHeaderOnly.from` parse request options (`dto/scrapping-options.ts`). `RPCReflect` is a method registry (`shared/rpc-reflect.ts`). `shared/index.ts` holds `AsyncContext` and `InsufficientBalanceError`.

## Modelling conventions

- Environment outside the program is passed in as parameters:
  - HTTP exchanges, the browser launch, page behaviour, the URL parser and the DOM parser are functions;
  - environment variables and generated UUIDs are values.
- Each reply records the request it sent, if any. That makes "no request was made" a statement the model can express.
- JavaScript semantics are written out in module `Js`:
  - `a || b` on possibly-undefined strings;
  - `parseInt` with its whitespace, sign, hex-prefix and NaN rules (NaN is `None`);
  - `JSON.stringify` string quoting, with its decoder and round trip.
- A JavaScript `Map` is `OrderedMap`: a Dafny `map` plus the insertion order of its keys, which is the order `Map.keys()` returns them in.
- Integer formatting is shared by Go `%d`, Python `str` and JavaScript number-to-string. It lives in `Decimal`, which proves it injective and inverse to parsing.
- Code that updates an object in place is modelled as a `class` with `modifies` clauses:
  - `PuppeteerService`, `RPCReflect`, `AsyncContext`;
  - the Go SDK's server registry (`McpServer`).
- Loops become methods proved against specification functions:
  - the Markdown builder;
  - the page-call sequence of `scrap`;
  - the tool registration loop.

Error reporting in the two MCP servers:

- In `server.py`, a missing or empty `url` and an unknown tool name each produce an ordinary text result. The texts are "Error: URL is required" and "Unknown tool: …". Neither is a JSON-RPC error.
- A failed upstream fetch in `server.py` returns the text "Error fetching URL: …". It is not flagged as an error.
- The Go server does no URL validation of its own: an empty `url` is forwarded.

## Model

| member | source | states |
|---|---|---|
| Decimal.NatToStringRoundTrip | main.go:63 | the decimal text of a number reads back as that number |
| Decimal.NatToStringInjective | main.go:63 | different numbers format to different decimal texts |
| Js.ParseIntOfIntToString | backend/functions/src/dto/scrapping-options.ts:30 | `parseInt` of an integer's decimal text, followed by any non-digit tail (except an `x` or `X` right after a lone `0`, which selects base 16), gives that integer back |
| Js.ParseIntNaN | backend/functions/src/dto/scrapping-options.ts:30 | `parseInt` is NaN when the text, after leading whitespace, is empty or starts with neither a digit nor a sign |
| Js.JsonQuoteRoundTrip | deno/main.ts:100 | decoding the JSON string literal that `JSON.stringify` writes for a string gives that string back |
| Js.UnescapeEscape | deno/main.ts:100 | decoding the escaped text of a string gives the string back |
| OrderedMap.GetAfterSet | backend/functions/src/shared/rpc-reflect.ts:4-10 | after `set(k, v)`, `get(k)` returns `v` |
| OrderedMap.SetKeepsOthers | backend/functions/src/shared/rpc-reflect.ts:4-10 | `set(k, v)` leaves every other key's value unchanged |
| OrderedMap.SetOverwrites | backend/functions/src/shared/rpc-reflect.ts:4-10 | setting a key twice is the same as setting it once to the second value |
| OrderedMap.KeysAfterSet | backend/functions/src/shared/rpc-reflect.ts:12-14 | `set` appends a new key to the key order, and leaves the order unchanged for a key already present |
| OrderedMap.OrderAfterRepeat | backend/functions/src/shared/rpc-reflect.ts:12-14 | after another `set` of a key already present, the keys are still in order of first insertion |
| OrderedMap.OrderAfterNew | backend/functions/src/shared/rpc-reflect.ts:12-14 | a `set` of a new key appends it to the key order, which stays the order of first insertion |
| OrderedMap.KeysOfSetAll | backend/functions/src/shared/rpc-reflect.ts:12-14 | after a run of `set` calls, the keys are the distinct names in order of first insertion |
| OrderedMap.GetOfSetAll | backend/functions/src/shared/rpc-reflect.ts:8-10 | after a run of `set` calls, `get(k)` is the value of the last call for `k`, or undefined when there was none |
| OrderedMap.LastValueIsLast | backend/functions/src/shared/rpc-reflect.ts:4-10 | the last-wins lookup finds a value iff the key was set, and that value comes from the last call that set it |
| RpcReflect.RPCReflect.constructor | backend/functions/src/shared/rpc-reflect.ts:1-2 | a new registry holds no methods |
| RpcReflect.RPCReflect.RegisterMethod | backend/functions/src/shared/rpc-reflect.ts:4-6 | the registry becomes `set(old, name, fn)` |
| RpcReflect.RPCReflect.GetMethod | backend/functions/src/shared/rpc-reflect.ts:8-10 | returns the function registered under the name, or undefined iff there is none; the registry is unchanged |
| RpcReflect.RPCReflect.ListMethods | backend/functions/src/shared/rpc-reflect.ts:12-14 | returns the registered names without duplicates, in insertion order, and exactly those names |
| SharedIndex.AsyncContext.constructor | backend/functions/src/shared/index.ts:6-8 | a new context stores nothing |
| SharedIndex.AsyncContext.Set | backend/functions/src/shared/index.ts:8-10 | the storage becomes `set(old, key, value)` |
| SharedIndex.AsyncContext.Get | backend/functions/src/shared/index.ts:12-14 | returns the stored value, or `None` iff the key is absent from the map; the storage is unchanged |
| SharedIndex.NewInsufficientBalanceError | backend/functions/src/shared/index.ts:17-22 | the error carries the given message, and its name is `InsufficientBalanceError` rather than `Error` |
| ScrappingOptions.Pick | backend/functions/src/dto/scrapping-options.ts:28-35 | `q[a] \|\| q[b]`: the first key wins unless its value is missing or empty |
| ScrappingOptions.TimeoutOf | backend/functions/src/dto/scrapping-options.ts:30 | a timeout exists only for input that parses to a non-zero integer, and then it is the parsed value |
| ScrappingOptions.CrawlerOptionsFrom | backend/functions/src/dto/scrapping-options.ts:20-39 | each option comes from its header-style key, else its camelCase key, else its default; `respondWith` defaults to `markdown`, flags are exactly `'true'` |
| ScrappingOptions.TimeoutHeaderRoundTrip | backend/functions/src/dto/scrapping-options.ts:30 | a non-zero decimal `X-Timeout` is read back exactly |
| ScrappingOptions.NonNumericTimeoutHeaderDoesNotFallBack | backend/functions/src/dto/scrapping-options.ts:30 | a non-empty `X-Timeout` that is not a number gives no timeout, even when `timeout` holds a valid number |
| ScrappingOptions.EmptyTimeoutHeaderFallsBack | backend/functions/src/dto/scrapping-options.ts:30 | with `X-Timeout` missing or empty, the camelCase `timeout` is used |
| ScrappingOptions.ZeroTimeoutIsUndefined | backend/functions/src/dto/scrapping-options.ts:30 | a timeout of `"0"` means no timeout |
| ScrappingOptions.HtmlOnlyFromQuery | backend/functions/src/dto/scrapping-options.ts:31 | `html` ignores any header-style key |
| ScrappingOptions.HeaderOnlyFrom | backend/functions/src/dto/scrapping-options.ts:51-63 | each option is read from its lower-case header; `respondWith` defaults to `markdown`, and the user agent falls back to `user-agent` |
| ScrappingOptions.HeaderOnlyAgreesWithQuery | backend/functions/src/dto/scrapping-options.ts:20-63 | given the same values under the header-style names, the header reader and the query reader agree on every shared field |
| GoReaderServer.NewReaderServer | main.go:27-36 | an empty base URL becomes the default endpoint, any other is kept; the client timeout is 60 s |
| GoReaderServer.ListenAddress | main.go:197-200 | the address is `:` followed by the port, and `:8080` when `PORT` is empty |
| GoReaderServer.BuildRequest | main.go:40-49 | a GET of `baseURL + "/" + url`, with `X-Respond-With` set to the response type |
| GoReaderServer.StatusFailureMessage | main.go:63 | the error text begins `request failed with status <n>: ` and ends with the body |
| GoReaderServer.StatusRecoverable | main.go:63 | the status code can be read back from the error text |
| GoReaderServer.LeadingIntOfIntToString | main.go:63 | the leading integer of a formatted number followed by a non-digit is that number |
| GoReaderServer.FetchURL | main.go:39-74 | the outcome is success with the whole body iff the reply is status 200 and the body is readable; each failure kind has its own wrapped message |
| GoReaderServer.FetchErrorResult | main.go:88-94 | an error result has one text `Error: <err>` and is flagged `IsError` |
| GoReaderServer.ManualFetch | main.go:157-193 | undecodable arguments give `Invalid arguments: …` and no request; a URL `http.NewRequestWithContext` rejects gives no request either; otherwise one request, then the body or the flagged error; the Go error is always nil |
| GoReaderServer.ManualFetchRelaysBody | main.go:175-191 | a 200 reply's body is returned verbatim as an unflagged result |
| GoReaderServer.ManualFetchReportsStatus | main.go:60-64 | a non-200 reply gives a flagged result whose text begins `Error: request failed with status <n>` and ends with the body |
| GoReaderServer.FetchTyped | main.go:86-154 | the typed handler sends one request, or none when it cannot be built, and returns either an error result or the output, never both |
| GoReaderServer.UnbuildableSendsNothing | main.go:43-47 | when the request cannot be built, both handler shapes record no request and report `failed to create request: …` as a flagged result |
| GoReaderServer.TypedHandlersTokens | main.go:86-154 | each of the five typed handlers, when it sends a request, sends its own `X-Respond-With` token |
| GoReaderServer.TypedAgreesWithManual | main.go:86-193 | the typed and manual handlers send the same request and report the same body or error text |
| GoReaderServer.ToolTableShape | main.go:228-238 | five tools with distinct names and distinct response types, covering exactly the five Reader formats |
| GoReaderServer.FetchInputSchemaShape | main.go:216-225 | the input schema is an object with one required string property, `url` |
| GoReaderServer.McpServer.constructor | main.go:209-212 | a new server has the given name and version and no tools |
| GoReaderServer.McpServer.AddTool | main.go:241-245 | the tool is registered under its name |
| GoReaderServer.RegisterTools | main.go:240-247 | the registry becomes the old one extended with every table entry, each under its name |
| GoReaderServer.RegisteredKeys | main.go:240-247 | a name is registered iff some table entry has it |
| GoReaderServer.RegisteredAt | main.go:240-247 | with distinct names, each entry is registered with its own description, schema and response type |
| GoReaderServer.RegisteredToolTable | main.go:228-247 | registering the tool table yields exactly the five tool names, each bound to its entry |
| GoReaderServer.Startup | main.go:206-247 | after start-up the `reader-mcp` 1.0.0 server holds exactly the five tools, each bound to its entry |
| PyServer.LookupLastWins | mcp_server/server.py:184-185 | a key of a decoded JSON object is found iff it occurs, and the lookup returns its last occurrence |
| PyServer.DictGet | mcp_server/server.py:150 | `.get` on a non-dict raises; on a dict it returns the value, or the default when the key is absent |
| PyServer.StrRepr | mcp_server/server.py:220 | the repr of a string starts and ends with the same quote: double quotes when the text has a single quote and no double quote, otherwise single quotes |
| PyServer.Str | mcp_server/server.py:166 | `str` gives a string itself, `None` for null, and the decimal text of an integer |
| PyServer.ReaderUrlSetting | mcp_server/server.py:34 | `READER_URL` when set, else `http://localhost:3000` |
| PyServer.FetchRequest | mcp_server/server.py:52-59 | a GET of `READER_URL + "/" + url`, with `X-Respond-With` set and redirects followed |
| PyServer.FetchUrl | mcp_server/server.py:41-63 | a 2xx reply's text is returned; any `httpx.HTTPError` becomes `Error fetching URL: <message>`; an exception outside that hierarchy (`httpx.InvalidURL`) escapes, and only then |
| PyServer.FetchFailureIndistinguishable | mcp_server/server.py:62-63 | an upstream that always fails with a message gives the same text as one whose body happens to be that error string |
| PyServer.ToolResponseType | mcp_server/server.py:156-164 | exactly the five `get_*` names map to a response type, and each maps to its own suffix |
| PyServer.ListToolsMatchDispatch | mcp_server/server.py:71-164 | the five listed tools have distinct names, and every listed name is one that dispatch accepts |
| PyServer.ListedSchemasRequireUrl | mcp_server/server.py:77-86 | each listed schema is an object whose one required property is the string `url` |
| PyServer.HandleCallTool | mcp_server/server.py:148-169 | a non-dict argument raises; a falsy url gives `Error: URL is required`; an unknown name gives `Unknown tool: <name>`; otherwise exactly one fetch is made and its text returned, or the fetch's escaping exception is raised with nothing sent |
| PyServer.UrlCheckedBeforeTool | mcp_server/server.py:150-153 | without a url, even an unknown tool gets the URL-required text and no request is sent |
| PyServer.CallOf | mcp_server/server.py:199-202 | `params` that is present but not a dict raises AttributeError; otherwise the call is `handle_call_tool` with `name` defaulting to None and `arguments` to `{}`, and `params` itself to `{}` |
| PyServer.CallWithoutParams | mcp_server/server.py:199-202 | a `tools/call` without `params` gets the URL-required text and sends nothing |
| PyServer.NullParamsRaise | mcp_server/server.py:199-200 | `"params": null` gets no default and raises AttributeError |
| PyServer.HandleStreamableHttp | mcp_server/server.py:173-223 | GET returns the server info; a POST body that is not a dict crashes; otherwise a JSON-RPC envelope holding the result of `tools/list`, `tools/call` or `initialize`, or the -32601 error for any other method; a `tools/call` whose tool call raises crashes with that exception and sends nothing |
| PyServer.EnvelopeShape | mcp_server/server.py:188-221 | every envelope carries `jsonrpc: "2.0"` and the request id, followed by exactly one result or error member |
| Puppeteer.ParagraphsAppend | deno/services/puppeteer.ts:181-183 | the paragraph query over two document parts is the concatenation of the two queries |
| Puppeteer.LinksAppend | deno/services/puppeteer.ts:186-192 | the same holds for the anchor query |
| Puppeteer.HeadingsAppend | deno/services/puppeteer.ts:195-199 | the same holds for the heading query |
| Puppeteer.ConcatMapAppend | deno/services/puppeteer.ts:181-199 | a `forEach` over two parts appends the text of the first part and then the text of the second |
| Puppeteer.LinkLine | deno/services/puppeteer.ts:186-192 | a link is written iff its href and text are both non-empty, as `[text](href)` |
| Puppeteer.Hashes | deno/services/puppeteer.ts:196-197 | `'#'.repeat(level)` is `level` hash characters |
| Puppeteer.HeadingLineShape | deno/services/puppeteer.ts:198 | a heading line is a newline, `level` hashes, a blank, the text and two newlines |
| Puppeteer.MarkdownStartsWithTitle | deno/services/puppeteer.ts:178 | the Markdown starts with `# <raw title>` and a blank line |
| Puppeteer.MarkdownGroupsByKind | deno/services/puppeteer.ts:178-199 | the output is grouped by kind: all paragraphs, then all usable links, then all headings |
| Puppeteer.HeadingFollowsLaterParagraph | deno/services/puppeteer.ts:178-199 | document order is lost across kinds: a heading written before a paragraph comes after it in the output |
| Puppeteer.UnusableLinkAddsNothing | deno/services/puppeteer.ts:189-191 | an anchor without href or text leaves the Markdown unchanged |
| Puppeteer.ScreenshotPath | deno/services/puppeteer.ts:202-205 | the image path is `/instant-screenshots/<uuid>.png`, and the uuid can be recovered from it |
| Puppeteer.ResponseTitle | deno/services/puppeteer.ts:165 | the parsed title when it is non-empty, else the page title |
| Puppeteer.Formatted | deno/services/puppeteer.ts:163-209 | title and url are always set; exactly the field of the mode is set, with its value; an unknown mode sets none |
| Puppeteer.BuildMarkdown | deno/services/puppeteer.ts:178-201 | the loops build exactly the Markdown of the title and document |
| Puppeteer.FormatSnapshot | deno/services/puppeteer.ts:163-209 | the method returns the response `Formatted` specifies |
| Puppeteer.TimeoutFor | deno/services/puppeteer.ts:77 | a non-zero timeout is used as given; a missing or zero one gives 30 000 ms |
| Puppeteer.SelectorList | deno/services/puppeteer.ts:92-96 | a non-empty single selector becomes a one-element list and a list is kept as it is; no selector or an empty one gives no waits |
| Puppeteer.WaitSteps | deno/services/puppeteer.ts:97-103 | one `waitForSelector` per selector, in order, each with 5 s |
| Puppeteer.PlanStartsWithNavigation | deno/services/puppeteer.ts:73-78 | the user agent is set first when one is given, then the page navigates with the effective timeout |
| Puppeteer.PlanAwaitsSelectors | deno/services/puppeteer.ts:92-106 | every selector is awaited in order between navigation and evaluation |
| Puppeteer.ExecutedIsPrefix | deno/services/puppeteer.ts:71-151 | the calls made are a prefix of the plan; the scrape fails iff some planned call is fatal, and then it stops at the first fatal call, whose error is reported |
| Puppeteer.Waits | deno/services/puppeteer.ts:97-103 | selector waits never end the run |
| Puppeteer.RunsToEnd | deno/services/puppeteer.ts:71-151 | with no fatal call, the whole plan runs and no error is reported |
| Puppeteer.ErrorSnapshot | deno/services/puppeteer.ts:143-150 | the error snapshot has title `Error`, the requested url, empty html, and the message as text or `Unknown error` |
| Puppeteer.Outcome | deno/services/puppeteer.ts:105-150 | a failure gives the error snapshot; otherwise the evaluated content, with the two screenshots only when screenshots are favoured |
| Puppeteer.ScreenshotsOnlyWhenFavoured | deno/services/puppeteer.ts:132-135 | no screenshot is taken unless screenshots are favoured |
| Puppeteer.WaitFailuresIgnored | deno/services/puppeteer.ts:97-103 | if only selector waits fail, the whole plan runs and the snapshot carries no error |
| Puppeteer.LaunchRequestFor | deno/services/puppeteer.ts:52-68 | Chrome is launched with the configured path, the five flags and a 10 s timeout; the page bypasses CSP and has a 1920×1080 viewport |
| Puppeteer.RunPage | deno/services/puppeteer.ts:79-151 | the page calls made are exactly the executed prefix of the plan, and the snapshot is the one the first fatal call (if any) decides |
| Puppeteer.FinishPage | deno/services/puppeteer.ts:97-151 | the same holds for the calls after navigation |
| Puppeteer.PuppeteerService.constructor | deno/services/puppeteer.ts:45-47 | no browser or page yet; the Chrome path is `PUPPETEER_EXECUTABLE_PATH` when non-empty, else the default |
| Puppeteer.PuppeteerService.Init | deno/services/puppeteer.ts:49-69 | does nothing once a browser exists; otherwise it launches, and it keeps the browser (and the page) as far as the launch got before any throw |
| Puppeteer.PuppeteerService.Scrap | deno/services/puppeteer.ts:71-152 | without a browser, `init` runs and the browser and page are kept as far as the launch got; rejects iff that launch fails; without a page every call throws; with a page the calls and snapshot are those `RunPage` specifies |
| Puppeteer.PuppeteerService.Close | deno/services/puppeteer.ts:154-160 | closes and forgets the browser and page; a failing close keeps them and propagates its error |
| ReaderRoute.Banner | deno/main.ts:42 | the banner text begins with its title line and a blank line |
| ReaderRoute.RespondWith | deno/main.ts:32 | the `X-Respond-With` header when it is non-empty, else `markdown` |
| ReaderRoute.Target | deno/main.ts:40 | the path without its first character |
| ReaderRoute.Normalised | deno/main.ts:48 | a URL not starting with `http` gets `http://` prepended |
| ReaderRoute.Classify | deno/main.ts:35-54 | not-found iff the path is under `/instant-screenshots/`; banner iff the target is empty or `favicon.ico`; scrape iff the normalised target parses with protocol http: or https:; otherwise invalid |
| ReaderRoute.OptionsFor | deno/main.ts:61-66 | screenshots are favoured iff the mode is screenshot or pageshot; the timeout is `parseInt(X-Timeout \|\| '30000')`; the user agent is `X-User-Agent`, else `User-Agent`; the selector is `X-Wait-For-Selector` |
| ReaderRoute.MissingTimeoutHeaderMeans30s | deno/main.ts:63 | without `X-Timeout` the timeout is 30 000 ms |
| ReaderRoute.ImageUrl | deno/main.ts:72-82 | `http://<host>/instant-screenshots/<uuid>.png`, with `undefined` as the host when the header is missing |
| ReaderRoute.ResponseJson | deno/main.ts:100 | the two-space JSON dump starts with the title and url members and ends the object |
| ReaderRoute.Body | deno/main.ts:96-100 | content, else html, else text, else the JSON dump; never empty |
| ReaderRoute.ContentType | deno/main.ts:102-104 | `text/html` iff the mode is html, otherwise UTF-8 plain text |
| ReaderRoute.HandleReader | deno/main.ts:30-105 | with `c.req.path` read as the property it is, the handler's reply is the one `ReaderReply` specifies |
| ReaderRoute.Answer | deno/main.ts:72-104 | after the scrape, the reply is the one `Respond` specifies |
| ReaderRoute.NoBrowserBeforeScrape | deno/main.ts:30-54 | the browser is not consulted unless the URL is valid; 404 iff the screenshot prefix; the banner iff the target is empty or `favicon.ico` |
| ReaderRoute.LaunchFailureEscapes | deno/main.ts:57-58 | a failed launch escapes the handler as its error |
| ReaderRoute.RedirectsOnlyToImages | deno/main.ts:88-93 | a redirect happens only in screenshot or pageshot mode, and only to a stored image URL |
| ReaderRoute.ScreenshotModeRedirects | deno/main.ts:72-89 | a successful screenshot scrape redirects to the first stored image |
| ReaderRoute.ImageOnlyBody | deno/main.ts:96-100 | a response with none of content, html or text is answered with its JSON dump |
| ReaderRoute.FailedScreenshotDumpsJson | deno/main.ts:72-100 | a screenshot-mode scrape that fails is answered 200 with the JSON dump, whose title is `Error` |
| ReaderRoute.MarkdownModeBody | deno/main.ts:85-104 | in markdown mode the body is the Markdown of the snapshot, as plain text |
| ReaderRoute.HtmlModeBody | deno/main.ts:85-104 | in html mode with non-empty html, the body is that html, typed `text/html` |
| ReaderRoute.UnknownModeDumpsTitleAndUrl | deno/main.ts:96-100 | an unknown mode is answered with the JSON dump of title and url |
| ReaderRoute.AsWrittenDiffers | deno/main.ts:31 | the handler as written, which calls `c.req.path()`, agrees with the intended one only where the intended one itself crashes with that same error |
| ReaderRoute.RootPathCrashesAsWritten | deno/main.ts:31 | for the root path, the intended reply is the 200 banner, but as written the handler crashes with `c.req.path is not a function` |

## Findings

| source | as written | input that shows it | evidently intended | confidence | as-written member | corrected member |
|---|---|---|---|---|---|---|
| deno/main.ts:31 | `c.req.path()` calls Hono's `path`, which is a string property, so the handler throws a TypeError before routing | any request reaching the catch-all, e.g. `GET /` | read `c.req.path` and route on it: `/` answers the 200 banner | high (not executed) | ReaderRoute.RootPathCrashesAsWritten | ReaderRoute.HandleReader |

## Left out

- Network, filesystem and storage I/O are parameters, not effects. This covers:
  - the HTTP clients and Chrome are functions from request to outcome. Their failures are modelled as outcomes, but which inputs produce which failure is not (for example, which URLs httpx refuses to parse);
  - `saveScreenshot` and its failures are not modelled;
  - the static screenshot route `deno/main.ts:12-27`, which reads files;
  - `FirebaseStorageBucketControl` in `shared/index.ts`, which is entirely filesystem work.
- Logging (`log.Printf`, `console.*`, the `Logger` class) is left out: it does not affect any result.
- Timeouts, cancellation contexts and concurrency between requests are left out. Every call runs to completion, one at a time.
- The MCP SDKs, Go and Python, are left out. That includes:
  - their JSON-RPC framing, their schema validation (-32602) and their JSON parse errors (-32700);
  - the streamable-HTTP transport;
  - `StreamableHTTPOptions` and the port parsing in `server.py`.
- GoReaderServer.McpServer.AddTool: modelled as a map update. The SDK's handling of a duplicate name is not part of this model.
- GoReaderServer.ManualFetch: the decoding of `FetchParams` by `json.Unmarshal` is an input (`Decoded`). Its case-insensitive field match, `null` arguments decoding to an empty url, and which payloads fail to decode are not modelled.
- Hono's built-in behaviour is abstract:
  - the `notFound` body;
  - the redirect status code;
  - CORS headers;
  - the 500 reply of an uncaught error. The model returns `Crashed(error)` instead.
- The WHATWG URL parser is a parameter: it gives the protocol and the serialised `href`.
- `Readability`, the `JSDOM` parse and `page.evaluate` are abstract:
  - the DOM is the sequence of elements the queries see;
  - the evaluated content is part of the page behaviour.
- Python values:
  - floats, nested containers in `str`, and Python's full `repr` escaping are approximated;
  - `model_dump` is taken to produce only the fields that are set.
- Query values in `CrawlerOptions.from` are strings only; arrays from repeated query keys are left out.
- Js.ParseInt: exact for decimal and hex integers. It does not model rounding to IEEE-754 doubles for very long digit strings.
- The V8 message for a call on an undefined page is written out only for the first call `scrap` would make: `setUserAgent` when a user agent is given, else `goto`. The model uses it only as the snapshot's text.
- The three `crypto.randomUUID()` calls per request are independent parameters, and nothing is assumed about their distinctness.
- ReaderRoute.Banner: states only the banner's first line and the blank line after it. The remaining lines are in the body as constants.
- `ReaderResponse.error` is never set by `formatSnapshot`, so it is not a field of the model.
- The typed handlers `FetchMarkdown` … `FetchPageshot` are never registered by `main`. They are modelled and shown to agree with `manualFetch`, but nothing calls them.
