# mcp-boilerplate in Dafny

This project models the core of mcp-boilerplate. The repository has two parts:

- a Model Context Protocol (MCP) server offering a few demonstration tools;
- a browser chat page that talks to the server through the MCP client SDK.

The model covers the following.

- **The chat page** (`App.tsx`), module `App`:
  - the `/tool <name> <json>` directive parser;
  - the "Available tools" hint;
  - the page state as the class `App.Chat`: the message list, the input box and the tool list. `onSend` and `onListTools` are its methods. Each method is specified by the messages it appends and the state it leaves. The message list starts with the one system greeting.
- **The browser's MCP client** (`mcp.ts`), module `Mcp`:
  - The module-level `client` variable is the class `Mcp.Session`. `connectMcp` memoises a client in it and stores the client before the handshake.
  - The `listTools` fallback chain.
  - `callTool`, which normalises the tool result.
- **The server's tool handlers** (`index.ts`), module `Server`:
  - `ping`, `echo`, `math.add` and `http.getTitle`.
  - For `http.getTitle`, the case-insensitive `<title>` regular expression and the trim of the capture.
- **The client's LLM helpers** (`llm.ts`), module `Llm`:
  - the `API_BASE` suffix stripping;
  - `summarizeTool` and `planToolCall`, with the failure cases they catch;
  - `safe`.

Shared modules:
- `Json` — the JSON values that cross every boundary. It gives a concrete `JSON.stringify`, compact or indented by two spaces, and a `JSON.parse` as a partial function. Its central lemma is the round trip `Parse(Stringify(j)) == Some(j)`.
- `Text` — JavaScript's `trim`, `join` and the `\s`/`\S` classes.
- `Protocol` — the tool and content-item shapes of MCP.
- `Wrappers` — `Option`, `Result` and `Outcome`.

Every network and SDK call is replaced by a parameter holding its outcome. That covers `new URL`, the transport handshake, `tools/list`, `tools/call` and `fetch`. An outcome is either a value or the error string `String(e)` shows, e.g. `"Error: MCP not connected"` for the guard's `new Error("MCP not connected")`. The configured server URL (`VITE_MCP_HTTP_URL`) is an `Option<string>` parameter.

## Model

| member | source | states |
|---|---|---|
| Json.ParseStringify | packages/mcp-client/src/mcp.ts:37 | the JSON text a server handler writes with `JSON.stringify` parses back to exactly the value written |
| Json.ParseStringifyIndented | packages/mcp-client/src/App.tsx:47 | the two-space indented rendering shown for a tool result also parses back to the value |
| Json.ParseRender | packages/mcp-client/src/App.tsx:47 | for any whitespace indentation unit, parsing the rendering gives back the value |
| Json.Parse | packages/mcp-client/src/mcp.ts:37 | `JSON.parse` as a partial function: Json.ParseStringify, Json.ParseStringifyIndented and Json.ParseRender show it reads back every value the serialiser writes |
| Json.Stringify | packages/mcp-server/src/index.ts:30 | compact `JSON.stringify`; Json.ParseStringify shows that parsing undoes it for every value |
| Json.StringifyIndented | packages/mcp-client/src/App.tsx:47 | `JSON.stringify(v, null, 2)`; Json.ParseStringifyIndented shows that parsing undoes it for every value |
| Json.NumberRoundTrip | packages/mcp-server/src/index.ts:37 | an integer's decimal text, followed by anything that does not start with a digit, parses back to that integer |
| Json.StringRoundTrip | packages/mcp-server/src/index.ts:30 | a quoted, escaped string parses back to the original characters, whatever the characters |
| Text.Trim | packages/mcp-client/src/App.tsx:39 | the trimmed text neither starts nor ends with whitespace |
| Text.TrimAround | packages/mcp-client/src/App.tsx:39 | trimming removes exactly the whitespace around a core, and nothing inside it |
| Text.TrimSplits | packages/mcp-client/src/App.tsx:39 | every text is its trimmed core with a whitespace run on each side |
| Text.TrimIdempotent | packages/mcp-server/src/index.ts:54 | trimming twice is the same as trimming once |
| Text.TrimEmpty | packages/mcp-client/src/App.tsx:39 | a text trims to the empty string exactly when it is all whitespace |
| Text.SplitJoin | packages/mcp-client/src/App.tsx:68 | joining with a separator character that no part contains can be undone by splitting |
| Text.JoinEmpty | packages/mcp-client/src/App.tsx:86 | a join of non-empty parts is empty exactly when there are no parts |
| Protocol.FirstItem | packages/mcp-client/src/mcp.ts:34 | `res?.content?.[0]` exists exactly when the content array is non-empty, and it is that array's first element |
| Protocol.FirstText | packages/mcp-client/src/mcp.ts:35-36 | a first text is found exactly when the first item has type `"text"` and a string `text`, and it is that string |
| Protocol.TextResultShape | packages/mcp-server/src/index.ts:24 | a text result has exactly one content item, and its first text is the text given |
| Server.Registry | packages/mcp-server/src/index.ts:24-48 | the server registers five tools, each with a non-empty description and a name no other tool has |
| Server.Ping | packages/mcp-server/src/index.ts:24 | `ping` answers with exactly one text item, `"pong"` |
| Server.Echo | packages/mcp-server/src/index.ts:26-31 | `echo` answers with one text item whose JSON decodes to `{ message }` with the message unchanged |
| Server.MathAdd | packages/mcp-server/src/index.ts:33-38 | `math.add` answers with one text item whose JSON decodes to `{ result: a + b }` |
| Server.IndexFrom | packages/mcp-server/src/index.ts:53 | the character-class scan stops at the first occurrence of the excluded character, or reports none |
| Server.MatchAtExact | packages/mcp-server/src/index.ts:53 | a match attempt at an occurrence of the tag pattern succeeds and captures the text between the tags |
| Server.MatchAtSound | packages/mcp-server/src/index.ts:53 | a successful match attempt is an occurrence of the tag pattern |
| Server.FindFrom | packages/mcp-server/src/index.ts:53 | the search returns the first start position where an attempt succeeds, and no earlier position succeeds |
| Server.Title | packages/mcp-server/src/index.ts:53-54 | a title is already trimmed; Server.TitleNone, Server.TitleLeftmost and Server.TitleClean say which text it is |
| Server.TitleNone | packages/mcp-server/src/index.ts:53-54 | the title is `null` exactly when the page holds no occurrence of `<title…>…</title>` |
| Server.TitleLeftmost | packages/mcp-server/src/index.ts:53-54 | a title is the trimmed capture of the leftmost occurrence |
| Server.TitleClean | packages/mcp-server/src/index.ts:53-54 | a title holds no `<` and has no whitespace at either end |
| Server.TitleIgnoresCase | packages/mcp-server/src/index.ts:53 | `<TITLE>x</Title>` gives the title `"x"` |
| Server.GetTitle | packages/mcp-server/src/index.ts:50-56 | a failed fetch rejects the handler; otherwise the one text item decodes to `{ url, title }` with the URL unchanged |
| Mcp.DefaultUrl | packages/mcp-client/src/mcp.ts:6 | the URL is the configured one when that is set and non-empty, else `http://localhost:5179/mcp` |
| Mcp.Client.constructor | packages/mcp-client/src/mcp.ts:9-12 | a new client announces itself as `mcp-chat-ui` 0.1.0 and declares the capabilities `{ tools: {} }`; the URL belongs to the transport, not to the client |
| Mcp.Session.constructor | packages/mcp-client/src/mcp.ts:4 | there is no client and no transport at first |
| Mcp.Session.ConnectMcp | packages/mcp-client/src/mcp.ts:6-15 | an existing client is returned with no new transport. A URL that `new URL` rejects changes nothing. Otherwise exactly one transport is created, a fresh client is stored before the handshake, and the call fails or succeeds with the handshake. Either way `isMcpConnected()` then holds |
| Mcp.ConnectTwice | packages/mcp-client/src/mcp.ts:7 | two calls in a row return the same client, and the second creates no transport |
| Mcp.SelectTools | packages/mcp-client/src/mcp.ts:21-28 | the chain fails exactly when the primary reply has no tools and the raw request fails; Mcp.PrimaryWins and Mcp.RawFallback give the answer in each case |
| Mcp.ListCalls | packages/mcp-client/src/mcp.ts:21-28 | the SDK's `listTools` is always tried first |
| Mcp.PrimaryWins | packages/mcp-client/src/mcp.ts:23-24 | when the primary reply has tools, they are the answer and the raw request is neither made nor consulted |
| Mcp.RawFallback | packages/mcp-client/src/mcp.ts:25-28 | otherwise the raw request is made. Its failure propagates, its tools are the answer, and no tools gives `[]`, whatever the primary call did |
| Mcp.Session.IsMcpConnected | packages/mcp-client/src/mcp.ts:17 | `!!client`: a client is stored; Mcp.Session.ConnectMcp ensures it holds after every call that got past `new URL` |
| Mcp.Session.ListTools | packages/mcp-client/src/mcp.ts:19-29 | without a client it fails with `MCP not connected` and makes no request; otherwise it follows the fallback chain |
| Mcp.Session.CallTool | packages/mcp-client/src/mcp.ts:31-40 | without a client it fails and sends nothing; otherwise it sends name and arguments unchanged with timeout 60000, propagates a failure, and normalises the result |
| Mcp.Normalize | packages/mcp-client/src/mcp.ts:34-39 | with a first text item the result is the value `JSON.parse` reads from that text, whatever its layout, or the text itself when it does not parse; without one it is the whole result |
| Mcp.NormalizeJsonText | packages/mcp-client/src/mcp.ts:35-37 | a first text item holding JSON gives back the value it encodes |
| Mcp.NormalizePlainText | packages/mcp-client/src/mcp.ts:37 | a first text item that is not JSON gives back its text as a string |
| Mcp.NormalizeOther | packages/mcp-client/src/mcp.ts:39 | a result whose first item is missing or not text comes back whole |
| Llm.StripMcp | packages/mcp-client/src/llm.ts:1 | one trailing `/mcp` is removed, and a URL without it is untouched |
| Llm.StripMcpAppended | packages/mcp-client/src/llm.ts:1 | removing the suffix undoes appending it |
| Llm.ApiBase | packages/mcp-client/src/llm.ts:1 | the base is the configured URL without its `/mcp` suffix when that is non-empty; when the URL is unset, empty or exactly `/mcp` it is `http://localhost:5179` |
| Llm.ApiBaseBesideMcp | packages/mcp-client/src/llm.ts:1 | the LLM endpoints sit beside the MCP endpoint: a URL ending in `/mcp` (the default does) is the base plus `/mcp`; any other configured URL is the base itself |
| Llm.Safe | packages/mcp-client/src/llm.ts:32 | a JSON value's text parses back to it, a value `JSON.stringify` rejects gives its `String(v)` text, and only `undefined` gives no text |
| Llm.SummarizeRequest | packages/mcp-client/src/llm.ts:5-9 | a request is sent exactly when the body can be written. It goes to `API_BASE/llm/summarize`, and its body decodes to exactly the object with `name`, then `args` and `result` each only when defined, and no other member |
| Llm.SummaryFields | packages/mcp-client/src/llm.ts:8 | read through property access, the summary body gives the name, and gives the arguments and the result exactly when they are defined |
| Llm.Fallback | packages/mcp-client/src/llm.ts:14 | the local summary starts with `Called `, the tool's name and `. Result: `, so it is never empty |
| Llm.SummarizeTool | packages/mcp-client/src/llm.ts:3-16 | a truthy `text` from the server is the summary, otherwise `"(no response)"`. Any failure gives the local `Called …` summary. The result is always truthy and never an error |
| Llm.Elements | packages/mcp-client/src/llm.ts:23 | each array element is written as itself, `undefined` as `null` |
| Llm.PlanRequest | packages/mcp-client/src/llm.ts:20-24 | a request is sent exactly when the tools can be written. It goes to `API_BASE/llm/plan`, and its body decodes to `{ tools, user }` |
| Llm.PlanToolCall | packages/mcp-client/src/llm.ts:18-30 | the server's decoded answer is returned unchanged; any failure gives `null` and never an error |
| App.Remainder | packages/mcp-client/src/App.tsx:32 | the second `\s+` and the capture `([\s\S]+)$` split the rest into non-empty whitespace and a non-empty remainder |
| App.NameThenRest | packages/mcp-client/src/App.tsx:32 | the name capture `(\S+)` is a non-empty word followed by the remainder parts |
| App.AfterSlash | packages/mcp-client/src/App.tsx:32 | `/tool`, whitespace, a name, whitespace and a remainder make up the text after the leading whitespace |
| App.SlashParts | packages/mcp-client/src/App.tsx:32 | what the matcher finds is a match of the whole regular expression |
| App.SlashPartsComplete | packages/mcp-client/src/App.tsx:32 | whenever the expression can match, the matcher finds a match with the same name and the shortest remainder, and a remainder that does not start with whitespace is found as it is |
| App.SlashMatches | packages/mcp-client/src/App.tsx:32-33 | the text is a directive exactly when the regular expression can match it |
| App.ParseSlash | packages/mcp-client/src/App.tsx:31-36 | a directive's name is a non-empty word without whitespace; App.ParseSlashMatches and App.ParseSlashArgs pin down when a directive is found and what its arguments are |
| App.ParseSlashMatches | packages/mcp-client/src/App.tsx:31-34 | `parseSlash` returns a directive exactly when the expression matches; its name is non-empty, free of whitespace, and the same for every match |
| App.ParseSlashArgs | packages/mcp-client/src/App.tsx:35 | the arguments are the remainder's JSON value of any kind, or `{}` when it is not JSON |
| App.BareToolIsNoDirective | packages/mcp-client/src/App.tsx:32-33 | `/tool ping` with nothing after the name is not a directive |
| App.AddExample | packages/mcp-client/src/App.tsx:83 | the example `/tool math.add {"a":2,"b":3}` calls `math.add` with `{ a: 2, b: 3 }` |
| App.AddArguments | packages/mcp-client/src/App.tsx:83 | the example's argument text parses to `{ a: 2, b: 3 }` |
| App.HintLine | packages/mcp-client/src/App.tsx:68 | each hint line starts with `- ` |
| App.HintLines | packages/mcp-client/src/App.tsx:68 | there is one hint line per tool, in order |
| App.ToolHint | packages/mcp-client/src/App.tsx:68 | the hint is non-empty, and so shown, exactly when some tool is known; App.ToolHintLines gives its lines |
| App.ToolHintLines | packages/mcp-client/src/App.tsx:68 | when no name or description breaks a line, the hint splits back into one line per tool |
| App.Names | packages/mcp-client/src/App.tsx:62 | the listed names are the tools' names, in order |
| App.SendEchoes | packages/mcp-client/src/App.tsx:39-54 | ordinary text appends exactly the user message and then `(local) You said: ` plus the text |
| App.SendAnswersDirective | packages/mcp-client/src/App.tsx:41-50 | once a client is there, a directive appends the user message and exactly one assistant answer: the indented result or `Error: ` plus the cause |
| App.SendConnectFails | packages/mcp-client/src/App.tsx:44-45 | a failed connection leaves only the user message and rejects with the connection error |
| App.Chat.constructor | packages/mcp-client/src/App.tsx:7-13 | the page starts with the one system greeting, an empty input and no tools |
| App.Chat.Type | packages/mcp-client/src/App.tsx:107 | typing sets the input |
| App.Chat.EnsureConnected | packages/mcp-client/src/App.tsx:44 | a connection is made only when there is no client, and its error is reported |
| App.Chat.Respond | packages/mcp-client/src/App.tsx:42-54 | after the user message, the page answers locally, or connects if need be and answers with the tool's outcome. The client is untouched unless a directive arrives while disconnected; then a client is stored exactly when the URL is accepted, with one transport for it |
| App.Chat.Submit | packages/mcp-client/src/App.tsx:40-54 | a non-empty text clears the input, keeps every earlier message and appends the turn's messages. A directive sent while disconnected stores a client exactly when the URL is accepted, with one transport; otherwise the client is untouched |
| App.Chat.OnSend | packages/mcp-client/src/App.tsx:38-55 | an input that trims to nothing changes neither the messages nor the input. Otherwise the earlier messages stay and exactly the turn's messages are appended. The tools are untouched, and the client changes only for a directive sent while disconnected: a client is then stored exactly when the URL is accepted, with one transport for it |
| App.Chat.OnListTools | packages/mcp-client/src/App.tsx:57-66 | success replaces the tools and appends `Tools: ` with the names joined by `, `; failure appends `List tools failed: ` with the cause and keeps the tools. A connected client stays as it is; without one, a client is stored exactly when the URL is accepted, with one transport for it |

## Left out

- Json.Parse: JSON numbers are integers only, so a number with a fraction or an exponent is rejected where `JSON.parse` reads it. As a result App.ParseSlashArgs gives `{}` for `/tool math.add {"a":2.5,"b":3}` (App.tsx:35), and Mcp.NormalizePlainText returns the raw string for a text item `{"result":5.5}` (mcp.ts:37). `math.add` is integer addition, and the `Number` formatting of non-integers is not modelled.
- JSON strings are sequences of Dafny characters, which exclude surrogate halves. So the parser rejects a `\u` escape naming a surrogate half, which `JSON.parse` accepts, and a pair of such escapes is not combined into one character.
- Json.Lookup: an object with repeated keys is read with the last value winning, as `JSON.parse` does. The key order `JSON.stringify` uses for integer-like keys is not modelled.
- Json.StringifyIndented: a parsed object keeps every member of a repeated key, so the rendering writes that key once per member, where the program's object (App.tsx:47) holds and shows it once.
- Protocol.FirstText: a first item with type `"text"` whose `text` is not a string counts as no text item, so the whole result comes back, where the source still takes the text branch and returns `JSON.parse(first.text)` or `first.text` (mcp.ts:35-37). The SDK's schema makes `text` a string.
- `\s`, `\S` and `trim` use the ASCII whitespace characters only, not the Unicode space separators JavaScript also counts.
- The MCP SDK, the transport, `fetch`, `r.json()`, `res.text()` and the express and cors wiring are outside the model; each call's outcome is a parameter.
- The `time.now` handler reads the clock and is not modelled. The zod input schemas are not modelled: inputs are taken as already typed.
- The React rendering, the auto-scroll effect, the mount effect that connects on load (lines 16-25) and the `ready` flag are outside the model.
- Concurrency: overlapping `connectMcp` calls or turns in flight are not modelled; calls run one after another, and React's batched state updates are applied in order.
- Mcp.ToolsReply: a `tools` field that is present is taken to be an array, as the SDK's schema says, so it is always truthy. A non-array `content` or `tools` value is read as absent.
- Llm.Safe: `String(v)` for a value `JSON.stringify` rejects is a parameter (`Unserializable`); that `String(v)` can itself throw is not modelled.
- JSON.parse and JSON.stringify are given as a concrete codec with the round-trip property proved, rather than as an abstract partial function.
