/** The browser's MCP client: one module-level client, created on the first
    successful call to `connectMcp` and kept from then on, and the two calls
    made through it, `listTools` and `callTool`. The SDK's transport and
    requests are not modelled: their outcomes are parameters. */
module Mcp {
  import opened Wrappers
  import opened Json
  import opened Protocol

  /** `import.meta.env.VITE_MCP_HTTP_URL || "http://localhost:5179/mcp"`. */
  function DefaultUrl(env: Option<string>): (r: string)
    ensures r != ""
    ensures env.Some? && env.value != "" ==> r == env.value
    ensures env.None? || env.value == "" ==> r == "http://localhost:5179/mcp"
  {
    if env.Some? && env.value != "" then env.value else "http://localhost:5179/mcp"
  }

  /** What `String(e)` shows for the guard's `new Error("MCP not connected")`. */
  const NotConnected: string := "Error: MCP not connected"

  /** A client of the SDK: the identity it announces and the capabilities it
      declares, `{ tools: {} }`. The URL belongs to the transport, not to the client. */
  class Client {
    const name: string
    const version: string
    const capabilities: Json

    constructor ()
      ensures name == "mcp-chat-ui" && version == "0.1.0"
      ensures capabilities == JObj([Member("tools", JObj([]))])
    {
      name := "mcp-chat-ui";
      version := "0.1.0";
      capabilities := JObj([Member("tools", JObj([]))]);
    }
  }

  /** The reply of `tools/list`: its `tools` field, when present. */
  datatype ToolsReply = ToolsReply(tools: Option<seq<Tool>>)

  /** A request `listTools` sends: the SDK's `listTools({})`, or the raw `request`. */
  datatype ListCall = ListToolsCall | RawRequest(rpc: string)

  /** The parameters `callTool` hands to the SDK. */
  datatype CallRequest = CallRequest(name: string, arguments: Json, timeout: nat)

  /** The primary reply carries a `tools` array (an empty array is truthy too). */
  predicate HasTools(reply: Result<ToolsReply>) {
    reply.Ok? && reply.value.tools.Some?
  }

  /** The fallback chain of `listTools`: the primary reply's tools; failing
      that, the raw request's tools, or none. A failed primary call is
      swallowed, a failed raw request is not. */
  function SelectTools(primary: Result<ToolsReply>, raw: Result<ToolsReply>): (r: Result<seq<Tool>>)
    ensures r.Err? <==> !HasTools(primary) && raw.Err?
  {
    if HasTools(primary) then Ok(primary.value.tools.value)
    else match raw
      case Err(e) => Err(e)
      case Ok(ToolsReply(tools)) => Ok(if tools.Some? then tools.value else [])
  }

  /** The requests `listTools` makes, in order. */
  function ListCalls(primary: Result<ToolsReply>): (r: seq<ListCall>)
    ensures |r| >= 1 && r[0] == ListToolsCall
  {
    if HasTools(primary) then [ListToolsCall] else [ListToolsCall, RawRequest("tools/list")]
  }

  /** When the primary reply has tools, the raw request is neither made nor consulted. */
  lemma PrimaryWins(primary: Result<ToolsReply>, raw1: Result<ToolsReply>, raw2: Result<ToolsReply>)
    requires HasTools(primary)
    ensures SelectTools(primary, raw1) == SelectTools(primary, raw2) == Ok(primary.value.tools.value)
    ensures ListCalls(primary) == [ListToolsCall]
  {
  }

  /** Otherwise the result is the raw reply's, whatever went wrong with the primary call. */
  lemma RawFallback(primary: Result<ToolsReply>, raw: Result<ToolsReply>)
    requires !HasTools(primary)
    ensures raw.Err? ==> SelectTools(primary, raw) == Err(raw.error)
    ensures raw.Ok? && raw.value.tools.Some? ==> SelectTools(primary, raw) == Ok(raw.value.tools.value)
    ensures raw.Ok? && raw.value.tools.None? ==> SelectTools(primary, raw) == Ok([])
    ensures ListCalls(primary) == [ListToolsCall, RawRequest("tools/list")]
  {
  }

  /** What `callTool` returns for a tool result: the JSON its first text item
      holds, that text itself when it is not JSON, or else the whole result. */
  function Normalize(res: Json): (r: Json)
    ensures FirstText(res).Some? ==> Parse(FirstText(res).value) == Some(r) || r == JStr(FirstText(res).value)
    ensures FirstText(res).Some? && Parse(FirstText(res).value).Some? ==> r == Parse(FirstText(res).value).value
    ensures FirstText(res).Some? || r == res
  {
    match FirstText(res)
    case Some(t) => (match Parse(t) case Some(j) => j case None => JStr(t))
    case None => res
  }

  /** A text item that holds `JSON.stringify(j)` gives back `j`. */
  lemma NormalizeJsonText(res: Json, j: Json)
    requires FirstText(res) == Some(Stringify(j))
    ensures Normalize(res) == j
  {
    ParseStringify(j);
  }

  /** A text item that is not JSON gives back its text. */
  lemma NormalizePlainText(res: Json, t: string)
    requires FirstText(res) == Some(t) && Parse(t).None?
    ensures Normalize(res) == JStr(t)
  {
  }

  /** A result without a first text item comes back unchanged. */
  lemma NormalizeOther(res: Json)
    requires FirstText(res).None?
    ensures Normalize(res) == res
  {
  }

  /** The module-level `client` variable and the transports created for it. */
  class Session {
    var client: Client?
    /** The URL of every transport created, in order. */
    var transports: seq<string>

    constructor ()
      ensures client == null && transports == []
    {
      client := null;
      transports := [];
    }

    /** `isMcpConnected()`: `!!client`. */
    function IsMcpConnected(): bool
      reads this
    {
      client != null
    }

    /** `connectMcp(url)`, given whether `new URL(url)` accepts the URL and
        how the handshake of `client.connect` ends. The client is stored
        before the handshake, so it stays even when the handshake fails. */
    method ConnectMcp(url: string, urlCheck: Outcome, handshake: Outcome) returns (r: Result<Client>)
      modifies this
      ensures old(client) != null ==> r == Ok(old(client)) && client == old(client) && transports == old(transports)
      ensures old(client) == null && urlCheck.Fail? ==>
                r == Err(urlCheck.error) && client == null && transports == old(transports)
      ensures old(client) == null && urlCheck.Pass? ==>
                && client != null && fresh(client)
                && client.name == "mcp-chat-ui" && client.version == "0.1.0"
                && client.capabilities == JObj([Member("tools", JObj([]))])
                && transports == old(transports) + [url]
                && r == (if handshake.Pass? then Ok(client) else Err(handshake.error))
      ensures old(client) != null || urlCheck.Pass? ==> IsMcpConnected()
    {
      if client != null {
        return Ok(client);
      }
      if urlCheck.Fail? {
        return Err(urlCheck.error);
      }
      transports := transports + [url];
      client := new Client();
      if handshake.Fail? {
        return Err(handshake.error);
      }
      r := Ok(client);
    }

    /** `listTools()`, given the replies of the SDK's `listTools({})` and of
        the raw `tools/list` request. Step by step as the source goes; its
        specification is `SelectTools` and `ListCalls`. */
    method ListTools(primary: Result<ToolsReply>, raw: Result<ToolsReply>) returns (r: Result<seq<Tool>>, calls: seq<ListCall>)
      ensures client == null ==> r == Err(NotConnected) && calls == []
      ensures client != null ==> r == SelectTools(primary, raw) && calls == ListCalls(primary)
    {
      if client == null {
        return Err(NotConnected), [];
      }
      calls := [ListToolsCall];
      if primary.Ok? && primary.value.tools.Some? {
        return Ok(primary.value.tools.value), calls;
      }
      calls := calls + [RawRequest("tools/list")];
      match raw
      case Err(e) => r := Err(e);
      case Ok(reply) =>
        r := if reply.tools.Some? then Ok(reply.tools.value) else Ok([]);
    }

    /** `callTool(name, args)`, given the outcome of the SDK call it makes.
        Step by step as the source goes; its specification is `Normalize`. */
    method CallTool(name: string, args: Json, remote: Result<Json>) returns (r: Result<Json>, sent: Option<CallRequest>)
      ensures client == null ==> r == Err(NotConnected) && sent == None
      ensures client != null ==> sent == Some(CallRequest(name, args, 60000))
      ensures client != null && remote.Ok? ==> r == Ok(Normalize(remote.value))
      ensures client != null && remote.Err? ==> r == Err(remote.error)
    {
      if client == null {
        return Err(NotConnected), None;
      }
      sent := Some(CallRequest(name, args, 60000));
      match remote
      case Err(e) => r := Err(e);
      case Ok(res) =>
        var first := FirstText(res);
        if first.Some? {
          var parsed := Parse(first.value);
          r := if parsed.Some? then Ok(parsed.value) else Ok(JStr(first.value));
        } else {
          r := Ok(res);
        }
    }
  }

  /** Connecting twice in a row gives the same client, and the second call creates no transport. */
  method ConnectTwice(s: Session, url1: string, url2: string, check1: Outcome, check2: Outcome, hs1: Outcome, hs2: Outcome)
    returns (first: Result<Client>, second: Result<Client>)
    requires s.client == null
    modifies s
    ensures check1.Pass? ==> second.Ok? && second.value == s.client && s.transports == old(s.transports) + [url1]
    ensures first.Ok? ==> second == first
  {
    first := s.ConnectMcp(url1, check1, hs1);
    second := s.ConnectMcp(url2, check2, hs2);
  }
}
