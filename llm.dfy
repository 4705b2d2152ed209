/** The client's calls to the server's LLM endpoints. Both calls catch every
    failure: `summarizeTool` degrades to a summary built locally, and
    `planToolCall` to `null`. The HTTP exchange is not modelled: its outcome,
    the decoded JSON body or a thrown error, is a parameter. */
module Llm {
  import opened Wrappers
  import opened Json
  import Mcp

  /** `s` ends in `/mcp`, so `/\/mcp$/` matches it. */
  predicate EndsWithMcp(s: string) {
    |s| >= 4 && s[|s| - 4..] == "/mcp"
  }

  /** `s.replace(/\/mcp$/, "")`: one trailing `/mcp` removed. */
  function StripMcp(s: string): (r: string)
    ensures EndsWithMcp(s) ==> r + "/mcp" == s
    ensures !EndsWithMcp(s) ==> r == s
  {
    if EndsWithMcp(s) then s[..|s| - 4] else s
  }

  lemma StripMcpAppended(x: string)
    ensures StripMcp(x + "/mcp") == x
  {
    assert (x + "/mcp")[|x + "/mcp"| - 4..] == "/mcp";
    assert (x + "/mcp")[..|x|] == x;
  }

  /** `API_BASE`: the configured MCP URL without its `/mcp` suffix, or
      `http://localhost:5179` when that is unset or empty. */
  function ApiBase(env: Option<string>): (r: string)
    ensures r != ""
    ensures env.None? || StripMcp(env.value) == "" ==> r == "http://localhost:5179"
    ensures env.Some? && StripMcp(env.value) != "" ==> r == StripMcp(env.value)
  {
    if env.Some? && StripMcp(env.value) != "" then StripMcp(env.value) else "http://localhost:5179"
  }

  /** The LLM endpoints sit beside the MCP endpoint: whenever the MCP URL ends
      in `/mcp` (the default does), the base is that URL without it; any other
      configured URL is the base itself. */
  lemma ApiBaseBesideMcp(env: Option<string>)
    ensures var url := Mcp.DefaultUrl(env);
      (EndsWithMcp(url) && url != "/mcp" ==> ApiBase(env) + "/mcp" == url)
      && (!EndsWithMcp(url) ==> ApiBase(env) == url)
  {
    if env.None? || env.value == "" {
      assert Mcp.DefaultUrl(env) == "http://localhost:5179" + "/mcp";
      StripMcpAppended("http://localhost:5179");
    }
  }

  /** A JavaScript value handed to `JSON.stringify`: a JSON value, `undefined`,
      or a value that makes it throw (a BigInt, a cycle), shown by `String(v)`. */
  datatype Value = Plain(json: Json) | Undefined | Unserializable(shown: string)

  /** `safe(v)`: `JSON.stringify(v)`, which is `undefined` for `undefined`,
      or `String(v)` when it throws. */
  function Safe(v: Value): (r: Option<string>)
    ensures v.Plain? ==> r.Some? && Parse(r.value) == Some(v.json)
    ensures v.Undefined? <==> r.None?
    ensures v.Unserializable? ==> r == Some(v.shown)
  {
    match v
    case Plain(j) => ParseStringify(j); Some(Stringify(j))
    case Undefined => None
    case Unserializable(shown) => Some(shown)
  }

  /** How a template literal shows a string or `undefined`. */
  function Show(s: Option<string>): string {
    if s.Some? then s.value else "undefined"
  }

  /** A POST with a JSON body. */
  datatype Request = Request(url: string, body: string)

  /** A property of an object given to `JSON.stringify`: left out when its value is `undefined`. */
  function Field(key: string, v: Value): seq<Member>
    requires !v.Unserializable?
  {
    if v.Plain? then [Member(key, v.json)] else []
  }

  /** The body `{ name, args, result }`, when `JSON.stringify` can write it. */
  function SummaryBody(name: string, args: Value, result: Value): Option<Json> {
    if args.Unserializable? || result.Unserializable? then None
    else Some(JObj([Member("name", JStr(name))] + Field("args", args) + Field("result", result)))
  }

  /** The request `summarizeTool` sends, when its body can be written. */
  function SummarizeRequest(env: Option<string>, name: string, args: Value, result: Value): (r: Option<Request>)
    ensures r.Some? <==> !args.Unserializable? && !result.Unserializable?
    ensures r.Some? ==> r.value.url == ApiBase(env) + "/llm/summarize"
    ensures r.Some? ==>
              Parse(r.value.body)
              == Some(JObj([Member("name", JStr(name))]
                           + (if args.Plain? then [Member("args", args.json)] else [])
                           + (if result.Plain? then [Member("result", result.json)] else [])))
  {
    match SummaryBody(name, args, result)
    case None => None
    case Some(body) =>
      ParseStringify(body);
      Some(Request(ApiBase(env) + "/llm/summarize", Stringify(body)))
  }

  /** Read through property access, the body gives back each defined field. */
  lemma SummaryFields(name: string, args: Value, result: Value)
    requires !args.Unserializable? && !result.Unserializable?
    ensures var j := SummaryBody(name, args, result).value;
      Get(j, "name") == Some(JStr(name))
      && (args.Plain? ==> Get(j, "args") == Some(args.json)) && (args.Undefined? ==> Get(j, "args").None?)
      && (result.Plain? ==> Get(j, "result") == Some(result.json)) && (result.Undefined? ==> Get(j, "result").None?)
  {
    var ms := [Member("name", JStr(name))] + Field("args", args) + Field("result", result);
    assert forall i :: 0 <= i < |ms| ==> ms[i].key in {"name", "args", "result"};
    assert ms[0] == Member("name", JStr(name));
    if args.Plain? { assert ms[1] == Member("args", args.json); }
    if result.Plain? { assert ms[|ms| - 1] == Member("result", result.json); }
  }

  /** The summary built locally when the server cannot be asked. */
  function Fallback(name: string, args: Value, result: Value): (r: string)
    ensures "Called " + name + ". Result: " <= r
  {
    "Called " + name + ". Result: " + Show(Safe(args)) + " -> " + Show(Safe(result))
  }

  /** `summarizeTool(name, args, result)` with `env` the configured MCP URL, given
      the decoded JSON of the server's answer or the error that fetching or
      decoding it threw. It never throws, and what it returns is always truthy. */
  function SummarizeTool(env: Option<string>, name: string, args: Value, result: Value, response: Result<Json>): (r: Json)
    ensures SummarizeRequest(env, name, args, result).None? || response.Err? ==> r == JStr(Fallback(name, args, result))
    ensures SummarizeRequest(env, name, args, result).Some? && response.Ok? ==>
              r == (match Get(response.value, "text")
                    case Some(t) => if Truthy(t) then t else JStr("(no response)")
                    case None => JStr("(no response)"))
    ensures Truthy(r)
  {
    if SummarizeRequest(env, name, args, result).None? then JStr(Fallback(name, args, result))
    else match response
      case Err(_) => JStr(Fallback(name, args, result))
      case Ok(j) =>
        var text := Get(j, "text");
        if text.Some? && Truthy(text.value) then text.value else JStr("(no response)")
  }

  /** How `JSON.stringify` writes an array element: `undefined` becomes `null`. */
  function Element(v: Value): Json
    requires !v.Unserializable?
  {
    if v.Plain? then v.json else JNull
  }

  predicate Serializable(vs: seq<Value>) {
    forall i :: 0 <= i < |vs| ==> !vs[i].Unserializable?
  }

  function Elements(vs: seq<Value>): (r: seq<Json>)
    requires Serializable(vs)
    ensures |r| == |vs| && forall i :: 0 <= i < |vs| ==> r[i] == Element(vs[i])
  {
    if vs == [] then [] else [Element(vs[0])] + Elements(vs[1..])
  }

  /** The request `planToolCall` sends, when its body `{ tools, user }` can be written. */
  function PlanRequest(env: Option<string>, tools: seq<Value>, user: string): (r: Option<Request>)
    ensures r.Some? <==> Serializable(tools)
    ensures r.Some? ==> r.value.url == ApiBase(env) + "/llm/plan"
    ensures r.Some? ==> Parse(r.value.body) == Some(JObj([Member("tools", JArr(Elements(tools))), Member("user", JStr(user))]))
  {
    if !Serializable(tools) then None
    else
      var body := JObj([Member("tools", JArr(Elements(tools))), Member("user", JStr(user))]);
      ParseStringify(body);
      Some(Request(ApiBase(env) + "/llm/plan", Stringify(body)))
  }

  /** `planToolCall(tools, userMessage)`: the server's decoded answer as it
      is, or `null` when the body cannot be written or the exchange fails. */
  function PlanToolCall(env: Option<string>, tools: seq<Value>, user: string, response: Result<Json>): (r: Json)
    ensures PlanRequest(env, tools, user).None? || response.Err? ==> r == JNull
    ensures PlanRequest(env, tools, user).Some? && response.Ok? ==> r == response.value
  {
    if PlanRequest(env, tools, user).None? then JNull
    else match response
      case Err(_) => JNull
      case Ok(j) => j
  }
}
