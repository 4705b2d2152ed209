/** The chat page: the `/tool` directive parser, the hint listing the known
    tools, and the two handlers that drive the message list, `onSend` and
    `onListTools`. The page's state (the messages, the input box and the
    tool list) is a class whose fields the handlers update. */
module App {
  import opened Wrappers
  import opened Json
  import opened Text
  import opened Protocol
  import opened Mcp

  datatype Role = User | Assistant | System

  datatype Msg = Msg(role: Role, text: string)

  /** The first message of every session. */
  const Greeting: string := "Connected UI. Use /tool <name> <jsonArgs> to call tools."

  // ---------------------------------------------------------------------
  // `parseSlash`: `/^\s*\/tool\s+(\S+)\s+([\s\S]+)$/`, then `JSON.parse` of
  // the second capture.

  /** A text split the way the regular expression reads it: leading
      whitespace, `/tool`, whitespace, the name, whitespace, the remainder. */
  datatype Parts = Parts(lead: string, gap1: string, name: string, gap2: string, rest: string)

  /** `p` is one way the regular expression can match the whole of `s`. */
  predicate Shape(s: string, p: Parts) {
    && s == p.lead + ("/tool" + (p.gap1 + (p.name + (p.gap2 + p.rest))))
    && AllSpace(p.lead)
    && p.gap1 != [] && AllSpace(p.gap1)
    && p.name != [] && NoSpace(p.name)
    && p.gap2 != [] && AllSpace(p.gap2)
    && p.rest != []
  }

  /** The second `\s+` and the remainder `([\s\S]+)$`: the greedy run of
      whitespace, giving its last character back when nothing follows it. */
  function Remainder(x: string): (r: Option<(string, string)>)
    ensures r.Some? ==> x == r.value.0 + r.value.1 && r.value.0 != [] && AllSpace(r.value.0) && r.value.1 != []
  {
    var d := SpaceRun(x);
    if d == 0 then None
    else if d < |x| then
      assert x == x[..d] + x[d..];
      Some((x[..d], x[d..]))
    else if d >= 2 then
      assert x == x[..d - 1] + x[d - 1..];
      assert AllSpace(x[..d - 1]) by { assert x[..d - 1] == x[..d][..d - 1]; }
      Some((x[..d - 1], x[d - 1..]))
    else None
  }

  /** The name `(\S+)`, a greedy run of non-whitespace, and what follows it. */
  function NameThenRest(v: string): (r: Option<(string, string, string)>)
    ensures r.Some? ==> && v == r.value.0 + (r.value.1 + r.value.2)
                        && r.value.0 != [] && NoSpace(r.value.0)
                        && r.value.1 != [] && AllSpace(r.value.1) && r.value.2 != []
  {
    var c := WordRun(v);
    if c == 0 then None
    else match Remainder(v[c..])
      case None => None
      case Some((g, rest)) =>
        assert v == v[..c] + v[c..];
        Some((v[..c], g, rest))
  }

  /** `/tool`, then the first `\s+`, the name and the rest. */
  function AfterSlash(t: string): (r: Option<Parts>)
    ensures r.Some? ==> && r.value.lead == []
                        && t == "/tool" + (r.value.gap1 + (r.value.name + (r.value.gap2 + r.value.rest)))
                        && r.value.gap1 != [] && AllSpace(r.value.gap1)
                        && r.value.name != [] && NoSpace(r.value.name)
                        && r.value.gap2 != [] && AllSpace(r.value.gap2) && r.value.rest != []
  {
    if |t| < 5 || t[..5] != "/tool" then None
    else
      var u := t[5..];
      var b := SpaceRun(u);
      if b == 0 then None
      else match NameThenRest(u[b..])
        case None => None
        case Some((n, g, rest)) =>
          Reassemble(t, 5, b);
          Some(Parts([], u[..b], n, g, rest))
  }

  lemma Reassemble(t: string, i: nat, b: nat)
    requires i <= |t| && b <= |t[i..]|
    ensures t == t[..i] + (t[i..][..b] + t[i..][b..])
  {
    assert t[i..] == t[i..][..b] + t[i..][b..];
  }

  /** The match the regular expression finds: every greedy run is maximal,
      except that when the text ends in whitespace after the name, the last
      whitespace character is given back to be the remainder. */
  function SlashParts(s: string): (r: Option<Parts>)
    ensures r.Some? ==> Shape(s, r.value)
  {
    var a := SpaceRun(s);
    match AfterSlash(s[a..])
    case None => None
    case Some(p) =>
      WithLead(s, a, p);
      Some(p.(lead := s[..a]))
  }

  lemma WithLead(s: string, a: nat, p: Parts)
    requires a <= |s| && AllSpace(s[..a])
    requires && s[a..] == "/tool" + (p.gap1 + (p.name + (p.gap2 + p.rest)))
             && p.gap1 != [] && AllSpace(p.gap1)
             && p.name != [] && NoSpace(p.name)
             && p.gap2 != [] && AllSpace(p.gap2) && p.rest != []
    ensures Shape(s, p.(lead := s[..a]))
  {
    assert s == s[..a] + s[a..];
  }

  lemma RemainderComplete(g: string, rest: string)
    requires g != [] && AllSpace(g) && rest != []
    ensures Remainder(g + rest).Some? && |Remainder(g + rest).value.1| <= |rest|
    ensures !IsSpace(rest[0]) ==> Remainder(g + rest) == Some((g, rest))
  {
    SpaceRunOver(g, rest);
    assert (g + rest)[..|g|] == g && (g + rest)[|g|..] == rest;
    var e := SpaceRun(rest);
    if |g| + e == |g + rest| {
      assert e == |rest|;
    }
  }

  lemma NameComplete(n: string, g: string, rest: string)
    requires n != [] && NoSpace(n) && g != [] && AllSpace(g) && rest != []
    ensures var r := NameThenRest(n + (g + rest)); r.Some? && r.value.0 == n && |r.value.2| <= |rest|
    ensures !IsSpace(rest[0]) ==> NameThenRest(n + (g + rest)) == Some((n, g, rest))
  {
    var v := n + (g + rest);
    WordRunOver(n, g + rest);
    assert v[..|n|] == n && v[|n|..] == g + rest;
    RemainderComplete(g, rest);
  }

  lemma AfterSlashComplete(w: string, n: string, g: string, rest: string)
    requires w != [] && AllSpace(w) && n != [] && NoSpace(n) && g != [] && AllSpace(g) && rest != []
    ensures var r := AfterSlash("/tool" + (w + (n + (g + rest))));
      r.Some? && r.value.name == n && |r.value.rest| <= |rest|
    ensures !IsSpace(rest[0]) ==> AfterSlash("/tool" + (w + (n + (g + rest)))) == Some(Parts([], w, n, g, rest))
  {
    var v := n + (g + rest);
    var t := "/tool" + (w + v);
    assert t[..5] == "/tool" && t[5..] == w + v;
    assert v[0] == n[0];
    SpaceRunOver(w, v);
    assert (w + v)[|w|..] == v && (w + v)[..|w|] == w;
    NameComplete(n, g, rest);
  }

  /** Whenever the regular expression can match, the parser finds a match
      with the same name and the shortest remainder: the name is determined
      by the text, and the second `\s+` is greedy, so a remainder that does
      not start with whitespace is found as it is. */
  lemma SlashPartsComplete(s: string, p: Parts)
    requires Shape(s, p)
    ensures SlashParts(s).Some?
    ensures SlashParts(s).value.name == p.name
    ensures |SlashParts(s).value.rest| <= |p.rest|
    ensures !IsSpace(p.rest[0]) ==> SlashParts(s) == Some(p)
  {
    var t := "/tool" + (p.gap1 + (p.name + (p.gap2 + p.rest)));
    assert t[0] == '/';
    SpaceRunOver(p.lead, t);
    assert s[|p.lead|..] == t && s[..|p.lead|] == p.lead;
    AfterSlashComplete(p.gap1, p.name, p.gap2, p.rest);
  }

  /** The regular expression matches exactly when the text has the shape
      `\s* /tool \s+ name \s+ rest` with a non-empty name free of whitespace
      and a non-empty remainder; `/tool ping` alone has none. */
  lemma SlashMatches(s: string)
    ensures SlashParts(s).Some? <==> exists p :: Shape(s, p)
  {
    if SlashParts(s).None? && exists p :: Shape(s, p) {
      var p :| Shape(s, p);
      SlashPartsComplete(s, p);
    }
  }

  /** A directive needs arguments: `/tool ping` alone is not one. */
  lemma BareToolIsNoDirective()
    ensures ParseSlash("/tool ping").None?
  {
    assert Remainder("").None?;
    assert WordRun("ping") == 4 by {
      assert "ping"[1..] == "ing" && "ing"[1..] == "ng" && "ng"[1..] == "g" && "g"[1..] == "";
    }
    assert "ping"[4..] == "";
    assert NameThenRest("ping").None?;
    var t := "/tool ping";
    assert t[..5] == "/tool" && t[5..] == " ping";
    assert SpaceRun(" ping") == 1 by { assert " ping"[1..] == "ping"; }
    assert " ping"[1..] == "ping";
    assert AfterSlash(t).None?;
    assert SpaceRun(t) == 0;
    assert t[0..] == t;
  }

  /** A directive: the tool to call and its arguments. */
  datatype Directive = Directive(name: string, args: Json)

  /** The arguments: the remainder as JSON, or `{}` when it is not JSON. */
  function ArgsOf(rest: string): Json {
    match Parse(rest)
    case Some(j) => j
    case None => JObj([])
  }

  /** `parseSlash(s)`. */
  function ParseSlash(s: string): (r: Option<Directive>)
    ensures r.Some? ==> r.value.name != [] && NoSpace(r.value.name)
  {
    match SlashParts(s)
    case None => None
    case Some(p) => Some(Directive(p.name, ArgsOf(p.rest)))
  }

  /** A text is a directive exactly when the regular expression can match it;
      its name is then the one every match agrees on, a non-empty word. */
  lemma ParseSlashMatches(s: string)
    ensures ParseSlash(s).Some? <==> exists p :: Shape(s, p)
    ensures ParseSlash(s).Some? ==> ParseSlash(s).value.name != [] && NoSpace(ParseSlash(s).value.name)
    ensures ParseSlash(s).Some? ==> forall p :: Shape(s, p) ==> ParseSlash(s).value.name == p.name
  {
    SlashMatches(s);
    if ParseSlash(s).Some? {
      forall q | Shape(s, q) ensures ParseSlash(s).value.name == q.name { SlashPartsComplete(s, q); }
    }
  }

  /** The arguments are the remainder's JSON value, whatever kind of value it
      is, and the empty object exactly when the remainder is not JSON. */
  lemma ParseSlashArgs(s: string)
    requires SlashParts(s).Some?
    ensures var rest := SlashParts(s).value.rest;
      && (Parse(rest).Some? ==> ParseSlash(s).value.args == Parse(rest).value)
      && (Parse(rest).None? ==> ParseSlash(s).value.args == JObj([]))
  {
  }

  /** The first example the page shows: `/tool math.add {"a":2,"b":3}`
      calls `math.add` with the object `{ a: 2, b: 3 }`. */
  lemma AddExample(s: string)
    requires s == "/tool math.add {\"a\":2,\"b\":3}"
    ensures ParseSlash(s) == Some(Directive("math.add", JObj([Member("a", JNum(2)), Member("b", JNum(3))])))
  {
    var p := Parts("", " ", "math.add", " ", "{\"a\":2,\"b\":3}");
    AddShape(s, p);
    SlashPartsComplete(s, p);
    AddArguments();
  }

  lemma AddShape(s: string, p: Parts)
    requires s == "/tool math.add {\"a\":2,\"b\":3}"
    requires p == Parts("", " ", "math.add", " ", "{\"a\":2,\"b\":3}")
    ensures Shape(s, p) && !IsSpace(p.rest[0])
  {
    AddText();
    assert s == [] + s;
    assert NoSpace("math.add");
    assert AllSpace(" ") && AllSpace([]);
  }

  lemma AddText()
    ensures "/tool math.add {\"a\":2,\"b\":3}" == "/tool" + (" " + ("math.add" + (" " + "{\"a\":2,\"b\":3}")))
  {
  }

  lemma AddArguments()
    ensures Parse("{\"a\":2,\"b\":3}") == Some(JObj([Member("a", JNum(2)), Member("b", JNum(3))]))
  {
    var ms := [Member("a", JNum(2)), Member("b", JNum(3))];
    assert Quote("a") == "\"a\"" by { assert "a"[1..] == ""; }
    assert Quote("b") == "\"b\"" by { assert "b"[1..] == ""; }
    assert RenderMember(ms[0], "", "") == "\"a\":2";
    assert RenderMember(ms[1], "", "") == "\"b\":3";
    assert ms[1..] == [Member("b", JNum(3))];
    assert RenderMembers(ms, "", "") == "\"a\":2,\"b\":3";
    assert Stringify(JObj(ms)) == "{\"a\":2,\"b\":3}";
    ParseStringify(JObj(ms));
  }

  // ---------------------------------------------------------------------
  // `toolHint`

  /** One line of the hint: `- name`, then `: description` when it is truthy. */
  function HintLine(t: Tool): (r: string)
    ensures |r| >= 2 && r[..2] == "- "
  {
    "- " + t.name + (if HasDescription(t) then ": " + t.description.value else "")
  }

  function HintLines(ts: seq<Tool>): (r: seq<string>)
    ensures |r| == |ts| && forall i :: 0 <= i < |ts| ==> r[i] == HintLine(ts[i])
  {
    if ts == [] then [] else [HintLine(ts[0])] + HintLines(ts[1..])
  }

  /** `tools.map(t => ...).join("\n")`. The "Available tools" block is
      shown exactly when some tool is known. */
  function ToolHint(ts: seq<Tool>): (r: string)
    ensures r != "" <==> ts != []
  {
    JoinEmpty(HintLines(ts), "\n");
    Join(HintLines(ts), "\n")
  }

  lemma HintLineUnbroken(t: Tool)
    requires '\n' !in t.name && (t.description.Some? ==> '\n' !in t.description.value)
    ensures '\n' !in HintLine(t)
  {
    var d := if HasDescription(t) then ": " + t.description.value else "";
    assert HintLine(t) == "- " + t.name + d;
    assert '\n' !in d;
  }

  /** The hint has one line per tool, in order, when no name or description breaks a line. */
  lemma ToolHintLines(ts: seq<Tool>)
    requires ts != []
    requires forall i :: 0 <= i < |ts| ==> '\n' !in ts[i].name && (ts[i].description.Some? ==> '\n' !in ts[i].description.value)
    ensures Split(ToolHint(ts), '\n') == HintLines(ts)
  {
    var ls := HintLines(ts);
    forall i | 0 <= i < |ls| ensures '\n' !in ls[i] {
      HintLineUnbroken(ts[i]);
    }
    SplitJoin(ls, '\n');
  }

  function Names(ts: seq<Tool>): (r: seq<string>)
    ensures |r| == |ts| && forall i :: 0 <= i < |ts| ==> r[i] == ts[i].name
  {
    if ts == [] then [] else [ts[0].name] + Names(ts[1..])
  }

  // ---------------------------------------------------------------------
  // The handlers, specified by the messages they append.

  /** The error of a failed `connectMcp()`: from `new URL`, or from the handshake. */
  function ConnectError(urlCheck: Outcome, handshake: Outcome): Option<string> {
    if urlCheck.Fail? then Some(urlCheck.error)
    else if handshake.Fail? then Some(handshake.error)
    else None
  }

  /** The assistant's answer to a directive, from the outcome of `callTool`. */
  function ToolAnswer(out: Result<Json>): string {
    match out
    case Ok(v) => StringifyIndented(v)
    case Err(e) => "Error: " + e
  }

  /** What one send appends and the error it rejects with. */
  datatype Turn = Turn(appended: seq<Msg>, thrown: Outcome)

  /** What follows the user message for the text `text` read as `cmd`:
      connecting happens outside the `try`, so a failed connection
      rejects and leaves the user message without an answer. */
  function Answer(text: string, cmd: Option<Directive>, connected: bool, urlCheck: Outcome, handshake: Outcome, remote: Result<Json>): Turn {
    match cmd
    case None => Turn([Msg(Assistant, "(local) You said: " + text)], Pass)
    case Some(d) =>
      if !connected && ConnectError(urlCheck, handshake).Some? then
        Turn([], Fail(ConnectError(urlCheck, handshake).value))
      else
        var out := match remote case Ok(res) => Ok(Normalize(res)) case Err(e) => Err(e);
        Turn([Msg(Assistant, ToolAnswer(out))], Pass)
  }

  /** What one `onSend` does for the trimmed input `text`. */
  function SendTurn(text: string, connected: bool, urlCheck: Outcome, handshake: Outcome, remote: Result<Json>): Turn {
    if text == "" then Turn([], Pass)
    else
      var a := Answer(text, ParseSlash(text), connected, urlCheck, handshake, remote);
      Turn([Msg(User, text)] + a.appended, a.thrown)
  }

  /** Ordinary text is echoed locally: exactly the user message, then the local answer. */
  lemma SendEchoes(text: string, connected: bool, urlCheck: Outcome, handshake: Outcome, remote: Result<Json>)
    requires text != "" && ParseSlash(text).None?
    ensures SendTurn(text, connected, urlCheck, handshake, remote)
            == Turn([Msg(User, text), Msg(Assistant, "(local) You said: " + text)], Pass)
  {
  }

  /** A directive gets exactly one answer after the user message once the
      client is there: the tool's value pretty-printed, or the error. */
  lemma SendAnswersDirective(text: string, connected: bool, urlCheck: Outcome, handshake: Outcome, remote: Result<Json>)
    requires text != "" && ParseSlash(text).Some?
    requires connected || ConnectError(urlCheck, handshake).None?
    ensures var turn := SendTurn(text, connected, urlCheck, handshake, remote);
      && turn.thrown == Pass && |turn.appended| == 2
      && turn.appended[0] == Msg(User, text) && turn.appended[1].role == Assistant
      && (remote.Ok? ==> turn.appended[1].text == StringifyIndented(Normalize(remote.value)))
      && (remote.Err? ==> turn.appended[1].text == "Error: " + remote.error)
  {
  }

  /** A failed connection leaves the user message alone and rejects. */
  lemma SendConnectFails(text: string, urlCheck: Outcome, handshake: Outcome, remote: Result<Json>)
    requires text != "" && ParseSlash(text).Some? && ConnectError(urlCheck, handshake).Some?
    ensures SendTurn(text, false, urlCheck, handshake, remote)
            == Turn([Msg(User, text)], Fail(ConnectError(urlCheck, handshake).value))
  {
  }

  lemma AppendAfter<T>(b: seq<T>, u: T, a: seq<T>)
    ensures (b + [u]) + a == b + ([u] + a)
  {
  }

  /** The assistant's answer to "List Tools". */
  function ListAnswer(out: Result<seq<Tool>>): Msg {
    match out
    case Ok(ts) => Msg(Assistant, "Tools: " + Join(Names(ts), ", "))
    case Err(e) => Msg(Assistant, "List tools failed: " + e)
  }

  /** What listing the tools yields: the connection's error, or the fallback chain. */
  function ListOutcome(connected: bool, urlCheck: Outcome, handshake: Outcome, primary: Result<ToolsReply>, raw: Result<ToolsReply>): Result<seq<Tool>> {
    if !connected && ConnectError(urlCheck, handshake).Some? then Err(ConnectError(urlCheck, handshake).value)
    else SelectTools(primary, raw)
  }

  /** The page's state. */
  class Chat {
    var messages: seq<Msg>
    var input: string
    var tools: seq<Tool>
    const mcp: Session
    /** `VITE_MCP_HTTP_URL`. */
    const env: Option<string>

    constructor (mcp: Session, env: Option<string>)
      ensures messages == [Msg(System, Greeting)] && input == "" && tools == []
      ensures this.mcp == mcp && this.env == env
    {
      messages := [Msg(System, Greeting)];
      input := "";
      tools := [];
      this.mcp := mcp;
      this.env := env;
    }

    /** The input box's `onChange`. */
    method Type(s: string)
      modifies this`input
      ensures input == s
    {
      input := s;
    }

    /** `connectMcp()` unless already connected. */
    method EnsureConnected(urlCheck: Outcome, handshake: Outcome) returns (err: Option<string>)
      modifies mcp
      ensures old(mcp.client) != null ==> err == None && mcp.client == old(mcp.client) && mcp.transports == old(mcp.transports)
      ensures old(mcp.client) == null ==> err == ConnectError(urlCheck, handshake)
      ensures old(mcp.client) == null ==> (mcp.client != null <==> urlCheck.Pass?)
      ensures old(mcp.client) == null ==>
                mcp.transports == old(mcp.transports) + (if urlCheck.Pass? then [DefaultUrl(env)] else [])
      ensures err == None ==> mcp.client != null
    {
      err := None;
      if !mcp.IsMcpConnected() {
        var c := mcp.ConnectMcp(DefaultUrl(env), urlCheck, handshake);
        if c.Err? { err := Some(c.error); }
      }
    }

    /** The rest of `onSend()` once the user message is shown: answer
        locally, or connect if need be and call the tool. Its specification
        is `Answer`. */
    method Respond(text: string, cmd: Option<Directive>, urlCheck: Outcome, handshake: Outcome, remote: Result<Json>)
      returns (thrown: Outcome)
      modifies this`messages, mcp
      ensures var a := Answer(text, cmd, old(mcp.client) != null, urlCheck, handshake, remote);
        messages == old(messages) + a.appended && thrown == a.thrown
      ensures cmd.None? || old(mcp.client) != null ==>
                mcp.client == old(mcp.client) && mcp.transports == old(mcp.transports)
      ensures cmd.Some? && old(mcp.client) == null ==>
                && (mcp.client != null <==> urlCheck.Pass?)
                && mcp.transports == old(mcp.transports) + (if urlCheck.Pass? then [DefaultUrl(env)] else [])
    {
      if cmd.None? {
        messages := messages + [Msg(Assistant, "(local) You said: " + text)];
        return Pass;
      }
      var err := EnsureConnected(urlCheck, handshake);
      if err.Some? {
        return Fail(err.value);
      }
      var out, _ := mcp.CallTool(cmd.value.name, cmd.value.args, remote);
      messages := messages + [Msg(Assistant, ToolAnswer(out))];
      thrown := Pass;
    }

    /** `onSend()` once the input is trimmed to the non-empty `text`. */
    method Submit(text: string, urlCheck: Outcome, handshake: Outcome, remote: Result<Json>) returns (thrown: Outcome)
      requires text != ""
      modifies this, mcp
      ensures var turn := SendTurn(text, old(mcp.client) != null, urlCheck, handshake, remote);
        messages == old(messages) + turn.appended && thrown == turn.thrown
      ensures input == "" && tools == old(tools)
      ensures ParseSlash(text).None? || old(mcp.client) != null ==>
                mcp.client == old(mcp.client) && mcp.transports == old(mcp.transports)
      ensures ParseSlash(text).Some? && old(mcp.client) == null ==>
                && (mcp.client != null <==> urlCheck.Pass?)
                && mcp.transports == old(mcp.transports) + (if urlCheck.Pass? then [DefaultUrl(env)] else [])
    {
      ghost var before := messages;
      input := "";
      messages := messages + [Msg(User, text)];
      var cmd := ParseSlash(text);
      thrown := Respond(text, cmd, urlCheck, handshake, remote);
      AppendAfter(before, Msg(User, text), Answer(text, cmd, old(mcp.client) != null, urlCheck, handshake, remote).appended);
    }

    /** `onSend()`, given how connecting would go and the outcome of the tool call. */
    method OnSend(urlCheck: Outcome, handshake: Outcome, remote: Result<Json>) returns (thrown: Outcome)
      modifies this, mcp
      ensures var turn := SendTurn(Trim(old(input)), old(mcp.client) != null, urlCheck, handshake, remote);
        messages == old(messages) + turn.appended && thrown == turn.thrown
      ensures input == if Trim(old(input)) == "" then old(input) else ""
      ensures tools == old(tools)
      ensures Trim(old(input)) == "" || ParseSlash(Trim(old(input))).None? || old(mcp.client) != null ==>
                mcp.client == old(mcp.client) && mcp.transports == old(mcp.transports)
      ensures Trim(old(input)) != "" && ParseSlash(Trim(old(input))).Some? && old(mcp.client) == null ==>
                && (mcp.client != null <==> urlCheck.Pass?)
                && mcp.transports == old(mcp.transports) + (if urlCheck.Pass? then [DefaultUrl(env)] else [])
    {
      var text := Trim(input);
      if text == "" {
        return Pass;
      }
      thrown := Submit(text, urlCheck, handshake, remote);
    }

    /** `onListTools()`, given how connecting would go and the replies to the
        two listing requests. Its specification is `ListOutcome` and `ListAnswer`. */
    method OnListTools(urlCheck: Outcome, handshake: Outcome, primary: Result<ToolsReply>, raw: Result<ToolsReply>)
      modifies this, mcp
      ensures var out := ListOutcome(old(mcp.client) != null, urlCheck, handshake, primary, raw);
        && messages == old(messages) + [ListAnswer(out)]
        && tools == (if out.Ok? then out.value else old(tools))
      ensures input == old(input)
      ensures old(mcp.client) != null ==> mcp.client == old(mcp.client) && mcp.transports == old(mcp.transports)
      ensures old(mcp.client) == null ==>
                && (mcp.client != null <==> urlCheck.Pass?)
                && mcp.transports == old(mcp.transports) + (if urlCheck.Pass? then [DefaultUrl(env)] else [])
    {
      var err := EnsureConnected(urlCheck, handshake);
      if err.Some? {
        messages := messages + [Msg(Assistant, "List tools failed: " + err.value)];
        return;
      }
      var t, _ := mcp.ListTools(primary, raw);
      match t
      case Err(e) =>
        messages := messages + [Msg(Assistant, "List tools failed: " + e)];
      case Ok(ts) =>
        tools := ts;
        messages := messages + [Msg(Assistant, "Tools: " + Join(Names(ts), ", "))];
    }
  }
}
