/** The reference MCP server's tool handlers: `ping`, `echo`, `math.add`
    and `http.getTitle`, each building a result with one text item whose
    text is JSON (or plain text for `ping`). */
module Server {
  import opened Wrappers
  import opened Json
  import opened Text
  import opened Protocol

  /** The tools the server registers, in registration order. */
  function Registry(): (r: seq<Tool>)
    ensures |r| == 5 && forall i :: 0 <= i < |r| ==> HasDescription(r[i])
    ensures forall i, j :: 0 <= i < j < |r| ==> r[i].name != r[j].name
  {
    [ Tool("ping", Some("Health check")),
      Tool("echo", Some("Echo back a message")),
      Tool("math.add", Some("Add two numbers")),
      Tool("time.now", Some("Return current ISO timestamp")),
      Tool("http.getTitle", Some("Fetch a URL and attempt to extract <title>")) ]
  }

  /** `ping`: one text item, `"pong"`. */
  function Ping(): (r: Json)
    ensures Items(r) == [TextItem("pong")] && FirstText(r) == Some("pong")
  {
    TextResultShape("pong");
    TextResult("pong")
  }

  /** `echo`: one text item whose JSON reads back as `{ message }`. */
  function Echo(message: string): (r: Json)
    ensures |Items(r)| == 1 && FirstText(r).Some?
    ensures Parse(FirstText(r).value) == Some(JObj([Member("message", JStr(message))]))
  {
    var body := JObj([Member("message", JStr(message))]);
    TextResultShape(Stringify(body));
    ParseStringify(body);
    TextResult(Stringify(body))
  }

  /** `math.add`: one text item whose JSON reads back as `{ result: a + b }`. */
  function MathAdd(a: int, b: int): (r: Json)
    ensures |Items(r)| == 1 && FirstText(r).Some?
    ensures Parse(FirstText(r).value) == Some(JObj([Member("result", JNum(a + b))]))
  {
    var body := JObj([Member("result", JNum(a + b))]);
    TextResultShape(Stringify(body));
    ParseStringify(body);
    TextResult(Stringify(body))
  }

  // ---------------------------------------------------------------------
  // `/<title[^>]*>([^<]*)<\/title>/i` followed by `trim()`.

  /** The first index at or after `i` where `s` holds `c`. */
  function IndexFrom(s: string, i: nat, c: char): (r: Option<nat>)
    requires i <= |s|
    ensures r.Some? ==> i <= r.value < |s| && s[r.value] == c && c !in s[i..r.value]
    ensures r.None? ==> c !in s[i..]
    decreases |s| - i
  {
    if i == |s| then None
    else if s[i] == c then
      assert s[i..i] == [];
      Some(i)
    else
      var r := IndexFrom(s, i + 1, c);
      assert s[i..] == [s[i]] + s[i + 1..];
      assert r.Some? ==> s[i..r.value] == [s[i]] + s[i + 1..r.value];
      r
  }

  /** The regular expression matches at position `p`: the opening tag runs
      from `p` to the `>` at `a`, the capture from `a + 1` to `b`, and the
      closing tag starts at `b`. */
  ghost predicate OccursAt(html: string, p: nat, a: nat, b: nat) {
    p + 6 <= a < b && b + 8 <= |html|
    && EqualsFolded(html[p..p + 6], "<title") && '>' !in html[p + 6..a] && html[a] == '>'
    && '<' !in html[a + 1..b] && EqualsFolded(html[b..b + 8], "</title>")
  }

  /** The capture of a match attempt at position `p`. Both character classes
      stop at the first character they exclude, so the attempt never backtracks. */
  function MatchAt(html: string, p: nat): Option<string>
    requires p <= |html|
  {
    if p + 6 > |html| || !EqualsFolded(html[p..p + 6], "<title") then None
    else
      match IndexFrom(html, p + 6, '>')
      case None => None
      case Some(a) =>
        match IndexFrom(html, a + 1, '<')
        case None => None
        case Some(b) =>
          if b + 8 <= |html| && EqualsFolded(html[b..b + 8], "</title>") then Some(html[a + 1..b]) else None
  }

  lemma IndexFromFinds(s: string, i: nat, c: char, k: nat)
    requires i <= k < |s| && s[k] == c && c !in s[i..k]
    ensures IndexFrom(s, i, c) == Some(k)
  {
    assert s[i..][k - i] == c;
  }

  lemma FoldedLess(s: string, pat: string, i: nat)
    requires EqualsFolded(s, pat) && i < |s| && pat[i] == '<'
    ensures s[i] == '<'
  {
    assert Fold(s[i]) == '<';
  }

  /** A match attempt succeeds exactly at an occurrence, and captures its text. */
  lemma MatchAtExact(html: string, p: nat, a: nat, b: nat)
    requires OccursAt(html, p, a, b)
    ensures MatchAt(html, p) == Some(html[a + 1..b])
  {
    IndexFromFinds(html, p + 6, '>', a);
    FoldedLess(html[b..b + 8], "</title>", 0);
    IndexFromFinds(html, a + 1, '<', b);
  }

  lemma MatchAtSound(html: string, p: nat)
    requires p <= |html| && MatchAt(html, p).Some?
    ensures exists a: nat, b: nat :: OccursAt(html, p, a, b) && MatchAt(html, p) == Some(html[a + 1..b])
  {
    var a := IndexFrom(html, p + 6, '>').value;
    var b := IndexFrom(html, a + 1, '<').value;
    assert OccursAt(html, p, a, b);
  }

  /** The leftmost match at or after `p`, with its position: the regular
      expression tries the start positions in order. */
  function FindFrom(html: string, p: nat): (r: Option<(nat, string)>)
    requires p <= |html|
    ensures r.Some? ==> p <= r.value.0 <= |html| && MatchAt(html, r.value.0) == Some(r.value.1)
    ensures r.Some? ==> forall q :: p <= q < r.value.0 ==> MatchAt(html, q).None?
    ensures r.None? ==> forall q :: p <= q <= |html| ==> MatchAt(html, q).None?
    decreases |html| - p
  {
    match MatchAt(html, p)
    case Some(t) => Some((p, t))
    case None => if p == |html| then None else FindFrom(html, p + 1)
  }

  /** `m ? m[1].trim() : null` for `m = html.match(...)`. */
  function Title(html: string): (r: Option<string>)
    ensures r.Some? ==> Trim(r.value) == r.value
  {
    match FindFrom(html, 0)
    case Some((_, t)) => TrimIdempotent(t); Some(Trim(t))
    case None => None
  }

  lemma TrimKeeps(s: string, c: char)
    requires c !in s
    ensures c !in Trim(s)
  {
  }

  /** There is no title exactly when no position holds an occurrence of the tag pattern. */
  lemma TitleNone(html: string)
    ensures Title(html).None? <==> forall p: nat, a: nat, b: nat :: !OccursAt(html, p, a, b)
  {
    if Title(html).None? {
      forall p: nat, a: nat, b: nat ensures !OccursAt(html, p, a, b) {
        if OccursAt(html, p, a, b) { MatchAtExact(html, p, a, b); }
      }
    } else {
      var (p, t) := FindFrom(html, 0).value;
      MatchAtSound(html, p);
    }
  }

  /** A title comes from the leftmost occurrence: it is the trimmed capture of
      an occurrence at `p`, and no occurrence starts before `p`. */
  lemma TitleLeftmost(html: string)
    requires Title(html).Some?
    ensures exists p: nat, a: nat, b: nat ::
              && OccursAt(html, p, a, b)
              && Title(html) == Some(Trim(html[a + 1..b]))
              && forall q: nat, a': nat, b': nat :: q < p ==> !OccursAt(html, q, a', b')
  {
    var (p, t) := FindFrom(html, 0).value;
    MatchAtSound(html, p);
    var a: nat, b: nat :| OccursAt(html, p, a, b) && MatchAt(html, p) == Some(html[a + 1..b]);
    forall q: nat, a': nat, b': nat | q < p ensures !OccursAt(html, q, a', b') {
      if OccursAt(html, q, a', b') { MatchAtExact(html, q, a', b'); }
    }
  }

  /** A title holds no `<` and neither starts nor ends with whitespace. */
  lemma TitleClean(html: string)
    requires Title(html).Some?
    ensures var t := Title(html).value; '<' !in t && (t == [] || (!IsSpace(t[0]) && !IsSpace(t[|t| - 1])))
  {
    var (p, t) := FindFrom(html, 0).value;
    MatchAtSound(html, p);
    TrimKeeps(t, '<');
  }

  /** The tag letters match in any case. */
  lemma TitleIgnoresCase()
    ensures Title("<TITLE>x</Title>") == Some("x")
  {
    var h := "<TITLE>x</Title>";
    assert OccursAt(h, 0, 6, 8);
    MatchAtExact(h, 0, 6, 8);
    assert h[7..8] == "x";
    TrimAround("", "x", "");
    assert "" + "x" + "" == "x";
  }

  /** The title as the reply's JSON carries it: a string, or `null`. */
  function TitleValue(title: Option<string>): Json {
    match title
    case Some(t) => JStr(t)
    case None => JNull
  }

  /** `http.getTitle`, given the outcome of fetching `url` and reading its body.
      A failed fetch rejects the handler; otherwise the reply carries the URL
      unchanged next to the title. */
  function GetTitle(url: string, fetched: Result<string>): (r: Result<Json>)
    ensures fetched.Err? ==> r == Err(fetched.error)
    ensures fetched.Ok? ==> r.Ok? && |Items(r.value)| == 1 && FirstText(r.value).Some?
    ensures fetched.Ok? ==>
              Parse(FirstText(r.value).value)
              == Some(JObj([Member("url", JStr(url)), Member("title", TitleValue(Title(fetched.value)))]))
  {
    match fetched
    case Err(e) => Err(e)
    case Ok(html) =>
      var body := JObj([Member("url", JStr(url)), Member("title", TitleValue(Title(html)))]);
      TextResultShape(Stringify(body));
      ParseStringify(body);
      Ok(TextResult(Stringify(body)))
  }
}
