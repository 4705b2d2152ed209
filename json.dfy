/** JSON values as the TypeScript code exchanges them, with the two codec
    operations it relies on: `JSON.stringify` (compact and with an indentation
    gap) and `JSON.parse`. Numbers are integers; see README for what of the
    full JSON grammar is not modelled. */
module Json {
  import opened Wrappers

  datatype Json =
    | JNull
    | JBool(b: bool)
    | JNum(n: int)
    | JStr(s: string)
    | JArr(items: seq<Json>)
    | JObj(members: seq<Member>)

  /** One `"key": value` pair of an object, in insertion order. */
  datatype Member = Member(key: string, value: Json)

  /** The whitespace JSON.parse skips between tokens. */
  predicate IsWs(c: char) { c == ' ' || c == '\t' || c == '\n' || c == '\r' }

  predicate AllWs(s: string) { forall i :: 0 <= i < |s| ==> IsWs(s[i]) }

  predicate IsDigit(c: char) { '0' <= c <= '9' }

  predicate AllDigits(s: string) { forall i :: 0 <= i < |s| ==> IsDigit(s[i]) }

  /** JavaScript truthiness of a value: `null`, `false`, `0` and `""` are falsy. */
  predicate Truthy(j: Json) {
    match j
    case JNull => false
    case JBool(b) => b
    case JNum(n) => n != 0
    case JStr(s) => s != ""
    case _ => true
  }

  /** Property access `o[key]` on a value; as with JSON.parse, a repeated key
      yields its last value. Anything that is not an object has no properties. */
  function Get(j: Json, key: string): (r: Option<Json>)
    ensures r.Some? <==> j.JObj? && exists i :: 0 <= i < |j.members| && j.members[i].key == key
  {
    if j.JObj? then Lookup(j.members, key) else None
  }

  function Lookup(ms: seq<Member>, key: string): (r: Option<Json>)
    ensures r.Some? <==> exists i :: 0 <= i < |ms| && ms[i].key == key
    ensures r.Some? ==> exists i :: 0 <= i < |ms| && ms[i] == Member(key, r.value)
                                    && forall k :: i < k < |ms| ==> ms[k].key != key
  {
    if ms == [] then None
    else if ms[|ms| - 1].key == key then Some(ms[|ms| - 1].value)
    else Lookup(ms[..|ms| - 1], key)
  }

  // ---------------------------------------------------------------------
  // Serialisation: the algorithm of JSON.stringify (ECMA-262, section 25.5.2)
  // with `gap` the indentation unit ("" for the compact form) and `indent`
  // the indentation of the enclosing structure.

  function Digits(n: nat): (r: string)
    ensures |r| > 0 && AllDigits(r)
  {
    if n < 10 then ["0123456789"[n]] else Digits(n / 10) + ["0123456789"[n % 10]]
  }

  function NumberText(n: int): string {
    if n < 0 then "-" + Digits(-n) else Digits(n)
  }

  function HexDigit(d: nat): char
    requires d < 16
  {
    "0123456789abcdef"[d]
  }

  /** JSON.stringify's QuoteJSONString for one character. */
  function EscapeChar(c: char): string {
    if c == '"' then "\\\""
    else if c == '\\' then "\\\\"
    else if c == '\U{8}' then "\\b"
    else if c == '\t' then "\\t"
    else if c == '\n' then "\\n"
    else if c == '\U{C}' then "\\f"
    else if c == '\r' then "\\r"
    else if c < ' ' then "\\u00" + [HexDigit(c as int / 16), HexDigit(c as int % 16)]
    else [c]
  }

  function EscapeString(s: string): string {
    if s == [] then "" else EscapeChar(s[0]) + EscapeString(s[1..])
  }

  function Quote(s: string): string {
    "\"" + EscapeString(s) + "\""
  }

  /** The line break and indentation written before an element, or nothing in the compact form. */
  function Open(gap: string, inner: string): string {
    if gap == "" then "" else "\n" + inner
  }

  function Separator(gap: string, inner: string): string {
    "," + Open(gap, inner)
  }

  function Render(j: Json, gap: string, indent: string): string
    decreases j
  {
    match j
    case JNull => "null"
    case JBool(b) => if b then "true" else "false"
    case JNum(n) => NumberText(n)
    case JStr(s) => Quote(s)
    case JArr(items) =>
      if items == [] then "[]"
      else "[" + Open(gap, indent + gap) + RenderItems(items, gap, indent + gap) + Open(gap, indent) + "]"
    case JObj(ms) =>
      if ms == [] then "{}"
      else "{" + Open(gap, indent + gap) + RenderMembers(ms, gap, indent + gap) + Open(gap, indent) + "}"
  }

  function RenderItems(items: seq<Json>, gap: string, inner: string): string
    requires items != []
    decreases items
  {
    Render(items[0], gap, inner)
      + if |items| == 1 then "" else Separator(gap, inner) + RenderItems(items[1..], gap, inner)
  }

  function RenderMember(m: Member, gap: string, inner: string): string
    decreases m
  {
    Quote(m.key) + ":" + (if gap == "" then "" else " ") + Render(m.value, gap, inner)
  }

  function RenderMembers(ms: seq<Member>, gap: string, inner: string): string
    requires ms != []
    decreases ms
  {
    RenderMember(ms[0], gap, inner)
      + if |ms| == 1 then "" else Separator(gap, inner) + RenderMembers(ms[1..], gap, inner)
  }

  /** `JSON.stringify(j)`. */
  function Stringify(j: Json): string {
    Render(j, "", "")
  }

  /** `JSON.stringify(j, null, 2)`. */
  function StringifyIndented(j: Json): string {
    Render(j, "  ", "")
  }

  // ---------------------------------------------------------------------
  // Parsing: JSON.parse as a partial function. Each parser returns the value
  // it read and the text after it.

  function SkipWs(s: string): (r: string)
    ensures |r| <= |s|
    ensures r == [] || !IsWs(r[0])
  {
    if s != [] && IsWs(s[0]) then SkipWs(s[1..]) else s
  }

  /** Length of the run of decimal digits at the start of `s`. */
  function DigitRun(s: string): (n: nat)
    ensures n <= |s| && AllDigits(s[..n]) && (n < |s| ==> !IsDigit(s[n]))
  {
    if s != [] && IsDigit(s[0]) then 1 + DigitRun(s[1..]) else 0
  }

  function DigitsValue(ds: string): nat
    requires AllDigits(ds)
  {
    if ds == [] then 0 else DigitsValue(ds[..|ds| - 1]) * 10 + (ds[|ds| - 1] as int - '0' as int)
  }

  function HexValue(c: char): Option<nat> {
    if '0' <= c <= '9' then Some(c as int - '0' as int)
    else if 'a' <= c <= 'f' then Some(c as int - 'a' as int + 10)
    else if 'A' <= c <= 'F' then Some(c as int - 'A' as int + 10)
    else None
  }

  /** The value of four hexadecimal digits. */
  function Hex4(h: string): Option<nat>
    requires |h| == 4
  {
    match (HexValue(h[0]), HexValue(h[1]), HexValue(h[2]), HexValue(h[3]))
    case (Some(a), Some(b), Some(c), Some(d)) => Some(((a * 16 + b) * 16 + c) * 16 + d)
    case _ => None
  }

  /** The character an escape sequence stands for, given the text after the
      backslash, with the number of characters the sequence occupies there. */
  function Unescape(t: string): (r: Option<(char, nat)>)
    ensures r.Some? ==> 1 <= r.value.1 <= |t|
  {
    if t == [] then None
    else if t[0] == '"' || t[0] == '\\' || t[0] == '/' then Some((t[0], 1))
    else if t[0] == 'b' then Some(('\U{8}', 1))
    else if t[0] == 'f' then Some(('\U{C}', 1))
    else if t[0] == 'n' then Some(('\n', 1))
    else if t[0] == 'r' then Some(('\r', 1))
    else if t[0] == 't' then Some(('\t', 1))
    else if t[0] == 'u' && |t| >= 5 then
      match Hex4(t[1..5])
      case Some(v) => if v < 0xD800 || 0xE000 <= v then Some((v as char, 5)) else None
      case None => None
    else None
  }

  function Cons(c: char, r: Option<(string, string)>): Option<(string, string)> {
    match r
    case Some((u, rest)) => Some(([c] + u, rest))
    case None => None
  }

  /** The characters of a string literal up to its closing quote, given the text after the opening quote. */
  function ParseChars(s: string): (r: Option<(string, string)>)
    ensures r.Some? ==> |r.value.1| < |s|
    decreases |s|
  {
    if s == [] then None
    else if s[0] == '"' then Some(("", s[1..]))
    else if s[0] == '\\' then
      match Unescape(s[1..])
      case Some((c, n)) => Cons(c, ParseChars(s[1 + n..]))
      case None => None
    else if s[0] < ' ' then None
    else Cons(s[0], ParseChars(s[1..]))
  }

  function ParseNumber(t: string): (r: Option<(Json, string)>)
    requires t != []
    ensures r.Some? ==> |r.value.1| < |t|
  {
    var neg := t[0] == '-';
    var u := if neg then t[1..] else t;
    var n := DigitRun(u);
    if n == 0 || (u[0] == '0' && n > 1) then None
    else
      var v: int := DigitsValue(u[..n]);
      Some((JNum(if neg then -v else v), u[n..]))
  }

  function ParseValue(s: string): (r: Option<(Json, string)>)
    ensures r.Some? ==> |r.value.1| < |s|
    decreases |s|, 0
  {
    var t := SkipWs(s);
    if t == [] then None
    else if t[0] == 'n' then (if |t| >= 4 && t[..4] == "null" then Some((JNull, t[4..])) else None)
    else if t[0] == 't' then (if |t| >= 4 && t[..4] == "true" then Some((JBool(true), t[4..])) else None)
    else if t[0] == 'f' then (if |t| >= 5 && t[..5] == "false" then Some((JBool(false), t[5..])) else None)
    else if t[0] == '"' then
      match ParseChars(t[1..])
      case Some((str, rest)) => Some((JStr(str), rest))
      case None => None
    else if t[0] == '[' then ParseArray(t[1..])
    else if t[0] == '{' then ParseObject(t[1..])
    else if t[0] == '-' || IsDigit(t[0]) then ParseNumber(t)
    else None
  }

  /** An array, given the text after `[`. */
  function ParseArray(s: string): (r: Option<(Json, string)>)
    ensures r.Some? ==> |r.value.1| < |s|
    decreases |s|, 2
  {
    var t := SkipWs(s);
    if t != [] && t[0] == ']' then Some((JArr([]), t[1..]))
    else
      match ParseItems(s)
      case Some((items, rest)) => Some((JArr(items), rest))
      case None => None
  }

  /** One or more comma-separated values and the closing `]`. */
  function ParseItems(s: string): (r: Option<(seq<Json>, string)>)
    ensures r.Some? ==> |r.value.1| < |s|
    decreases |s|, 1
  {
    match ParseValue(s)
    case None => None
    case Some((v, rest)) =>
      var t := SkipWs(rest);
      if t != [] && t[0] == ',' then
        match ParseItems(t[1..])
        case Some((vs, rest')) => Some(([v] + vs, rest'))
        case None => None
      else if t != [] && t[0] == ']' then Some(([v], t[1..]))
      else None
  }

  /** An object, given the text after `{`. */
  function ParseObject(s: string): (r: Option<(Json, string)>)
    ensures r.Some? ==> |r.value.1| < |s|
    decreases |s|, 3
  {
    var t := SkipWs(s);
    if t != [] && t[0] == '}' then Some((JObj([]), t[1..]))
    else
      match ParseMembers(s)
      case Some((ms, rest)) => Some((JObj(ms), rest))
      case None => None
  }

  /** One `"key": value` pair. */
  function ParseMember(s: string): (r: Option<(Member, string)>)
    ensures r.Some? ==> |r.value.1| < |s|
    decreases |s|, 1
  {
    var t := SkipWs(s);
    if t == [] || t[0] != '"' then None
    else
      match ParseChars(t[1..])
      case None => None
      case Some((key, afterKey)) =>
        var c := SkipWs(afterKey);
        if c == [] || c[0] != ':' then None
        else
          match ParseValue(c[1..])
          case None => None
          case Some((v, rest)) => Some((Member(key, v), rest))
  }

  /** One or more comma-separated pairs and the closing `}`. */
  function ParseMembers(s: string): (r: Option<(seq<Member>, string)>)
    ensures r.Some? ==> |r.value.1| < |s|
    decreases |s|, 2
  {
    match ParseMember(s)
    case None => None
    case Some((m, rest)) =>
      var u := SkipWs(rest);
      if u != [] && u[0] == ',' then
        match ParseMembers(u[1..])
        case Some((ms, rest')) => Some(([m] + ms, rest'))
        case None => None
      else if u != [] && u[0] == '}' then Some(([m], u[1..]))
      else None
  }

  /** `JSON.parse(s)`: `None` where JSON.parse throws. */
  function Parse(s: string): Option<Json> {
    match ParseValue(s)
    case Some((v, rest)) => if SkipWs(rest) == [] then Some(v) else None
    case None => None
  }

  // ---------------------------------------------------------------------
  // JSON.parse inverts JSON.stringify, for the compact form and for every
  // indentation made of whitespace.

  lemma {:induction false} SkipWsOver(w: string, t: string)
    requires AllWs(w) && (t == [] || !IsWs(t[0]))
    ensures SkipWs(w + t) == t
  {
    if w != [] {
      assert (w + t)[1..] == w[1..] + t;
      SkipWsOver(w[1..], t);
    }
  }

  lemma {:induction false} DigitRunOver(p: string, rest: string)
    requires AllDigits(p) && (rest == [] || !IsDigit(rest[0]))
    ensures DigitRun(p + rest) == |p|
  {
    if p != [] {
      assert (p + rest)[1..] == p[1..] + rest;
      DigitRunOver(p[1..], rest);
    }
  }

  lemma {:induction false} DigitsValueOfDigits(n: nat)
    ensures DigitsValue(Digits(n)) == n
  {
    var ds := Digits(n);
    if n >= 10 {
      DigitsValueOfDigits(n / 10);
      assert ds[..|ds| - 1] == Digits(n / 10);
    }
  }

  lemma {:induction false} DigitsNoLeadingZero(n: nat)
    requires n > 0
    ensures Digits(n)[0] != '0'
  {
    if n >= 10 {
      DigitsNoLeadingZero(n / 10);
    }
  }

  /** What the parser sees when it reads the digits of `m` followed by `rest`. */
  lemma DigitsThenRest(m: nat, rest: string)
    requires rest == [] || !IsDigit(rest[0])
    ensures var ds := Digits(m); var u := ds + rest;
      u[0] == ds[0] && DigitRun(u) == |ds| && AllDigits(u[..|ds|])
      && DigitsValue(u[..|ds|]) == m && u[|ds|..] == rest && (m > 0 ==> ds[0] != '0')
  {
    var ds := Digits(m);
    DigitRunOver(ds, rest);
    DigitsValueOfDigits(m);
    if m > 0 { DigitsNoLeadingZero(m); }
    assert (ds + rest)[..|ds|] == ds && (ds + rest)[|ds|..] == rest;
  }

  lemma NumberRoundTrip(n: int, rest: string)
    requires rest == [] || !IsDigit(rest[0])
    ensures ParseNumber(NumberText(n) + rest) == Some((JNum(n), rest))
  {
    var m: nat := if n < 0 then -n else n;
    DigitsThenRest(m, rest);
    if n < 0 {
      var u := Digits(m) + rest;
      Regroup3("-", Digits(m), rest);
      assert ("-" + u)[0] == '-' && ("-" + u)[1..] == u;
    }
  }

  lemma HexDigitValue(d: nat)
    requires d < 16
    ensures HexValue(HexDigit(d)) == Some(d)
  {
  }

  /** After a backslash, the escape `e` stands for `c` and occupies all of `e`. */
  lemma UnescapeStep(c: char, e: string, t: string)
    requires |e| >= 1 && Unescape(e + t) == Some((c, |e|))
    ensures ParseChars("\\" + e + t) == Cons(c, ParseChars(t))
  {
    var s := "\\" + e + t;
    assert s[1..] == e + t;
    assert s[1 + |e|..] == t;
  }

  /** The escapes JSON.stringify writes as a backslash and one letter. */
  lemma ShortEscapeStep(c: char, letter: char, t: string)
    requires (c, letter) in {('"', '"'), ('\\', '\\'), ('\U{8}', 'b'), ('\t', 't'), ('\n', 'n'), ('\U{C}', 'f'), ('\r', 'r')}
    ensures EscapeChar(c) == ['\\', letter]
    ensures ParseChars(EscapeChar(c) + t) == Cons(c, ParseChars(t))
  {
    assert ([letter] + t)[0] == letter;
    UnescapeStep(c, [letter], t);
  }

  /** The other control characters, which JSON.stringify writes as `\u00` and two hexadecimal digits. */
  lemma ControlEscapeStep(c: char, t: string)
    requires c < ' ' && c !in {'\U{8}', '\t', '\n', '\U{C}', '\r'}
    ensures ParseChars(EscapeChar(c) + t) == Cons(c, ParseChars(t))
  {
    var v := c as int;
    var hi, lo := HexDigit(v / 16), HexDigit(v % 16);
    HexDigitValue(v / 16);
    HexDigitValue(v % 16);
    var e := ['u', '0', '0', hi, lo];
    assert (e + t)[0] == 'u' && (e + t)[1..5] == ['0', '0', hi, lo];
    assert Hex4(['0', '0', hi, lo]) == Some(v);
    assert EscapeChar(c) == "\\" + e;
    UnescapeStep(c, e, t);
  }

  lemma EscapeCharStep(c: char, t: string)
    ensures ParseChars(EscapeChar(c) + t) == Cons(c, ParseChars(t))
  {
    if c == '"' {
      ShortEscapeStep(c, '"', t);
    } else if c == '\\' {
      ShortEscapeStep(c, '\\', t);
    } else if c == '\U{8}' {
      ShortEscapeStep(c, 'b', t);
    } else if c == '\t' {
      ShortEscapeStep(c, 't', t);
    } else if c == '\n' {
      ShortEscapeStep(c, 'n', t);
    } else if c == '\U{C}' {
      ShortEscapeStep(c, 'f', t);
    } else if c == '\r' {
      ShortEscapeStep(c, 'r', t);
    } else if c < ' ' {
      ControlEscapeStep(c, t);
    } else {
      assert EscapeChar(c) == [c];
      assert ([c] + t)[1..] == t;
    }
  }

  lemma {:induction false} StringRoundTrip(str: string, rest: string)
    ensures ParseChars(EscapeString(str) + "\"" + rest) == Some((str, rest))
  {
    if str == [] {
      assert EscapeString(str) + "\"" + rest == "\"" + rest;
    } else {
      var tail := EscapeString(str[1..]) + "\"" + rest;
      assert EscapeString(str) + "\"" + rest == EscapeChar(str[0]) + tail;
      EscapeCharStep(str[0], tail);
      StringRoundTrip(str[1..], rest);
      assert [str[0]] + str[1..] == str;
    }
  }

  lemma OpenIsWs(gap: string, inner: string)
    requires AllWs(inner)
    ensures AllWs(Open(gap, inner))
  {
  }

  /** A rendered value starts with a character that begins a value. */
  lemma RenderStart(j: Json, gap: string, indent: string)
    ensures |Render(j, gap, indent)| > 0
    ensures var c := Render(j, gap, indent)[0]; !IsWs(c) && c != ']' && c != '}'
  {
    match j
    case JNum(n) =>
      if n >= 0 { assert Render(j, gap, indent)[0] == Digits(n)[0]; }
    case JArr(items) =>
    case JObj(ms) =>
    case _ =>
  }

  // Single steps of the parser, each proved on its own so that the
  // round-trip proofs below never unfold a parser more than once.

  lemma ParseValueAfterWs(w: string, t: string)
    requires AllWs(w) && t != [] && !IsWs(t[0])
    ensures ParseValue(w + t) == ParseValue(t)
  {
    SkipWsOver(w, t);
    SkipWsOver("", t);
    assert "" + t == t;
  }

  lemma ParseNull(rest: string)
    ensures ParseValue("null" + rest) == Some((JNull, rest))
  {
    var t := "null" + rest;
    SkipWsOver("", t);
    assert "" + t == t;
    assert t[..4] == "null" && t[4..] == rest;
  }

  lemma ParseTrue(rest: string)
    ensures ParseValue("true" + rest) == Some((JBool(true), rest))
  {
    var t := "true" + rest;
    SkipWsOver("", t);
    assert "" + t == t;
    assert t[..4] == "true" && t[4..] == rest;
  }

  lemma ParseFalse(rest: string)
    ensures ParseValue("false" + rest) == Some((JBool(false), rest))
  {
    var t := "false" + rest;
    SkipWsOver("", t);
    assert "" + t == t;
    assert t[..5] == "false" && t[5..] == rest;
  }

  lemma DispatchString(s: string)
    requires s != [] && s[0] == '"'
    ensures ParseValue(s) == match ParseChars(s[1..]) { case Some((str, rest)) => Some((JStr(str), rest)) case None => None }
  {
    SkipWsOver("", s);
    assert "" + s == s;
  }

  lemma DispatchNumber(s: string)
    requires s != [] && (s[0] == '-' || IsDigit(s[0]))
    ensures ParseValue(s) == ParseNumber(s)
  {
    SkipWsOver("", s);
    assert "" + s == s;
    if s[0] != '-' {
      assert s[0] != 'n' && s[0] != 't' && s[0] != 'f' && s[0] != '"' && s[0] != '[' && s[0] != '{';
    }
  }

  lemma DispatchArray(s: string)
    requires s != [] && s[0] == '['
    ensures ParseValue(s) == ParseArray(s[1..])
  {
    SkipWsOver("", s);
    assert "" + s == s;
  }

  lemma DispatchObject(s: string)
    requires s != [] && s[0] == '{'
    ensures ParseValue(s) == ParseObject(s[1..])
  {
    SkipWsOver("", s);
    assert "" + s == s;
  }

  lemma ItemsLast(s: string, v: Json, rest: string)
    requires ParseValue(s) == Some((v, rest))
    requires var t := SkipWs(rest); t != [] && t[0] == ']'
    ensures ParseItems(s) == Some(([v], SkipWs(rest)[1..]))
  {
  }

  lemma ItemsMore(s: string, v: Json, rest: string, vs: seq<Json>, rest': string)
    requires ParseValue(s) == Some((v, rest))
    requires var t := SkipWs(rest); t != [] && t[0] == ',' && ParseItems(t[1..]) == Some((vs, rest'))
    ensures ParseItems(s) == Some(([v] + vs, rest'))
  {
  }

  lemma MemberStart(s: string, key: string, v: Json, rest: string)
    requires var t := SkipWs(s); t != [] && t[0] == '"' && ParseChars(t[1..]).Some?
    requires var t := SkipWs(s); var (k, afterKey) := ParseChars(t[1..]).value;
      var c := SkipWs(afterKey); k == key && c != [] && c[0] == ':' && ParseValue(c[1..]) == Some((v, rest))
    ensures ParseMember(s) == Some((Member(key, v), rest))
  {
  }

  lemma MembersLast(s: string, m: Member, rest: string)
    requires ParseMember(s) == Some((m, rest))
    requires var u := SkipWs(rest); u != [] && u[0] == '}'
    ensures ParseMembers(s) == Some(([m], SkipWs(rest)[1..]))
  {
  }

  lemma MembersMore(s: string, m: Member, rest: string, ms: seq<Member>, rest': string)
    requires ParseMember(s) == Some((m, rest))
    requires var u := SkipWs(rest); u != [] && u[0] == ',' && ParseMembers(u[1..]) == Some((ms, rest'))
    ensures ParseMembers(s) == Some(([m] + ms, rest'))
  {
  }

  lemma ArrayStep(s: string)
    requires var t := SkipWs(s); t != [] && t[0] != ']'
    ensures ParseArray(s) == match ParseItems(s) { case Some((items, rest)) => Some((JArr(items), rest)) case None => None }
  {
  }

  lemma ObjectStep(s: string)
    requires var t := SkipWs(s); t != [] && t[0] != '}'
    ensures ParseObject(s) == match ParseMembers(s) { case Some((ms, rest)) => Some((JObj(ms), rest)) case None => None }
  {
  }

  lemma EmptyArrayCase(rest: string)
    ensures ParseValue("[]" + rest) == Some((JArr([]), rest))
  {
    var t := "[]" + rest;
    DispatchArray(t);
    assert t[1..] == "]" + rest;
    SkipWsOver("", "]" + rest);
    assert "" + ("]" + rest) == "]" + rest;
    assert ("]" + rest)[1..] == rest;
  }

  lemma EmptyObjectCase(rest: string)
    ensures ParseValue("{}" + rest) == Some((JObj([]), rest))
  {
    var t := "{}" + rest;
    DispatchObject(t);
    assert t[1..] == "}" + rest;
    SkipWsOver("", "}" + rest);
    assert "" + ("}" + rest) == "}" + rest;
    assert ("}" + rest)[1..] == rest;
  }

  lemma ArrayCase(t: string, o: string, b: string, rest: string, items: seq<Json>)
    requires t == "[" + (o + b)
    requires AllWs(o) && b != [] && !IsWs(b[0]) && b[0] != ']'
    requires ParseItems(o + b) == Some((items, rest))
    ensures ParseValue(t) == Some((JArr(items), rest))
  {
    assert t[0] == '[' && t[1..] == o + b;
    DispatchArray(t);
    SkipWsOver(o, b);
    ArrayStep(o + b);
  }

  lemma ObjectCase(t: string, o: string, b: string, rest: string, ms: seq<Member>)
    requires t == "{" + (o + b)
    requires AllWs(o) && b != [] && !IsWs(b[0]) && b[0] != '}'
    requires ParseMembers(o + b) == Some((ms, rest))
    ensures ParseValue(t) == Some((JObj(ms), rest))
  {
    assert t[0] == '{' && t[1..] == o + b;
    DispatchObject(t);
    SkipWsOver(o, b);
    ObjectStep(o + b);
  }

  lemma StringCase(t: string, q: string, str: string, rest: string)
    requires t == "\"" + q
    requires ParseChars(q) == Some((str, rest))
    ensures ParseValue(t) == Some((JStr(str), rest))
  {
    assert t[0] == '"' && t[1..] == q;
    DispatchString(t);
  }

  lemma NumberCase(n: int, rest: string)
    requires rest == [] || !IsDigit(rest[0])
    ensures ParseValue(NumberText(n) + rest) == Some((JNum(n), rest))
  {
    var t := NumberText(n) + rest;
    if n >= 0 { assert t[0] == Digits(n)[0]; } else { assert t[0] == '-'; }
    DispatchNumber(t);
    NumberRoundTrip(n, rest);
  }

  lemma ItemsOne(s: string, x: Json, c: string, rest: string)
    requires AllWs(c)
    requires ParseValue(s) == Some((x, c + ("]" + rest)))
    ensures ParseItems(s) == Some(([x], rest))
  {
    SkipWsOver(c, "]" + rest);
    ItemsLast(s, x, c + ("]" + rest));
    assert ("]" + rest)[1..] == rest;
  }

  lemma ItemsCons(s: string, x: Json, o: string, u: string, xs: seq<Json>, rest: string)
    requires ParseValue(s) == Some((x, "," + (o + u)))
    requires ParseItems(o + u) == Some((xs, rest))
    ensures ParseItems(s) == Some(([x] + xs, rest))
  {
    var after := "," + (o + u);
    SkipWsOver("", after);
    assert "" + after == after;
    assert after[1..] == o + u;
    ItemsMore(s, x, after, xs, rest);
  }

  lemma MemberHead(s: string, w: string, q: string, k: string, afterKey: string, sp: string, vrest: string, v: Json, after: string)
    requires s == w + ("\"" + q) && AllWs(w)
    requires ParseChars(q) == Some((k, afterKey))
    requires afterKey == ":" + (sp + vrest)
    requires ParseValue(sp + vrest) == Some((v, after))
    ensures ParseMember(s) == Some((Member(k, v), after))
  {
    SkipWsOver(w, "\"" + q);
    assert ("\"" + q)[1..] == q;
    SkipWsOver("", afterKey);
    assert "" + afterKey == afterKey;
    assert afterKey[1..] == sp + vrest;
    MemberStart(s, k, v, after);
  }

  lemma MembersClose(s: string, m: Member, c: string, rest: string)
    requires AllWs(c)
    requires ParseMember(s) == Some((m, c + ("}" + rest)))
    ensures ParseMembers(s) == Some(([m], rest))
  {
    SkipWsOver(c, "}" + rest);
    MembersLast(s, m, c + ("}" + rest));
    assert ("}" + rest)[1..] == rest;
  }

  lemma MembersComma(s: string, m: Member, o: string, u: string, ms: seq<Member>, rest: string)
    requires ParseMember(s) == Some((m, "," + (o + u)))
    requires ParseMembers(o + u) == Some((ms, rest))
    ensures ParseMembers(s) == Some(([m] + ms, rest))
  {
    var after := "," + (o + u);
    SkipWsOver("", after);
    assert "" + after == after;
    assert after[1..] == o + u;
    MembersMore(s, m, after, ms, rest);
  }

  lemma MemberOne(s: string, w: string, q: string, k: string, afterKey: string, sp: string, vrest: string, v: Json, c: string, rest: string)
    requires s == w + ("\"" + q) && AllWs(w) && AllWs(c)
    requires ParseChars(q) == Some((k, afterKey))
    requires afterKey == ":" + (sp + vrest)
    requires ParseValue(sp + vrest) == Some((v, c + ("}" + rest)))
    ensures ParseMembers(s) == Some(([Member(k, v)], rest))
  {
    MemberHead(s, w, q, k, afterKey, sp, vrest, v, c + ("}" + rest));
    MembersClose(s, Member(k, v), c, rest);
  }

  lemma MemberCons(s: string, w: string, q: string, k: string, afterKey: string, sp: string, vrest: string, v: Json, o: string, u: string, ms: seq<Member>, rest: string)
    requires s == w + ("\"" + q) && AllWs(w)
    requires ParseChars(q) == Some((k, afterKey))
    requires afterKey == ":" + (sp + vrest)
    requires ParseValue(sp + vrest) == Some((v, "," + (o + u)))
    requires ParseMembers(o + u) == Some((ms, rest))
    ensures ParseMembers(s) == Some(([Member(k, v)] + ms, rest))
  {
    MemberHead(s, w, q, k, afterKey, sp, vrest, v, "," + (o + u));
    MembersComma(s, Member(k, v), o, u, ms, rest);
  }

  // Regrouping of rendered text, kept apart from the parser so that these
  // equalities are proved without any parser definition in scope.

  lemma Regroup3(a: string, b: string, c: string)
    ensures a + b + c == a + (b + c)
  {
  }

  lemma Bracketed(l: string, o: string, body: string, close: string, r: string, rest: string)
    requires body != []
    ensures l + o + body + close + r + rest == l + (o + (body + close + r + rest))
    ensures (body + close + r + rest)[0] == body[0]
  {
  }

  lemma ItemText1(w: string, h: string, close: string, rest: string)
    ensures w + ((h + "") + close + "]" + rest) == w + (h + (close + ("]" + rest)))
  {
  }

  lemma ItemText2(w: string, h: string, o: string, tail: string, close: string, rest: string)
    ensures w + ((h + ("," + o + tail)) + close + "]" + rest) == w + (h + ("," + (o + (tail + close + "]" + rest))))
  {
  }

  lemma MemberText1(w: string, e: string, sp: string, vt: string, close: string, rest: string)
    ensures w + (("\"" + e + "\"" + ":" + sp + vt + "") + close + "}" + rest)
         == w + ("\"" + (e + "\"" + (":" + (sp + (vt + (close + ("}" + rest)))))))
  {
  }

  lemma MemberText2(w: string, e: string, sp: string, vt: string, o: string, tail: string, close: string, rest: string)
    ensures w + (("\"" + e + "\"" + ":" + sp + vt + ("," + o + tail)) + close + "}" + rest)
         == w + ("\"" + (e + "\"" + (":" + (sp + (vt + ("," + (o + (tail + close + "}" + rest))))))))
  {
  }

  lemma AfterValue(close: string, c: char, rest: string)
    requires AllWs(close) && !IsDigit(c)
    ensures var t := close + ([c] + rest); t != [] && !IsDigit(t[0])
  {
    if close != [] { assert (close + ([c] + rest))[0] == close[0]; }
    else { assert (close + ([c] + rest))[0] == c; }
  }

  lemma RenderItemsStart(items: seq<Json>, gap: string, inner: string)
    requires items != []
    ensures |RenderItems(items, gap, inner)| > 0
    ensures var c := RenderItems(items, gap, inner)[0]; !IsWs(c) && c != ']'
  {
    RenderStart(items[0], gap, inner);
    assert RenderItems(items, gap, inner)[0] == Render(items[0], gap, inner)[0];
  }

  lemma RenderMembersStart(ms: seq<Member>, gap: string, inner: string)
    requires ms != []
    ensures |RenderMembers(ms, gap, inner)| > 0 && RenderMembers(ms, gap, inner)[0] == '"'
  {
  }

  /** Whitespace before a rendered value and any text after it that cannot extend a number. */
  lemma {:induction false} ValueRoundTrip(j: Json, gap: string, indent: string, w: string, rest: string)
    requires AllWs(gap) && AllWs(indent) && AllWs(w)
    requires rest == [] || !IsDigit(rest[0])
    ensures ParseValue(w + (Render(j, gap, indent) + rest)) == Some((j, rest))
    decreases j, 2
  {
    RenderStart(j, gap, indent);
    assert (Render(j, gap, indent) + rest)[0] == Render(j, gap, indent)[0];
    ParseValueAfterWs(w, Render(j, gap, indent) + rest);
    BareRoundTrip(j, gap, indent, rest);
  }

  lemma {:induction false} BareRoundTrip(j: Json, gap: string, indent: string, rest: string)
    requires AllWs(gap) && AllWs(indent)
    requires rest == [] || !IsDigit(rest[0])
    ensures ParseValue(Render(j, gap, indent) + rest) == Some((j, rest))
    decreases j, 1
  {
    match j
    case JNull => ParseNull(rest);
    case JBool(b) => if b { ParseTrue(rest); } else { ParseFalse(rest); }
    case JNum(n) => NumberCase(n, rest);
    case JStr(str) =>
      var e := EscapeString(str);
      StringRoundTrip(str, rest);
      Regroup3("\"" + e, "\"", rest);
      Regroup3("\"", e, "\"" + rest);
      Regroup3(e, "\"", rest);
      StringCase(Render(j, gap, indent) + rest, e + "\"" + rest, str, rest);
    case JArr(items) =>
      if items == [] {
        EmptyArrayCase(rest);
      } else {
        var inner := indent + gap;
        var o := Open(gap, inner);
        var body := RenderItems(items, gap, inner);
        var close := Open(gap, indent);
        OpenIsWs(gap, inner);
        OpenIsWs(gap, indent);
        RenderItemsStart(items, gap, inner);
        Bracketed("[", o, body, close, "]", rest);
        ItemsRoundTrip(items, gap, inner, o, close, rest);
        ArrayCase(Render(j, gap, indent) + rest, o, body + close + "]" + rest, rest, items);
      }
    case JObj(ms) =>
      if ms == [] {
        EmptyObjectCase(rest);
      } else {
        var inner := indent + gap;
        var o := Open(gap, inner);
        var body := RenderMembers(ms, gap, inner);
        var close := Open(gap, indent);
        OpenIsWs(gap, inner);
        OpenIsWs(gap, indent);
        RenderMembersStart(ms, gap, inner);
        Bracketed("{", o, body, close, "}", rest);
        MembersRoundTrip(ms, gap, inner, o, close, rest);
        ObjectCase(Render(j, gap, indent) + rest, o, body + close + "}" + rest, rest, ms);
      }
  }

  lemma {:induction false} ItemsRoundTrip(items: seq<Json>, gap: string, inner: string, w: string, close: string, rest: string)
    requires items != []
    requires AllWs(gap) && AllWs(inner) && AllWs(w) && AllWs(close)
    ensures ParseItems(w + (RenderItems(items, gap, inner) + close + "]" + rest)) == Some((items, rest))
    decreases items
  {
    var x := items[0];
    var h := Render(x, gap, inner);
    if |items| == 1 {
      AfterValue(close, ']', rest);
      ValueRoundTrip(x, gap, inner, w, close + ("]" + rest));
      ItemText1(w, h, close, rest);
      ItemsOne(w + (RenderItems(items, gap, inner) + close + "]" + rest), x, close, rest);
      assert [x] == items;
    } else {
      var o := Open(gap, inner);
      var tail := RenderItems(items[1..], gap, inner);
      ValueRoundTrip(x, gap, inner, w, "," + (o + (tail + close + "]" + rest)));
      OpenIsWs(gap, inner);
      ItemsRoundTrip(items[1..], gap, inner, o, close, rest);
      ItemText2(w, h, o, tail, close, rest);
      ItemsCons(w + (RenderItems(items, gap, inner) + close + "]" + rest), x, o, tail + close + "]" + rest, items[1..], rest);
      assert [x] + items[1..] == items;
    }
  }

  lemma {:induction false} MembersRoundTrip(ms: seq<Member>, gap: string, inner: string, w: string, close: string, rest: string)
    requires ms != []
    requires AllWs(gap) && AllWs(inner) && AllWs(w) && AllWs(close)
    ensures ParseMembers(w + (RenderMembers(ms, gap, inner) + close + "}" + rest)) == Some((ms, rest))
    decreases ms
  {
    var m := ms[0];
    var sp := if gap == "" then "" else " ";
    var e := EscapeString(m.key);
    var vt := Render(m.value, gap, inner);
    var s := w + (RenderMembers(ms, gap, inner) + close + "}" + rest);
    assert RenderMember(m, gap, inner) == "\"" + e + "\"" + ":" + sp + vt;
    assert AllWs(sp);
    if |ms| == 1 {
      var after := close + ("}" + rest);
      AfterValue(close, '}', rest);
      ValueRoundTrip(m.value, gap, inner, sp, after);
      StringRoundTrip(m.key, ":" + (sp + (vt + after)));
      MemberText1(w, e, sp, vt, close, rest);
      MemberOne(s, w, e + "\"" + (":" + (sp + (vt + after))), m.key, ":" + (sp + (vt + after)), sp, vt + after, m.value, close, rest);
      assert [Member(m.key, m.value)] == ms;
    } else {
      var o := Open(gap, inner);
      var tail := RenderMembers(ms[1..], gap, inner);
      var after := "," + (o + (tail + close + "}" + rest));
      ValueRoundTrip(m.value, gap, inner, sp, after);
      StringRoundTrip(m.key, ":" + (sp + (vt + after)));
      OpenIsWs(gap, inner);
      MembersRoundTrip(ms[1..], gap, inner, o, close, rest);
      MemberText2(w, e, sp, vt, o, tail, close, rest);
      MemberCons(s, w, e + "\"" + (":" + (sp + (vt + after))), m.key, ":" + (sp + (vt + after)), sp, vt + after, m.value, o, tail + close + "}" + rest, ms[1..], rest);
      assert [Member(m.key, m.value)] + ms[1..] == ms;
    }
  }

  /** JSON.parse reads back what JSON.stringify wrote, whatever whitespace indentation was used. */
  lemma ParseRender(j: Json, gap: string)
    requires AllWs(gap)
    ensures Parse(Render(j, gap, "")) == Some(j)
  {
    BareRoundTrip(j, gap, "", "");
    assert Render(j, gap, "") + "" == Render(j, gap, "");
  }

  lemma ParseStringify(j: Json)
    ensures Parse(Stringify(j)) == Some(j)
  {
    ParseRender(j, "");
  }

  lemma ParseStringifyIndented(j: Json)
    ensures Parse(StringifyIndented(j)) == Some(j)
  {
    ParseRender(j, "  ");
  }
}
