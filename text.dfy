/** Strings as the TypeScript code sees them: the `\s` class of its regular
    expressions, `String.prototype.trim`, `Array.prototype.join`, and the
    ASCII case folding that an `/i` regular expression applies to the
    letters of a tag name. */
module Text {

  /** The whitespace of `\s` and `trim`, restricted to ASCII: space, tab,
      line feed, vertical tab, form feed and carriage return. */
  predicate IsSpace(c: char) {
    c == ' ' || c == '\t' || c == '\n' || c == '\U{B}' || c == '\U{C}' || c == '\r'
  }

  predicate AllSpace(s: string) { forall i :: 0 <= i < |s| ==> IsSpace(s[i]) }

  predicate NoSpace(s: string) { forall i :: 0 <= i < |s| ==> !IsSpace(s[i]) }

  /** The length of the whitespace run at the start of `s` (what a greedy `\s*` takes). */
  function SpaceRun(s: string): (n: nat)
    ensures n <= |s| && AllSpace(s[..n]) && (n < |s| ==> !IsSpace(s[n]))
  {
    if s != [] && IsSpace(s[0]) then
      var k := SpaceRun(s[1..]);
      assert s[1..][..k] == s[1..k + 1];
      1 + k
    else 0
  }

  /** The length of the non-whitespace run at the start of `s` (what a greedy `\S*` takes). */
  function WordRun(s: string): (n: nat)
    ensures n <= |s| && NoSpace(s[..n]) && (n < |s| ==> IsSpace(s[n]))
  {
    if s != [] && !IsSpace(s[0]) then
      var k := WordRun(s[1..]);
      assert s[1..][..k] == s[1..k + 1];
      1 + k
    else 0
  }

  /** The length of the whitespace run at the end of `s`. */
  function TrailingSpace(s: string): (n: nat)
    ensures n <= |s| && AllSpace(s[|s| - n..]) && (n < |s| ==> !IsSpace(s[|s| - n - 1]))
  {
    if s != [] && IsSpace(s[|s| - 1]) then
      var k := TrailingSpace(s[..|s| - 1]);
      assert s[..|s| - 1][|s| - 1 - k..] + [s[|s| - 1]] == s[|s| - 1 - k..];
      1 + k
    else 0
  }

  /** `s.trim()`: `s` without its leading and trailing whitespace. */
  function Trim(s: string): (r: string)
    ensures r == [] || (!IsSpace(r[0]) && !IsSpace(r[|r| - 1]))
  {
    var a := SpaceRun(s);
    var u := s[a..];
    u[..|u| - TrailingSpace(u)]
  }

  lemma {:induction false} SpaceRunOver(w: string, t: string)
    requires AllSpace(w)
    ensures SpaceRun(w + t) == |w| + SpaceRun(t)
  {
    if w != [] {
      assert (w + t)[0] == w[0] && IsSpace(w[0]);
      assert (w + t)[1..] == w[1..] + t;
      SpaceRunOver(w[1..], t);
    } else {
      assert w + t == t;
    }
  }

  lemma {:induction false} WordRunOver(p: string, t: string)
    requires NoSpace(p) && (t == [] || IsSpace(t[0]))
    ensures WordRun(p + t) == |p|
  {
    if p != [] {
      assert (p + t)[1..] == p[1..] + t;
      WordRunOver(p[1..], t);
    } else {
      assert p + t == t;
    }
  }

  lemma {:induction false} TrailingSpaceOver(t: string, w: string)
    requires AllSpace(w) && (t == [] || !IsSpace(t[|t| - 1]))
    ensures TrailingSpace(t + w) == |w|
  {
    if w != [] {
      assert (t + w)[..|t + w| - 1] == t + w[..|w| - 1];
      TrailingSpaceOver(t, w[..|w| - 1]);
    }
  }

  /** Trim removes exactly the whitespace around the text: whatever surrounds
      a core that neither starts nor ends with whitespace, the result is that core. */
  lemma TrimAround(p: string, m: string, q: string)
    requires AllSpace(p) && AllSpace(q)
    requires m == [] || (!IsSpace(m[0]) && !IsSpace(m[|m| - 1]))
    ensures Trim(p + m + q) == m
  {
    assert p + m + q == p + (m + q);
    if m == [] {
      assert AllSpace(m + q);
      SpaceRunOver(p + q, []);
      assert p + q + [] == p + m + q;
    } else {
      SpaceRunOver(p, m + q);
      assert SpaceRun(m + q) == 0;
      assert (p + m + q)[|p|..] == m + q;
      TrailingSpaceOver(m, q);
    }
  }

  /** Every string is its trimmed core between two whitespace runs. */
  lemma TrimSplits(s: string)
    ensures var r := Trim(s);
      exists i :: 0 <= i <= |s| - |r| && r == s[i..i + |r|] && AllSpace(s[..i]) && AllSpace(s[i + |r|..])
  {
    var a := SpaceRun(s);
    var u := s[a..];
    var b := TrailingSpace(u);
    var r := Trim(s);
    assert r == s[a..a + |r|];
    assert s[a + |r|..] == u[|u| - b..];
  }

  lemma TrimIdempotent(s: string)
    ensures Trim(Trim(s)) == Trim(s)
  {
    var r := Trim(s);
    TrimAround([], r, []);
    assert [] + r + [] == r;
  }

  /** The trimmed text is empty exactly when the text is all whitespace. */
  lemma TrimEmpty(s: string)
    ensures Trim(s) == [] <==> AllSpace(s)
  {
    if AllSpace(s) {
      TrimAround(s, [], []);
      assert s + [] + [] == s;
    }
    if Trim(s) == [] {
      var a := SpaceRun(s);
      var u := s[a..];
      assert s == s[..a] + u;
      assert u[|u| - TrailingSpace(u)..] == u;
    }
  }

  /** `xs.join(sep)`. */
  function Join(xs: seq<string>, sep: string): string
    decreases |xs|
  {
    if xs == [] then "" else if |xs| == 1 then xs[0] else xs[0] + sep + Join(xs[1..], sep)
  }

  /** `s.split(c)` for a one-character separator. */
  function Split(s: string, c: char): (r: seq<string>)
    ensures |r| >= 1
  {
    if s == [] then [""]
    else
      var rest := Split(s[1..], c);
      if s[0] == c then [""] + rest else [[s[0]] + rest[0]] + rest[1..]
  }

  lemma {:induction false} SplitPlain(a: string, c: char)
    requires c !in a
    ensures Split(a, c) == [a]
  {
    if a != [] {
      SplitPlain(a[1..], c);
      assert [a[0]] + a[1..] == a;
    }
  }

  lemma {:induction false} SplitAt(a: string, b: string, c: char)
    requires c !in a
    ensures Split(a + [c] + b, c) == [a] + Split(b, c)
  {
    if a == [] {
      assert a + [c] + b == [c] + b;
      assert ([c] + b)[1..] == b;
    } else {
      assert (a + [c] + b)[1..] == a[1..] + [c] + b;
      SplitAt(a[1..], b, c);
      assert [a[0]] + a[1..] == a;
    }
  }

  /** Splitting a join at its separator gives back the parts, when no part holds the separator. */
  lemma {:induction false} SplitJoin(xs: seq<string>, c: char)
    requires xs != []
    requires forall i :: 0 <= i < |xs| ==> c !in xs[i]
    ensures Split(Join(xs, [c]), c) == xs
    decreases |xs|
  {
    if |xs| == 1 {
      SplitPlain(xs[0], c);
    } else {
      SplitJoin(xs[1..], c);
      SplitAt(xs[0], Join(xs[1..], [c]), c);
      assert [xs[0]] + xs[1..] == xs;
    }
  }

  /** A join of non-empty parts is empty exactly when there are no parts. */
  lemma {:induction false} JoinEmpty(xs: seq<string>, sep: string)
    requires forall i :: 0 <= i < |xs| ==> xs[i] != ""
    ensures Join(xs, sep) == "" <==> xs == []
  {
    if |xs| > 1 {
      assert |Join(xs, sep)| >= |xs[0]|;
    }
  }

  /** The case folding of an `/i` regular expression (no `u` flag) on ASCII
      letters; characters outside ASCII never fold onto ASCII ones. */
  function Fold(c: char): char {
    if 'a' <= c <= 'z' then (c as int - 32) as char else c
  }

  /** `s` equals the lower-case ASCII text `pat` under case folding. */
  predicate EqualsFolded(s: string, pat: string) {
    |s| == |pat| && forall i :: 0 <= i < |s| ==> Fold(s[i]) == Fold(pat[i])
  }
}
