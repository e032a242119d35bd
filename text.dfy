/**
  The JavaScript string operations the core relies on, stated over `seq<char>`:
  truthiness and `||` defaults, `trim`, `split`/`join` on one separator character,
  `includes`, `substring(0, n)`, ASCII `toUpperCase` and integer formatting.
*/
module Text {
  import opened Wrappers

  // ---------------------------------------------------------------------------
  // Truthiness of optional strings
  // ---------------------------------------------------------------------------

  /** A JavaScript string value is truthy when it is present and not empty. */
  predicate Truthy(o: Option<string>) {
    o.Some? && o.value != ""
  }

  /** `o || fallback` on an optional string. */
  function Or(o: Option<string>, fallback: string): string {
    if Truthy(o) then o.value else fallback
  }

  /** `${o}` inside a template literal: a missing value prints as `absent` ("null" or "undefined"). */
  function Interpolate(o: Option<string>, absent: string): string {
    if o.Some? then o.value else absent
  }

  // ---------------------------------------------------------------------------
  // String.prototype.trim
  // ---------------------------------------------------------------------------

  /** The characters `trim` removes: ECMAScript WhiteSpace and LineTerminator. */
  predicate IsSpace(c: char) {
    || c == '\t' || c == '\n' || c == '\U{000B}' || c == '\U{000C}' || c == '\r' || c == ' '
    || c == '\U{00A0}' || c == '\U{1680}' || ('\U{2000}' <= c <= '\U{200A}')
    || c == '\U{2028}' || c == '\U{2029}' || c == '\U{202F}' || c == '\U{205F}'
    || c == '\U{3000}' || c == '\U{FEFF}'
  }

  predicate AllSpace(s: string) {
    forall i :: 0 <= i < |s| ==> IsSpace(s[i])
  }

  /** Drops leading white space. */
  function TrimStart(s: string): (r: string)
    ensures |r| <= |s| && r == s[|s| - |r|..]
    ensures forall i :: 0 <= i < |s| - |r| ==> IsSpace(s[i])
    ensures r == [] || !IsSpace(r[0])
    decreases |s|
  {
    if s != [] && IsSpace(s[0]) then TrimStart(s[1..]) else s
  }

  /** Drops trailing white space. */
  function TrimEnd(s: string): (r: string)
    ensures |r| <= |s| && r == s[..|r|]
    ensures forall i :: |r| <= i < |s| ==> IsSpace(s[i])
    ensures r == [] || !IsSpace(r[|r| - 1])
    decreases |s|
  {
    if s != [] && IsSpace(s[|s| - 1]) then TrimEnd(s[..|s| - 1]) else s
  }

  /**
    `s.trim()`: the infix of `s` left once the white space on both sides is gone.
    It is empty exactly when `s` is all white space.
  */
  function Trim(s: string): (r: string)
    ensures exists i, j {:trigger s[i..j]} ::
      0 <= i <= j <= |s| && r == s[i..j] && AllSpace(s[..i]) && AllSpace(s[j..])
    ensures r == [] || (!IsSpace(r[0]) && !IsSpace(r[|r| - 1]))
    ensures r == [] <==> AllSpace(s)
  {
    TrimBounds(s);
    TrimEnd(TrimStart(s))
  }

  /** The cut points of `Trim`, named. */
  lemma TrimBounds(s: string)
    ensures var r := TrimEnd(TrimStart(s));
      exists i, j {:trigger s[i..j]} ::
        0 <= i <= j <= |s| && r == s[i..j] && AllSpace(s[..i]) && AllSpace(s[j..])
    ensures var r := TrimEnd(TrimStart(s));
      r == [] || (!IsSpace(r[0]) && !IsSpace(r[|r| - 1]))
    ensures TrimEnd(TrimStart(s)) == [] <==> AllSpace(s)
  {
    var i, j := TrimCut(s);
    TrimEmpty(s);
  }

  lemma TrimCut(s: string) returns (i: nat, j: nat)
    ensures i <= j <= |s| && TrimEnd(TrimStart(s)) == s[i..j]
    ensures AllSpace(s[..i]) && AllSpace(s[j..])
  {
    i := LeadingSpace(s);
    var a := TrimStart(s);
    var k := TrailingSpace(a);
    j := i + k;
  }

  lemma LeadingSpace(s: string) returns (i: nat)
    ensures i <= |s| && AllSpace(s[..i]) && TrimStart(s) == s[i..]
  {
    i := |s| - |TrimStart(s)|;
    forall k | 0 <= k < i
      ensures IsSpace(s[..i][k])
    {
      assert s[..i][k] == s[k];
    }
  }

  lemma TrailingSpace(s: string) returns (j: nat)
    ensures j <= |s| && AllSpace(s[j..]) && TrimEnd(s) == s[..j]
  {
    j := |TrimEnd(s)|;
    forall k | 0 <= k < |s| - j
      ensures IsSpace(s[j..][k])
    {
      assert s[j..][k] == s[j + k];
    }
  }

  lemma TrimEmpty(s: string)
    ensures TrimEnd(TrimStart(s)) == [] <==> AllSpace(s)
  {
    var a := TrimStart(s);
    var r := TrimEnd(a);
    var i := |s| - |a|;
    if r != [] {
      assert r[0] == a[0] == s[i];
    }
  }

  // ---------------------------------------------------------------------------
  // String.prototype.split and Array.prototype.join on one character
  // ---------------------------------------------------------------------------

  /** Number of occurrences of `c` in `s`. */
  function Count(s: string, c: char): nat
    decreases |s|
  {
    if s == [] then 0 else (if s[0] == c then 1 else 0) + Count(s[1..], c)
  }

  /** `parts.join(c)`. */
  function Join(parts: seq<string>, c: char): string
    decreases |parts|
  {
    if |parts| == 0 then ""
    else if |parts| == 1 then parts[0]
    else parts[0] + [c] + Join(parts[1..], c)
  }

  /**
    `s.split(c)`: the pieces between occurrences of `c`. There is one piece more than
    there are separators, no piece holds the separator, and joining the pieces gives `s` back.
  */
  function Split(s: string, c: char): (r: seq<string>)
    ensures |r| == Count(s, c) + 1
    ensures forall i :: 0 <= i < |r| ==> c !in r[i]
    ensures Join(r, c) == s
    decreases |s|
  {
    if s == [] then [""]
    else
      var rest := Split(s[1..], c);
      if s[0] == c then
        assert ([""] + rest)[1..] == rest;
        [""] + rest
      else
        var r := [[s[0]] + rest[0]] + rest[1..];
        assert r[1..] == rest[1..];
        assert |rest| > 1 ==> Join(rest, c) == rest[0] + [c] + Join(rest[1..], c);
        assert s == [s[0]] + s[1..];
        r
  }

  /** Splitting a piece free of `c` that is followed by more text: the piece heads the first part. */
  lemma {:induction false} SplitAfterPiece(a: string, rest: string, c: char)
    requires c !in a
    ensures Split(a + rest, c) == [a + Split(rest, c)[0]] + Split(rest, c)[1..]
    decreases |a|
  {
    if a != [] {
      var sp := Split(rest, c);
      assert (a + rest)[1..] == a[1..] + rest;
      assert (a + rest)[0] == a[0] != c;
      SplitAfterPiece(a[1..], rest, c);
      var tail := Split(a[1..] + rest, c);
      assert tail[0] == a[1..] + sp[0];
      assert tail[1..] == sp[1..];
      assert [a[0]] + (a[1..] + sp[0]) == a + sp[0];
    } else {
      var sp := Split(rest, c);
      assert a + rest == rest;
      assert sp == [sp[0]] + sp[1..];
      assert a + sp[0] == sp[0];
    }
  }

  /** The other round trip: joining pieces free of `c` and splitting again gives the same pieces. */
  lemma {:induction false} SplitOfJoin(parts: seq<string>, c: char)
    requires |parts| >= 1
    requires forall i :: 0 <= i < |parts| ==> c !in parts[i]
    ensures Split(Join(parts, c), c) == parts
    decreases |parts|
  {
    if |parts| == 1 {
      SplitAfterPiece(parts[0], "", c);
      assert parts[0] + "" == parts[0];
      assert parts == [parts[0]];
    } else {
      var p, rest := parts[0], parts[1..];
      var tail := Join(rest, c);
      assert Join(parts, c) == p + ([c] + tail);
      SplitOfJoin(rest, c);
      SplitAfterPiece(p, [c] + tail, c);
      assert Split([c] + tail, c) == [""] + rest by {
        assert ([c] + tail)[1..] == tail;
      }
      assert ([""] + rest)[1..] == rest;
      assert p + "" == p;
      assert parts == [p] + rest;
    }
  }

  // ---------------------------------------------------------------------------
  // String.prototype.includes
  // ---------------------------------------------------------------------------

  predicate StartsWith(s: string, t: string) {
    |t| <= |s| && s[..|t|] == t
  }

  /** `s.includes(t)`, searched from the front. */
  predicate Contains(s: string, t: string)
    decreases |s|
  {
    StartsWith(s, t) || (s != [] && Contains(s[1..], t))
  }

  /** An occurrence at a known position is found by the search. */
  lemma {:induction false} ContainsAt(s: string, t: string, i: nat)
    requires i + |t| <= |s| && s[i..i + |t|] == t
    ensures Contains(s, t)
    decreases i
  {
    if i > 0 {
      assert s[1..][i - 1..i - 1 + |t|] == s[i..i + |t|];
      ContainsAt(s[1..], t, i - 1);
    }
  }

  /** The search only succeeds where there is an occurrence. */
  lemma {:induction false} ContainsWitness(s: string, t: string) returns (i: nat)
    requires Contains(s, t)
    ensures i + |t| <= |s| && s[i..i + |t|] == t
    decreases |s|
  {
    if StartsWith(s, t) {
      i := 0;
    } else {
      var k := ContainsWitness(s[1..], t);
      assert s[1..][k..k + |t|] == s[k + 1..k + 1 + |t|];
      i := k + 1;
    }
  }

  /** A text that contains `u` contains everything `u` contains. */
  lemma ContainsTransitive(s: string, u: string, t: string)
    requires Contains(s, u) && Contains(u, t)
    ensures Contains(s, t)
  {
    var i := ContainsWitness(s, u);
    var j := ContainsWitness(u, t);
    forall k | 0 <= k < |u| ensures s[i + k] == u[k] {
      assert s[i..i + |u|][k] == s[i + k];
    }
    assert s[i + j..i + j + |t|] == u[j..j + |t|];
    ContainsAt(s, t, i + j);
  }

  // ---------------------------------------------------------------------------
  // substring, toUpperCase, number formatting
  // ---------------------------------------------------------------------------

  /** Each of four concatenated strings can be sliced back out of the whole. */
  lemma ConcatSlices(a: string, b: string, m: string, z: string)
    ensures var s := a + b + m + z;
      && |s| == |a| + |b| + |m| + |z|
      && s[..|a|] == a && s[|a|..|a| + |b|] == b
      && s[|a| + |b|..|s| - |z|] == m && s[|s| - |z|..] == z
  {
    var s := a + b + m + z;
    assert s[..|a|] == a;
    assert s[|a|..|a| + |b|] == b;
    assert s[|a| + |b|..|s| - |z|] == m;
    assert s[|s| - |z|..] == z;
  }

  /** `s.substring(0, n)`: the first `n` characters, or all of `s` when it is shorter. */
  function Prefix(s: string, n: nat): (r: string)
    ensures |r| == if n <= |s| then n else |s|
    ensures r == s[..|r|]
  {
    if n <= |s| then s[..n] else s
  }

  function UpperChar(c: char): char {
    if 'a' <= c <= 'z' then (c as int - 'a' as int + 'A' as int) as char else c
  }

  /** `s.toUpperCase()` on the ASCII letters. */
  function Upper(s: string): (r: string)
    ensures |r| == |s|
    ensures forall i :: 0 <= i < |s| ==> r[i] == UpperChar(s[i])
  {
    seq(|s|, i requires 0 <= i < |s| => UpperChar(s[i]))
  }

  function Digit(d: int): char
    requires 0 <= d < 10
  {
    "0123456789"[d]
  }

  /** Decimal digits of a natural number, as `String(n)` prints it. */
  function NatToString(n: nat): (r: string)
    ensures r != []
    decreases n
  {
    if n < 10 then [Digit(n)] else NatToString(n / 10) + [Digit(n % 10)]
  }

  /** `String(n)` for an integer-valued number. */
  function IntToString(n: int): (r: string)
    ensures r != []
  {
    if n < 0 then "-" + NatToString(-n) else NatToString(n)
  }
}
