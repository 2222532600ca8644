/**
 * Helpers shared by every part of the model: optional values, results that
 * carry an exception message, and the handful of string operations the
 * Python, JavaScript, Java and PHP sources rely on (lower-casing, substring
 * search, prefix slicing, trimming, decimal rendering).
 */
module Common {

  /** A value that may be absent: Python None, JavaScript undefined/null, Java null. */
  datatype Option<T> = None | Some(value: T) {
    function GetOr(default: T): T {
      if Some? then value else default
    }
  }

  /** The outcome of a call that may raise: `Err` carries the exception's message. */
  datatype Result<T> = Ok(value: T) | Err(msg: string)

  /** Truthiness of an optional string in Python and JavaScript: absent and "" are false. */
  predicate Truthy(o: Option<string>) {
    o.Some? && o.value != ""
  }

  function Min(a: int, b: int): int {
    if a <= b then a else b
  }

  function Max(a: int, b: int): int {
    if a >= b then a else b
  }

  // ---------------------------------------------------------------------------
  // Lower-casing and substring search

  /** ASCII lower-casing of one character; other characters are unchanged. */
  function LowerChar(c: char): char {
    if 'A' <= c <= 'Z' then (c as int + 32) as char else c
  }

  function Lower(s: string): (r: string)
    ensures |r| == |s|
    ensures forall i :: 0 <= i < |s| ==> r[i] == LowerChar(s[i])
  {
    seq(|s|, i requires 0 <= i < |s| => LowerChar(s[i]))
  }

  /** `w in s` in Python, `s.includes(w)` in JavaScript. */
  predicate ContainsSub(s: string, w: string)
    decreases |s|
  {
    w <= s || (|s| > 0 && ContainsSub(s[1..], w))
  }

  /** A string contains whatever is spliced into it. */
  lemma {:induction false} ContainsMiddle(a: string, w: string, b: string)
    ensures ContainsSub(a + w + b, w)
  {
    if a == [] {
      assert a + w + b == w + b;
      assert w <= w + b;
    } else {
      assert (a + w + b)[1..] == a[1..] + w + b;
      ContainsMiddle(a[1..], w, b);
    }
  }

  /** A labelled pair `a + x + b + y` contains both of its parts `x` and `y`. */
  lemma ContainsBoth(a: string, x: string, b: string, y: string)
    ensures ContainsSub(a + x + b + y, x) && ContainsSub(a + x + b + y, y)
  {
    ContainsMiddle(a, x, b + y);
    assert a + x + (b + y) == a + x + b + y;
    ContainsMiddle(a + x + b, y, []);
    assert a + x + b + y + [] == a + x + b + y;
  }

  /** A string framed as `a + x + b + c` starts with `a`, contains `x` and ends with `c`. */
  lemma Framed(a: string, x: string, b: string, c: string)
    ensures a <= a + x + b + c && ContainsSub(a + x + b + c, x) && EndsWith(a + x + b + c, c)
  {
    ContainsMiddle(a, x, b + c);
    assert a + x + (b + c) == a + x + b + c;
    EndsWithAppend(a + x + b, c);
  }

  predicate EndsWith(s: string, t: string) {
    |t| <= |s| && s[|s| - |t|..] == t
  }

  lemma EndsWithAppend(a: string, t: string)
    ensures EndsWith(a + t, t)
  {
    assert (a + t)[|a + t| - |t|..] == t;
  }

  // ---------------------------------------------------------------------------
  // Slicing

  /** The first `n` elements, or all of them when there are fewer (`s[:n]` for n >= 0). */
  function Take<T>(s: seq<T>, n: nat): (r: seq<T>)
    ensures r <= s && |r| == Min(n, |s|)
  {
    if n <= |s| then s[..n] else s
  }

  /** Python's `s[:n]` for any integer n: a negative n drops |n| elements from the end. */
  function PySliceTo<T>(s: seq<T>, n: int): (r: seq<T>)
    ensures r <= s
    ensures n >= 0 ==> |r| == Min(n, |s|)
    ensures n < 0 ==> |r| == Max(0, |s| + n)
  {
    if n >= 0 then Take(s, n) else s[..Max(0, |s| + n)]
  }

  // ---------------------------------------------------------------------------
  // Trimming, parameterised by each language's notion of white space

  predicate AllSpace(s: string, ws: char -> bool) {
    forall i :: 0 <= i < |s| ==> ws(s[i])
  }

  function TrimLeft(s: string, ws: char -> bool): string
    decreases |s|
  {
    if |s| > 0 && ws(s[0]) then TrimLeft(s[1..], ws) else s
  }

  function TrimRight(s: string, ws: char -> bool): string
    decreases |s|
  {
    if |s| > 0 && ws(s[|s| - 1]) then TrimRight(s[..|s| - 1], ws) else s
  }

  function Trim(s: string, ws: char -> bool): string {
    TrimRight(TrimLeft(s, ws), ws)
  }

  lemma {:induction false} TrimLeftBlank(s: string, ws: char -> bool)
    ensures TrimLeft(s, ws) == [] <==> AllSpace(s, ws)
    ensures TrimLeft(s, ws) != [] ==> !ws(TrimLeft(s, ws)[0])
    decreases |s|
  {
    if |s| > 0 && ws(s[0]) {
      TrimLeftBlank(s[1..], ws);
      if AllSpace(s[1..], ws) {
        forall i | 0 <= i < |s| ensures ws(s[i]) {
          if i > 0 { assert s[i] == s[1..][i - 1]; }
        }
      }
      if AllSpace(s, ws) {
        forall i | 0 <= i < |s[1..]| ensures ws(s[1..][i]) {
          assert s[1..][i] == s[i + 1];
        }
      }
    }
  }

  lemma {:induction false} TrimRightKeepsHead(s: string, ws: char -> bool)
    requires |s| > 0 && !ws(s[0])
    ensures TrimRight(s, ws) != []
    decreases |s|
  {
    if ws(s[|s| - 1]) {
      assert |s| > 1;
      TrimRightKeepsHead(s[..|s| - 1], ws);
    }
  }

  /** Trimming leaves nothing exactly when the string is all white space. */
  lemma TrimBlank(s: string, ws: char -> bool)
    ensures Trim(s, ws) == [] <==> AllSpace(s, ws)
  {
    TrimLeftBlank(s, ws);
    if TrimLeft(s, ws) != [] {
      TrimRightKeepsHead(TrimLeft(s, ws), ws);
    }
  }

  /** White space stripped by Python's `str.strip()` (the characters `str.isspace` accepts). */
  predicate PySpace(c: char) {
    ('\U{0009}' <= c <= '\U{000D}') || ('\U{001C}' <= c <= '\U{0020}')
    || c == '\U{0085}' || c == '\U{00A0}' || c == '\U{1680}'
    || ('\U{2000}' <= c <= '\U{200A}') || c == '\U{2028}' || c == '\U{2029}'
    || c == '\U{202F}' || c == '\U{205F}' || c == '\U{3000}'
  }

  /** White space and line terminators stripped by JavaScript's `String.prototype.trim`. */
  predicate JsSpace(c: char) {
    ('\U{0009}' <= c <= '\U{000D}') || c == '\U{0020}'
    || c == '\U{00A0}' || c == '\U{1680}' || ('\U{2000}' <= c <= '\U{200A}')
    || c == '\U{2028}' || c == '\U{2029}' || c == '\U{202F}' || c == '\U{205F}'
    || c == '\U{3000}' || c == '\U{FEFF}'
  }

  /** Characters removed by Java's `String.trim`: every code point up to U+0020. */
  predicate JavaSpace(c: char) {
    c <= ' '
  }

  /** Characters removed by PHP's `trim` with its default character list. */
  predicate PhpSpace(c: char) {
    c == ' ' || c == '\t' || c == '\n' || c == '\r' || c == '\0' || c == '\U{000B}'
  }

  // ---------------------------------------------------------------------------
  // Decimal rendering of integers (Python f-strings, Java `+ i`, JS template literals)

  function DigitChar(d: nat): char
    requires d < 10
  {
    ('0' as int + d) as char
  }

  function NatToString(n: nat): (r: string)
    ensures |r| >= 1
    ensures n < 10 <==> |r| == 1
    decreases n
  {
    if n < 10 then [DigitChar(n)] else NatToString(n / 10) + [DigitChar(n % 10)]
  }

  /** Distinct numbers render as distinct strings. */
  lemma {:induction false} NatToStringInjective(a: nat, b: nat)
    requires NatToString(a) == NatToString(b)
    ensures a == b
    decreases a
  {
    if a >= 10 && b >= 10 {
      var sa, sb := NatToString(a), NatToString(b);
      assert sa[|sa| - 1] == DigitChar(a % 10) && sb[|sb| - 1] == DigitChar(b % 10);
      assert sa[..|sa| - 1] == NatToString(a / 10);
      assert sb[..|sb| - 1] == NatToString(b / 10);
      NatToStringInjective(a / 10, b / 10);
    }
  }

  function IntToString(i: int): string {
    if i < 0 then "-" + NatToString(-i) else NatToString(i)
  }
}
