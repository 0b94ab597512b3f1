/**
 * Text helpers shared by the backend (Python) and the UI (TypeScript) models:
 * the two runtimes' whitespace sets and strip functions, upper-casing, joining
 * with a separator, decimal rendering of integers and the UTF-16 length that
 * JavaScript's `.length` reports.
 */
module Strings {

  /** Python's `str.isspace()` on one character: the Unicode White_Space
      characters plus U+001C..U+001F, which Python also treats as whitespace. */
  predicate IsPySpace(c: char) {
    ('\t' <= c <= '\r') || ('\U{1C}' <= c <= ' ') || c == '\U{85}' || c == '\U{A0}'
    || c == '\U{1680}' || ('\U{2000}' <= c <= '\U{200A}') || c == '\U{2028}'
    || c == '\U{2029}' || c == '\U{202F}' || c == '\U{205F}' || c == '\U{3000}'
  }

  /** The characters JavaScript's `String.prototype.trim` removes: WhiteSpace
      (tab, vertical tab, form feed, U+FEFF and the Zs space separators) and
      LineTerminator (LF, CR, U+2028, U+2029). */
  predicate IsJsSpace(c: char) {
    ('\t' <= c <= '\r') || c == ' ' || c == '\U{A0}' || c == '\U{1680}'
    || ('\U{2000}' <= c <= '\U{200A}') || c == '\U{2028}' || c == '\U{2029}'
    || c == '\U{202F}' || c == '\U{205F}' || c == '\U{3000}' || c == '\U{FEFF}'
  }

  predicate IsBacktick(c: char) {
    c == '`'
  }

  /** `s` without its leading characters that satisfy `drop`. */
  function TrimStart(s: string, drop: char -> bool): (r: string)
    ensures |r| <= |s| && r == s[|s| - |r|..]
    ensures r == [] || !drop(r[0])
  {
    if s != [] && drop(s[0]) then TrimStart(s[1..], drop) else s
  }

  /** Everything `TrimStart` removes satisfies `drop`. */
  lemma {:induction false} TrimStartDropsOnly(s: string, drop: char -> bool)
    ensures forall i :: 0 <= i < |s| - |TrimStart(s, drop)| ==> drop(s[i])
  {
    if s != [] && drop(s[0]) {
      TrimStartDropsOnly(s[1..], drop);
      forall i | 0 < i < |s| - |TrimStart(s, drop)| ensures drop(s[i]) {
        assert s[i] == s[1..][i - 1];
      }
    }
  }

  /** `s` without its trailing characters that satisfy `drop`. */
  function TrimEnd(s: string, drop: char -> bool): (r: string)
    ensures |r| <= |s| && r == s[..|r|]
    ensures r == [] || !drop(r[|r| - 1])
  {
    if s != [] && drop(s[|s| - 1]) then TrimEnd(s[..|s| - 1], drop) else s
  }

  /** Everything `TrimEnd` removes satisfies `drop`. */
  lemma {:induction false} TrimEndDropsOnly(s: string, drop: char -> bool)
    ensures forall i :: |TrimEnd(s, drop)| <= i < |s| ==> drop(s[i])
  {
    if s != [] && drop(s[|s| - 1]) {
      TrimEndDropsOnly(s[..|s| - 1], drop);
      forall i | |TrimEnd(s, drop)| <= i < |s| - 1 ensures drop(s[i]) {
        assert s[i] == s[..|s| - 1][i];
      }
    }
  }

  /** `s` without the characters satisfying `drop` at either end: Python's
      `s.strip(chars)` and JavaScript's `s.trim()` for the matching `drop`. */
  function Strip(s: string, drop: char -> bool): (r: string)
    ensures |r| <= |s|
    ensures r == [] || (!drop(r[0]) && !drop(r[|r| - 1]))
    ensures (s == [] || (!drop(s[0]) && !drop(s[|s| - 1]))) ==> r == s
  {
    var t := TrimStart(s, drop);
    var r := TrimEnd(t, drop);
    assert r != [] ==> r[0] == t[0];
    r
  }

  /** Stripping leaves nothing exactly when every character is dropped. */
  lemma StripEmpty(s: string, drop: char -> bool)
    ensures Strip(s, drop) == [] <==> forall i :: 0 <= i < |s| ==> drop(s[i])
  {
    var t := TrimStart(s, drop);
    TrimStartDropsOnly(s, drop);
    TrimEndDropsOnly(t, drop);
    if t != [] {
      assert t[0] == s[|s| - |t|];
    }
  }

  /** Stripping twice removes nothing more than stripping once. */
  lemma StripIdempotent(s: string, drop: char -> bool)
    ensures Strip(Strip(s, drop), drop) == Strip(s, drop)
  {
  }

  /** Python's `s.strip()`. */
  function PyStrip(s: string): string {
    Strip(s, IsPySpace)
  }

  /** JavaScript's `s.trim()`. */
  function JsTrim(s: string): string {
    Strip(s, IsJsSpace)
  }

  /** Droppable characters before a non-droppable one are exactly what
      `TrimStart` removes. */
  lemma TrimStartAfter(pre: string, rest: string, drop: char -> bool)
    requires forall i :: 0 <= i < |pre| ==> drop(pre[i])
    requires rest != [] && !drop(rest[0])
    ensures TrimStart(pre + rest, drop) == rest
  {
    var s := pre + rest;
    var t := TrimStart(s, drop);
    TrimStartDropsOnly(s, drop);
    var k := |s| - |t|;
    assert s[|pre|] == rest[0];
    assert k <= |pre|;
    assert t[0] == s[k];
    assert k == |pre|;
    assert t == s[|pre|..];
  }

  /** Droppable characters after a non-droppable one are exactly what
      `TrimEnd` removes. */
  lemma TrimEndBefore(rest: string, post: string, drop: char -> bool)
    requires forall i :: 0 <= i < |post| ==> drop(post[i])
    requires rest != [] && !drop(rest[|rest| - 1])
    ensures TrimEnd(rest + post, drop) == rest
  {
    var s := rest + post;
    var r := TrimEnd(s, drop);
    TrimEndDropsOnly(s, drop);
    assert s[|rest| - 1] == rest[|rest| - 1];
    assert |r| >= |rest|;
    assert |r| == |rest|;
    assert r == s[..|rest|];
  }

  /** Stripping a text made of droppable characters, a core whose ends are
      not droppable, and droppable characters again leaves the core. */
  lemma StripSurrounded(pre: string, core: string, post: string, drop: char -> bool)
    requires forall i :: 0 <= i < |pre| ==> drop(pre[i])
    requires forall i :: 0 <= i < |post| ==> drop(post[i])
    requires core != [] && !drop(core[0]) && !drop(core[|core| - 1])
    ensures Strip(pre + core + post, drop) == core
  {
    assert pre + core + post == pre + (core + post);
    TrimStartAfter(pre, core + post, drop);
    TrimEndBefore(core, post, drop);
  }

  /** Upper-casing of one character, as Python's `str.upper` and JavaScript's
      `toUpperCase` do it for ASCII letters and for the only two other
      characters whose upper case is an ASCII letter (dotless i and long s). */
  function UpperChar(c: char): char {
    if 'a' <= c <= 'z' then (c as int - 32) as char
    else if c == '\U{131}' then 'I'
    else if c == '\U{17F}' then 'S'
    else c
  }

  function Upper(s: string): (r: string)
    ensures |r| == |s|
    ensures forall i :: 0 <= i < |s| ==> r[i] == UpperChar(s[i])
  {
    seq(|s|, i requires 0 <= i < |s| => UpperChar(s[i]))
  }

  /** Upper-casing an upper-cased text changes nothing. */
  lemma UpperIdempotent(s: string)
    ensures Upper(Upper(s)) == Upper(s)
  {
  }

  /** ASCII lower-casing of one character. */
  function LowerChar(c: char): char {
    if 'A' <= c <= 'Z' then (c as int + 32) as char else c
  }

  predicate StartsWith(s: string, prefix: string) {
    |prefix| <= |s| && s[..|prefix|] == prefix
  }

  predicate EndsWith(s: string, suffix: string) {
    |suffix| <= |s| && s[|s| - |suffix|..] == suffix
  }

  lemma StartsWithConcat(a: string, b: string)
    ensures StartsWith(a + b, a)
  {
    assert (a + b)[..|a|] == a;
  }

  lemma EndsWithConcat(a: string, b: string, suffix: string)
    requires EndsWith(b, suffix)
    ensures EndsWith(a + b, suffix)
  {
    assert (a + b)[|a + b| - |suffix|..] == b[|b| - |suffix|..];
  }

  /** Python's `sep.join(parts)`. */
  function Join(parts: seq<string>, sep: string): string
  {
    if |parts| == 0 then ""
    else if |parts| == 1 then parts[0]
    else parts[0] + sep + Join(parts[1..], sep)
  }

  /** A joined text starts with its first part. */
  lemma {:induction false} JoinStartsWithFirst(parts: seq<string>, sep: string)
    requires |parts| > 0
    ensures StartsWith(Join(parts, sep), parts[0])
  {
    var j := Join(parts, sep);
    if |parts| > 1 {
      assert j == parts[0] + (sep + Join(parts[1..], sep));
    }
  }

  /** A joined text ends with its last part, after the separator when there
      is more than one part. */
  lemma {:induction false} JoinAppend(parts: seq<string>, last: string, sep: string)
    requires |parts| > 0
    ensures Join(parts + [last], sep) == Join(parts, sep) + sep + last
  {
    if |parts| == 1 {
      assert (parts + [last])[1..] == [last];
    } else {
      assert (parts + [last])[1..] == parts[1..] + [last];
      JoinAppend(parts[1..], last, sep);
    }
  }

  /** A text joined from two or more parts ends with the separator and the
      last part. */
  lemma JoinEndsWithLast(parts: seq<string>, sep: string)
    requires |parts| >= 2
    ensures EndsWith(Join(parts, sep), sep + parts[|parts| - 1])
  {
    var last := parts[|parts| - 1];
    var head := parts[..|parts| - 1];
    assert parts == head + [last];
    JoinAppend(head, last, sep);
    var j := Join(head, sep);
    assert Join(parts, sep) == j + (sep + last);
    EndsWithConcat(j, sep + last, sep + last);
  }

  /** A lead text, a separator and a joined list: the result opens with the
      lead and separator and closes with the separator and the last part. */
  lemma JoinedAfter(lead: string, parts: seq<string>, sep: string)
    requires |parts| > 0
    ensures StartsWith(lead + sep + Join(parts, sep), lead + sep)
    ensures EndsWith(lead + sep + Join(parts, sep), sep + parts[|parts| - 1])
  {
    var body := Join(parts, sep);
    StartsWithConcat(lead + sep, body);
    if |parts| == 1 {
      assert lead + sep + body == lead + (sep + parts[0]);
      EndsWithConcat(lead, sep + parts[0], sep + parts[0]);
    } else {
      JoinEndsWithLast(parts, sep);
      EndsWithConcat(lead + sep, body, sep + parts[|parts| - 1]);
    }
  }

  function DigitChar(d: nat): (c: char)
    requires d < 10
    ensures '0' <= c <= '9'
  {
    ('0' as int + d) as char
  }

  /** Decimal rendering of a natural number, without leading zeros. */
  function NatText(n: nat): (r: string)
    ensures |r| >= 1
    ensures forall i :: 0 <= i < |r| ==> '0' <= r[i] <= '9'
    ensures n > 0 ==> r[0] != '0'
  {
    if n < 10 then [DigitChar(n)] else NatText(n / 10) + [DigitChar(n % 10)]
  }

  /** Python's `str(i)` for an integer, and JavaScript's for a safe integer. */
  function IntText(i: int): string {
    if i < 0 then "-" + NatText(-i) else NatText(i)
  }

  /** The number a string of decimal digits denotes. */
  function DigitsValue(s: string): nat
    requires forall i :: 0 <= i < |s| ==> '0' <= s[i] <= '9'
  {
    if s == [] then 0 else DigitsValue(s[..|s| - 1]) * 10 + (s[|s| - 1] as int - '0' as int)
  }

  /** Reading back the rendering of `n` gives `n`. */
  lemma {:induction false} NatTextRoundTrip(n: nat)
    ensures DigitsValue(NatText(n)) == n
  {
    if n >= 10 {
      var r := NatText(n);
      assert r[..|r| - 1] == NatText(n / 10);
      NatTextRoundTrip(n / 10);
    }
  }

  /** Two different numbers never render the same. */
  lemma NatTextInjective(m: nat, n: nat)
    requires NatText(m) == NatText(n)
    ensures m == n
  {
    NatTextRoundTrip(m);
    NatTextRoundTrip(n);
  }

  /** JavaScript's `s.length`: the number of UTF-16 code units, where a
      character outside the Basic Multilingual Plane takes two. */
  function Utf16Length(s: string): (n: nat)
    ensures |s| <= n <= 2 * |s|
  {
    if s == [] then 0
    else Utf16Length(s[..|s| - 1]) + (if s[|s| - 1] as int > 0xFFFF then 2 else 1)
  }
}
