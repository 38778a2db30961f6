/**
 * The few Python string operations the bot relies on, over `string`
 * (a sequence of Unicode scalar values, as Python's `str` indexes them):
 * `str.strip()`, `str.split(sep, maxsplit)`, slicing `s[:n]`,
 * `str.startswith`, `str.capitalize()` and `str(n)` for a natural number.
 */
module Strings {
  import opened Wrappers

  // ----- prefixes and slices -----

  /** `s.startswith(p)`. */
  predicate StartsWith(s: string, p: string) {
    |p| <= |s| && s[..|p|] == p
  }

  /** Python's `t in s` for texts: `t` occurs somewhere in `s`. */
  predicate Contains(s: string, t: string) {
    exists i :: 0 <= i <= |s| && StartsWith(s[i..], t)
  }

  /** A text contains whatever it starts with. */
  lemma ContainsStart(t: string, rest: string)
    ensures Contains(t + rest, t)
  {
    assert (t + rest)[0..] == t + rest;
  }

  /** Appending keeps what a text contains. */
  lemma ContainsAppend(s: string, t: string, u: string)
    requires Contains(s, u)
    ensures Contains(s + t, u)
  {
    var i :| 0 <= i <= |s| && StartsWith(s[i..], u);
    assert (s + t)[i..][..|u|] == s[i..][..|u|];
  }

  /** Prepending keeps what a text contains. */
  lemma ContainsPrepend(s: string, t: string, u: string)
    requires Contains(t, u)
    ensures Contains(s + t, u)
  {
    var i :| 0 <= i <= |t| && StartsWith(t[i..], u);
    assert (s + t)[|s| + i..] == t[i..];
  }

  /** `s[:n]` for a non-negative `n`: the first `n` characters, or all of `s` when it is shorter. */
  function Take(s: string, n: nat): (r: string)
    ensures |r| == if |s| <= n then |s| else n
    ensures r <= s
    ensures |s| <= n ==> r == s
  {
    if |s| <= n then s else s[..n]
  }

  // ----- whitespace and strip() -----

  /** Python's `str.isspace()` on one character. */
  predicate IsSpace(c: char) {
    c == ' ' || ('\t' <= c <= '\r') || ('\U{1c}' <= c <= '\U{1f}')
    || c == '\U{85}' || c == '\U{a0}' || c == '\U{1680}'
    || ('\U{2000}' <= c <= '\U{200a}') || c == '\U{2028}' || c == '\U{2029}'
    || c == '\U{202f}' || c == '\U{205f}' || c == '\U{3000}'
  }

  predicate AllSpace(s: string) {
    forall i :: 0 <= i < |s| ==> IsSpace(s[i])
  }

  /** The number of whitespace characters at the start of `s`. */
  function LeadingSpaces(s: string): (n: nat)
    ensures n <= |s|
    ensures AllSpace(s[..n])
    ensures n < |s| ==> !IsSpace(s[n])
  {
    if s == [] || !IsSpace(s[0]) then 0
    else
      var k := LeadingSpaces(s[1..]);
      assert s[..k + 1] == [s[0]] + s[1..][..k];
      1 + k
  }

  /** The number of whitespace characters at the end of `s`. */
  function TrailingSpaces(s: string): (n: nat)
    ensures n <= |s|
    ensures AllSpace(s[|s| - n..])
    ensures n < |s| ==> !IsSpace(s[|s| - 1 - n])
  {
    if s == [] || !IsSpace(s[|s| - 1]) then 0
    else
      var init := s[..|s| - 1];
      var k := TrailingSpaces(init);
      assert s[|s| - (k + 1)..] == init[|init| - k..] + [s[|s| - 1]];
      1 + k
  }

  /** `s.strip()`: `s` without its leading and trailing whitespace. */
  function Strip(s: string): (r: string)
    ensures |r| <= |s|
    ensures r == [] || (!IsSpace(r[0]) && !IsSpace(r[|r| - 1]))
    ensures LeadingSpaces(s) + |r| <= |s|
    ensures r == s[LeadingSpaces(s)..LeadingSpaces(s) + |r|]
    ensures AllSpace(s[LeadingSpaces(s) + |r|..])
  {
    var a := LeadingSpaces(s);
    if a == |s| then []
    else
      var n := TrailingSpaces(s);
      TrailingStopsAt(s, a);
      s[a..|s| - n]
  }

  /** Trailing whitespace stops after any character that is not whitespace. */
  lemma {:induction false} TrailingStopsAt(s: string, i: nat)
    requires i < |s| && !IsSpace(s[i])
    ensures TrailingSpaces(s) < |s| - i
  {
    if IsSpace(s[|s| - 1]) {
      var init := s[..|s| - 1];
      assert init[i] == s[i];
      TrailingStopsAt(init, i);
    }
  }

  lemma {:induction false} LeadingSpacesOfPadded(w: string, t: string)
    requires AllSpace(w)
    requires t == [] || !IsSpace(t[0])
    ensures LeadingSpaces(w + t) == |w| + LeadingSpaces(t)
  {
    if w != [] {
      assert (w + t)[1..] == w[1..] + t;
      LeadingSpacesOfPadded(w[1..], t);
    } else {
      assert w + t == t;
    }
  }

  lemma {:induction false} TrailingSpacesOfPadded(t: string, w: string)
    requires AllSpace(w)
    requires t == [] || !IsSpace(t[|t| - 1])
    ensures TrailingSpaces(t + w) == |w| + TrailingSpaces(t)
  {
    if w != [] {
      assert (t + w)[..|t + w| - 1] == t + w[..|w| - 1];
      TrailingSpacesOfPadded(t, w[..|w| - 1]);
    } else {
      assert t + w == t;
    }
  }

  /**
   * `strip()` is characterised by its result: whatever whitespace pads a
   * text that neither starts nor ends with whitespace, stripping gives that
   * text back.
   */
  lemma StripOfPadded(before: string, core: string, after: string)
    requires AllSpace(before) && AllSpace(after)
    requires core == [] || (!IsSpace(core[0]) && !IsSpace(core[|core| - 1]))
    ensures Strip(before + core + after) == core
  {
    var s := before + core + after;
    if core == [] {
      assert s == before + after;
      assert AllSpace(s);
      LeadingSpacesOfPadded(s, []);
      assert s + [] == s;
    } else {
      assert s == before + (core + after);
      LeadingSpacesOfPadded(before, core + after);
      assert LeadingSpaces(core + after) == 0;
      TrailingSpacesOfPadded(before + core, after);
      assert TrailingSpaces(before + core) == 0;
      assert s[|before|..|s| - |after|] == core;
    }
  }

  /** Stripping twice is stripping once. */
  lemma StripIdempotent(s: string)
    ensures Strip(Strip(s)) == Strip(s)
  {
    var r := Strip(s);
    StripOfPadded([], r, []);
    assert [] + r + [] == r;
  }

  // ----- split(sep, maxsplit) -----

  /** The index of the first occurrence of `c` in `s`. */
  function IndexOf(s: string, c: char): (r: Option<nat>)
    ensures r.None? <==> c !in s
    ensures r.Some? ==> r.value < |s| && s[r.value] == c && c !in s[..r.value]
  {
    if s == [] then None
    else if s[0] == c then Some(0)
    else match IndexOf(s[1..], c)
      case None => None
      case Some(i) =>
        assert s[..i + 1] == [s[0]] + s[1..][..i];
        Some(i + 1)
  }

  /**
   * `c` does not occur in `s`. Kept as a predicate of its own so that the
   * solver does not unfold membership in every piece of a split.
   */
  predicate Lacks(s: string, c: char) {
    c !in s
  }

  /** `sep.join(parts)` for a one-character separator. */
  function Join(parts: seq<string>, sep: char): string
    requires |parts| > 0
  {
    if |parts| == 1 then parts[0] else parts[0] + [sep] + Join(parts[1..], sep)
  }

  /**
   * `s.split(sep, maxsplit)` for a one-character separator: cuts `s` at the
   * first `maxsplit` occurrences of `sep`, the rest staying in the last piece.
   */
  function Split(s: string, sep: char, maxsplit: nat): (parts: seq<string>)
    ensures 1 <= |parts| <= maxsplit + 1
    ensures Join(parts, sep) == s
    ensures forall i :: 0 <= i < |parts| - 1 ==> Lacks(parts[i], sep)
    ensures |parts| <= maxsplit ==> Lacks(parts[|parts| - 1], sep)
    decreases maxsplit
  {
    if maxsplit == 0 then [s]
    else match IndexOf(s, sep)
      case None => [s]
      case Some(i) =>
        var rest := Split(s[i + 1..], sep, maxsplit - 1);
        SplitStep(s, i, rest, sep);
        [s[..i]] + rest
  }

  /** One cut of `Split`: the text before the first separator, then the pieces of the rest. */
  lemma SplitStep(s: string, i: nat, rest: seq<string>, sep: char)
    requires i < |s| && s[i] == sep && sep !in s[..i]
    requires |rest| >= 1 && Join(rest, sep) == s[i + 1..]
    requires forall j :: 0 <= j < |rest| - 1 ==> Lacks(rest[j], sep)
    ensures Join([s[..i]] + rest, sep) == s
    ensures forall j :: 0 <= j < |rest| ==> Lacks(([s[..i]] + rest)[j], sep)
    ensures ([s[..i]] + rest)[|rest|] == rest[|rest| - 1]
  {
    JoinCons(s[..i], rest, sep);
    assert s == s[..i] + [sep] + s[i + 1..];
  }

  /** Joining a first piece onto more pieces puts one separator between them. */
  lemma JoinCons(head: string, rest: seq<string>, sep: char)
    requires |rest| > 0
    ensures Join([head] + rest, sep) == head + [sep] + Join(rest, sep)
  {
    assert ([head] + rest)[1..] == rest;
  }

  /** Splitting at a first separator that follows a separator-free `a` peels off `a`. */
  lemma SplitAtFirst(a: string, sep: char, rest: string, maxsplit: nat)
    requires Lacks(a, sep) && maxsplit > 0
    ensures Split(a + [sep] + rest, sep, maxsplit) == [a] + Split(rest, sep, maxsplit - 1)
  {
    var s := a + [sep] + rest;
    assert s[..|a|] == a;
    assert s[|a|] == sep;
    assert IndexOf(s, sep) == Some(|a|);
    assert s[|a| + 1..] == rest;
  }

  /** With no split left to make, the whole text is the one piece. */
  lemma SplitExhausted(s: string, sep: char)
    ensures Split(s, sep, 0) == [s]
  {
  }

  /**
   * `(a + sep + b).split(sep, 1)` gives back `[a, b]` whenever `a` holds no
   * separator, whatever `b` holds.
   */
  lemma SplitTwo(a: string, b: string, sep: char)
    requires Lacks(a, sep)
    ensures Split(a + [sep] + b, sep, 1) == [a, b]
  {
    SplitAtFirst(a, sep, b, 1);
    SplitExhausted(b, sep);
  }

  /**
   * `(a + sep + b + sep + c).split(sep, 2)` gives back `[a, b, c]` whenever
   * `a` and `b` hold no separator, whatever `c` holds.
   */
  lemma SplitThree(a: string, b: string, c: string, sep: char)
    requires Lacks(a, sep) && Lacks(b, sep)
    ensures Split(a + [sep] + b + [sep] + c, sep, 2) == [a, b, c]
  {
    assert a + [sep] + b + [sep] + c == a + [sep] + (b + [sep] + c);
    SplitAtFirst(a, sep, b + [sep] + c, 2);
    SplitTwo(b, c, sep);
  }

  /** One cut: at the first separator, or none when there is no separator. */
  lemma SplitOnce(s: string, sep: char)
    ensures Lacks(s, sep) ==> Split(s, sep, 1) == [s]
    ensures !Lacks(s, sep) ==>
      var j := IndexOf(s, sep).value;
      Split(s, sep, 1) == [s[..j], s[j + 1..]]
  {
    if !Lacks(s, sep) {
      var j := IndexOf(s, sep).value;
      assert s == s[..j] + [sep] + s[j + 1..];
      SplitTwo(s[..j], s[j + 1..], sep);
    }
  }

  /** Two cuts of a text that starts with a separator-free `p` and a separator: `p`, then one cut of the rest. */
  lemma SplitTwiceAfter(p: string, rest: string, sep: char)
    requires Lacks(p, sep)
    ensures Lacks(rest, sep) ==> Split(p + [sep] + rest, sep, 2) == [p, rest]
    ensures !Lacks(rest, sep) ==>
      var j := IndexOf(rest, sep).value;
      Split(p + [sep] + rest, sep, 2) == [p, rest[..j], rest[j + 1..]]
  {
    SplitAtFirst(p, sep, rest, 2);
    SplitOnce(rest, sep);
  }

  /** A text without the separator is never cut. */
  lemma SplitWithoutSeparator(s: string, sep: char, maxsplit: nat)
    requires Lacks(s, sep)
    ensures Split(s, sep, maxsplit) == [s]
  {
  }

  // ----- capitalize() -----

  /** Upper case of an ASCII Latin or basic Cyrillic letter; other characters are left alone. */
  function UpperChar(c: char): char {
    if 'a' <= c <= 'z' || '\U{430}' <= c <= '\U{44f}' then (c as int - 32) as char
    else if '\U{450}' <= c <= '\U{45f}' then (c as int - 80) as char
    else c
  }

  /** Lower case of an ASCII Latin or basic Cyrillic letter; other characters are left alone. */
  function LowerChar(c: char): char {
    if 'A' <= c <= 'Z' || '\U{410}' <= c <= '\U{42f}' then (c as int + 32) as char
    else if '\U{400}' <= c <= '\U{40f}' then (c as int + 80) as char
    else c
  }

  function LowerAll(s: string): (r: string)
    ensures |r| == |s|
    ensures forall i :: 0 <= i < |s| ==> r[i] == LowerChar(s[i])
  {
    if s == [] then [] else [LowerChar(s[0])] + LowerAll(s[1..])
  }

  /** `s.capitalize()`: the first character in upper case, all others in lower case. */
  function Capitalize(s: string): (r: string)
    ensures |r| == |s|
    ensures |s| > 0 ==> r[0] == UpperChar(s[0])
    ensures forall i :: 1 <= i < |s| ==> r[i] == LowerChar(s[i])
  {
    if s == [] then [] else [UpperChar(s[0])] + LowerAll(s[1..])
  }

  /** Capitalizing an already capitalized text changes nothing. */
  lemma CapitalizeIdempotent(s: string)
    ensures Capitalize(Capitalize(s)) == Capitalize(s)
  {
    var r := Capitalize(s);
    var rr := Capitalize(r);
    if s != [] {
      assert UpperChar(UpperChar(s[0])) == UpperChar(s[0]);
      forall i | 1 <= i < |s| ensures rr[i] == r[i] {
        assert LowerChar(LowerChar(s[i])) == LowerChar(s[i]);
      }
    }
  }

  // ----- str(n) -----

  predicate IsDigit(c: char) {
    '0' <= c <= '9'
  }

  predicate AllDigits(s: string) {
    forall i :: 0 <= i < |s| ==> IsDigit(s[i])
  }

  /** The number a string of decimal digits denotes. */
  function DecimalValue(s: string): nat
    requires AllDigits(s)
  {
    if s == [] then 0 else 10 * DecimalValue(s[..|s| - 1]) + (s[|s| - 1] as int - '0' as int)
  }

  /** `str(n)` for a natural number: its decimal digits, without leading zeros. */
  function DecimalDigits(n: nat): (r: string)
    ensures |r| >= 1 && AllDigits(r)
    ensures r[0] != '0' || r == "0"
    ensures DecimalValue(r) == n
  {
    var last := ('0' as int + n % 10) as char;
    if n < 10 then [last]
    else
      var init := DecimalDigits(n / 10);
      var r := init + [last];
      assert r[..|r| - 1] == init;
      r
  }

  /** The length of the run of decimal digits a text starts with. */
  function DigitRun(s: string): (n: nat)
    ensures n <= |s|
  {
    if s == [] || !IsDigit(s[0]) then 0 else 1 + DigitRun(s[1..])
  }

  lemma {:induction false} DigitRunOf(a: string, x: string)
    requires AllDigits(a) && |x| > 0 && !IsDigit(x[0])
    ensures DigitRun(a + x) == |a|
  {
    if a == [] {
      assert a + x == x;
    } else {
      assert (a + x)[1..] == a[1..] + x;
      DigitRunOf(a[1..], x);
    }
  }

  lemma CancelPrefix(p: string, x: string, y: string)
    requires p + x == p + y
    ensures x == y
  {
    assert x == (p + x)[|p|..] && y == (p + y)[|p|..];
  }

  /** Digits followed by a non-digit can be told apart: the digit run ends where the first non-digit is. */
  lemma DigitsBeforeNonDigit(a: string, x: string, b: string, y: string)
    requires AllDigits(a) && AllDigits(b)
    requires |x| > 0 && !IsDigit(x[0]) && |y| > 0 && !IsDigit(y[0])
    requires a + x == b + y
    ensures a == b && x == y
  {
    DigitRunOf(a, x);
    DigitRunOf(b, y);
    assert a == (a + x)[..|a|] && x == (a + x)[|a|..];
    assert b == (b + y)[..|b|] && y == (b + y)[|b|..];
  }
}
