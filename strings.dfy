/** The parts of Python's string and number handling that the engine relies
    on: `str(int)`, `int(s)` and `float(s)` acceptance, `str.replace`,
    `str.join` and ASCII lower-casing. */
module Strings {
  import opened Base

  function DigitChar(d: nat): (c: char)
    requires d < 10
    ensures IsDigit(c) && (c as int) - ('0' as int) == d
  {
    (('0' as int) + d) as char
  }

  function DigitValue(c: char): nat
    requires IsDigit(c)
  {
    (c as int) - ('0' as int)
  }

  predicate AllDigits(s: string) {
    forall i :: 0 <= i < |s| ==> IsDigit(s[i])
  }

  /** `str(n)` for a natural number. */
  function NatToString(n: nat): (r: string)
    ensures |r| > 0 && AllDigits(r)
    decreases n
  {
    if n < 10 then [DigitChar(n)] else NatToString(n / 10) + [DigitChar(n % 10)]
  }

  /** `str(i)` for an integer. */
  function IntToString(i: int): (r: string)
    ensures |r| > 0
    ensures (i < 0) <==> r[0] == '-'
    ensures '%' !in r
  {
    if i < 0 then "-" + NatToString(-i) else NatToString(i)
  }

  /** The number a run of decimal digits denotes. */
  function DigitsValue(s: string): nat
    requires AllDigits(s)
  {
    if s == [] then 0 else 10 * DigitsValue(s[..|s| - 1]) + DigitValue(s[|s| - 1])
  }

  lemma {:induction false} NatToStringValue(n: nat)
    ensures DigitsValue(NatToString(n)) == n
    decreases n
  {
    if n >= 10 {
      var s := NatToString(n / 10);
      var t := s + [DigitChar(n % 10)];
      assert t[..|t| - 1] == s;
      NatToStringValue(n / 10);
    }
  }

  /** Python's `digitpart`: a digit, then digits each optionally preceded by
      one underscore. */
  predicate IsDigitPart(s: string) {
    && |s| > 0
    && IsDigit(s[0])
    && forall i :: 0 <= i < |s| ==> DigitOrJoin(s, i)
  }

  /** The character at `i` is a digit, or an underscore before a digit. */
  predicate DigitOrJoin(s: string, i: int)
    requires 0 <= i < |s|
  {
    IsDigit(s[i]) || (s[i] == '_' && i + 1 < |s| && IsDigit(s[i + 1]))
  }

  function RemoveUnderscores(s: string): string {
    if s == [] then [] else (if s[0] == '_' then [] else [s[0]]) + RemoveUnderscores(s[1..])
  }

  lemma {:induction false} RemoveUnderscoresDigits(s: string)
    requires forall i :: 0 <= i < |s| ==> IsDigit(s[i]) || s[i] == '_'
    ensures AllDigits(RemoveUnderscores(s))
  {
    if s != [] {
      RemoveUnderscoresDigits(s[1..]);
    }
  }

  lemma {:induction false} RemoveUnderscoresOfDigits(s: string)
    requires AllDigits(s)
    ensures RemoveUnderscores(s) == s
  {
    if s != [] {
      RemoveUnderscoresOfDigits(s[1..]);
    }
  }

  lemma DigitPartChars(s: string)
    requires IsDigitPart(s)
    ensures forall i :: 0 <= i < |s| ==> IsDigit(s[i]) || s[i] == '_'
  {
    forall i | 0 <= i < |s| ensures IsDigit(s[i]) || s[i] == '_' {
      assert DigitOrJoin(s, i);
    }
  }

  /** `int(s)` in base 10 over ASCII: an optional sign, then a digitpart;
      `None` where Python raises ValueError. */
  function ParseInt(s: string): (r: Option<int>)
    ensures r.Some? ==> |s| > 0
  {
    var neg := |s| > 0 && s[0] == '-';
    var body := if |s| > 0 && (s[0] == '-' || s[0] == '+') then s[1..] else s;
    if IsDigitPart(body) then
      DigitPartChars(body);
      RemoveUnderscoresDigits(body);
      var n: int := DigitsValue(RemoveUnderscores(body));
      if neg then Some(-n) else Some(n)
    else None
  }

  /** `int(str(i)) == i`. */
  lemma ParseIntToString(i: int)
    ensures ParseInt(IntToString(i)) == Some(i)
  {
    var d := NatToString(if i < 0 then -i else i);
    var s := IntToString(i);
    assert IsDigitPart(d);
    if i < 0 {
      assert s[1..] == d;
    } else {
      assert s == d;
    }
    RemoveUnderscoresOfDigits(d);
    NatToStringValue(if i < 0 then -i else i);
  }

  /** `int(s)` of a run of digits is the number the digits denote. */
  lemma ParseIntOfDigits(s: string)
    requires s != [] && AllDigits(s)
    ensures ParseInt(s) == Some(DigitsValue(s))
  {
    assert IsDigitPart(s);
    RemoveUnderscoresOfDigits(s);
  }

  function LowerChar(c: char): char {
    if 'A' <= c <= 'Z' then ((c as int) + 32) as char else c
  }

  /** ASCII case folding, as `float()` applies it to `inf`, `nan` and the
      exponent letter. */
  function AsciiLower(s: string): (r: string)
    ensures |r| == |s|
    ensures forall i :: 0 <= i < |s| ==> r[i] == LowerChar(s[i])
  {
    if s == [] then [] else [LowerChar(s[0])] + AsciiLower(s[1..])
  }

  /** The lower case of one character under `str.lower()`, as far as
      ASCII goes: ASCII capitals, the Kelvin sign (`k`) and the capital I
      with a dot (`i` and a combining dot) are the characters whose lower
      case holds an ASCII letter; every other character is kept. */
  function LowerChars(c: char): (r: string)
    ensures 1 <= |r| <= 2
  {
    if 'A' <= c <= 'Z' then [((c as int) + 32) as char]
    else if c == '\U{212a}' then ['k']
    else if c == '\U{130}' then ['i', '\U{307}']
    else [c]
  }

  /** `str.lower()` */
  function Lower(s: string): (r: string) {
    if s == [] then [] else LowerChars(s[0]) + Lower(s[1..])
  }

  /** Text of lower-case ASCII letters, digits and underscores is its own
      lower case. */
  lemma {:induction false} LowerOfLowerAscii(s: string)
    requires forall i :: 0 <= i < |s| ==> 'a' <= s[i] <= 'z' || '0' <= s[i] <= '9' || s[i] == '_'
    ensures Lower(s) == s
    decreases |s|
  {
    if s != [] {
      LowerOfLowerAscii(s[1..]);
      assert s == [s[0]] + s[1..];
    }
  }

  /** The first index of `c` in `s`. */
  function IndexOf(s: string, c: char): (r: Option<nat>)
    ensures r.None? <==> c !in s
    ensures r.Some? ==> r.value < |s| && s[r.value] == c && c !in s[..r.value]
  {
    if s == [] then None
    else if s[0] == c then Some(0)
    else match IndexOf(s[1..], c)
      case None => None
      case Some(k) => assert s[..k + 1] == [s[0]] + s[1..][..k]; Some(k + 1)
  }

  /** `s` with an optional leading `+` or `-` removed. */
  function Unsigned(s: string): string {
    if |s| > 0 && (s[0] == '+' || s[0] == '-') then s[1..] else s
  }

  /** Python's `number`: `[digitpart] "." digitpart | digitpart ["."]`. */
  predicate IsNumber(s: string) {
    match IndexOf(s, '.')
    case None => IsDigitPart(s)
    case Some(k) =>
      var left, right := s[..k], s[k + 1..];
      && (left == [] || IsDigitPart(left))
      && (right == [] || IsDigitPart(right))
      && (left != [] || right != [])
  }

  /** Python's `floatnumber ::= number [exponent]`, where the exponent is an
      `e` or `E`, an optional sign and a digitpart. */
  predicate IsFloatNumber(s: string) {
    match IndexOf(AsciiLower(s), 'e')
    case None => IsNumber(s)
    case Some(k) => IsNumber(s[..k]) && IsDigitPart(Unsigned(s[k + 1..]))
  }

  /** Whether `float(s)` accepts `s` (ASCII digits; no surrounding blanks):
      an optional sign, then a float number, `inf`, `infinity` or `nan` in
      any letter case. */
  predicate IsFloatText(s: string) {
    var body := Unsigned(s);
    AsciiLower(body) in {"inf", "infinity", "nan"} || IsFloatNumber(body)
  }

  /** `s.replace(pat, rep)`: every non-overlapping occurrence, left to right. */
  function Replace(s: string, pat: string, rep: string): string
    requires |pat| > 0
    decreases |s|
  {
    if |s| < |pat| then s
    else if s[..|pat|] == pat then rep + Replace(s[|pat|..], pat, rep)
    else [s[0]] + Replace(s[1..], pat, rep)
  }

  /** `pat` occurs in `s` at index `i`. */
  predicate OccursAt(s: string, pat: string, i: int) {
    0 <= i && i + |pat| <= |s| && s[i..i + |pat|] == pat
  }

  /** Replacing a pattern that does not occur changes nothing. */
  lemma {:induction false} ReplaceAbsent(s: string, pat: string, rep: string)
    requires |pat| > 0
    requires forall i :: !OccursAt(s, pat, i)
    ensures Replace(s, pat, rep) == s
    decreases |s|
  {
    if |s| >= |pat| {
      assert !OccursAt(s, pat, 0);
      assert s[0..|pat|] == s[..|pat|];
      forall i ensures !OccursAt(s[1..], pat, i) {
        if OccursAt(s[1..], pat, i) {
          assert s[1..][i..i + |pat|] == s[i + 1..i + 1 + |pat|];
          assert OccursAt(s, pat, i + 1);
        }
      }
      ReplaceAbsent(s[1..], pat, rep);
    }
  }

  lemma ReplaceStep(s: string, pat: string, rep: string)
    requires |pat| > 0 && |s| >= |pat| && s[..|pat|] != pat
    ensures Replace(s, pat, rep) == [s[0]] + Replace(s[1..], pat, rep)
  {
  }

  lemma ReplaceShort(s: string, pat: string, rep: string)
    requires |pat| > 0 && |s| < |pat|
    ensures Replace(s, pat, rep) == s
  {
  }

  /** Replacing one character by another rewrites exactly its occurrences. */
  lemma {:induction false} ReplaceChar(s: string, c: char, d: char)
    ensures |Replace(s, [c], [d])| == |s|
    ensures forall i :: 0 <= i < |s| ==> Replace(s, [c], [d])[i] == if s[i] == c then d else s[i]
    decreases |s|
  {
    if |s| >= 1 {
      ReplaceChar(s[1..], c, d);
      assert s[..1] == [s[0]];
      var r := Replace(s, [c], [d]);
      assert r == [if s[0] == c then d else s[0]] + Replace(s[1..], [c], [d]);
    }
  }

  /** `s.replace(pat, rep, 1)`: the first occurrence only. */
  function ReplaceFirst(s: string, pat: string, rep: string): string
    requires |pat| > 0
    decreases |s|
  {
    if |s| < |pat| then s
    else if s[..|pat|] == pat then rep + s[|pat|..]
    else [s[0]] + ReplaceFirst(s[1..], pat, rep)
  }

  /** A prefix without the pattern's first character is passed over. */
  lemma {:induction false} ReplaceFirstSkips(p: string, s: string, pat: string, rep: string)
    requires |pat| > 0 && pat[0] !in p
    ensures ReplaceFirst(p + s, pat, rep) == p + ReplaceFirst(s, pat, rep)
    decreases |p|
  {
    if p != [] {
      assert (p + s)[0] == p[0] != pat[0];
      assert |p + s| >= |pat| ==> (p + s)[..|pat|] != pat;
      assert (p + s)[1..] == p[1..] + s;
      ReplaceFirstSkips(p[1..], s, pat, rep);
    } else {
      assert p + s == s;
    }
  }

  /** Replacing the first placeholder after a prefix that cannot hold it. */
  lemma ReplaceFirstAfter(head: string, pat: string, rest: string, rep: string)
    requires |pat| > 0 && pat[0] !in head
    ensures ReplaceFirst(head + pat + rest, pat, rep) == head + rep + rest
  {
    ReplaceFirstSkips(head, pat + rest, pat, rep);
    assert (pat + rest)[..|pat|] == pat;
    assert (pat + rest)[|pat|..] == rest;
    assert head + pat + rest == head + (pat + rest);
  }

  lemma Regroup(a: string, b: string, c: string, d: string)
    ensures a + (b + c + d) == a + b + c + d
  {
  }

  /** `sep.join(parts)`. */
  function Join(parts: seq<string>, sep: string): string {
    if |parts| == 0 then ""
    else if |parts| == 1 then parts[0]
    else parts[0] + sep + Join(parts[1..], sep)
  }
}
