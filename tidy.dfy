/** The text passes that run before lexing: comment removal (the first line
    of `decode`, memelang.py line 167) and `normalize` (memelang.py lines
    139-160), which splits the text on unescaped double quotes and rewrites
    only the parts outside quotes. Each regular-expression substitution of
    the source is one function here, scanning left to right as Python's
    `re.sub` does and resuming after each match. */
module Tidy {
  import opened Base
  import opened Strings

  /** The character runs the substitutions collapse or skip. */
  datatype Run = SemiOrNewline | Blank | Semis | Ops | NonZero | Zeros | Digits

  /** `[;\n]`, `\s`, `;`, `[#;!<>=]`, `[1-9]`, `0`, `[0-9]`. */
  predicate InRun(c: char, k: Run) {
    match k
    case SemiOrNewline => c == ';' || c == '\n'
    case Blank => IsSpace(c)
    case Semis => c == ';'
    case Ops => c in "#;!<>="
    case NonZero => '1' <= c <= '9'
    case Zeros => c == '0'
    case Digits => IsDigit(c)
  }

  /** The length of the run of `k` characters that starts `s`. */
  function RunLength(s: string, k: Run): (n: nat)
    ensures n <= |s|
  {
    if s != [] && InRun(s[0], k) then 1 + RunLength(s[1..], k) else 0
  }

  /** The run is made of `k` characters, and what follows it is not one. */
  lemma {:induction false} RunLengthRun(s: string, k: Run)
    ensures var n := RunLength(s, k);
      && (forall i :: 0 <= i < n ==> InRun(s[i], k))
      && (n < |s| ==> !InRun(s[n], k))
    decreases |s|
  {
    if s != [] && InRun(s[0], k) {
      RunLengthRun(s[1..], k);
      var n := RunLength(s, k);
      forall i | 1 <= i < n ensures InRun(s[i], k) {
        assert s[i] == s[1..][i - 1];
      }
    }
  }

  /** A comment starts `s`: blanks, then `//`. */
  predicate CommentAt(s: string) {
    var w := RunLength(s, Blank);
    w + 2 <= |s| && s[w] == '/' && s[w + 1] == '/'
  }

  /** Where the scan resumes after the comment that starts `s`: the end of
      its line. */
  function CommentEnd(s: string): (n: nat)
    requires CommentAt(s)
    ensures 2 <= n <= |s| && (n < |s| ==> s[n] == '\n')
    ensures IsSpace(s[0]) || s[0] == '/'
  {
    var w := RunLength(s, Blank);
    var n := LineLength(s[w + 2..]);
    assert n < |s[w + 2..]| ==> s[w + 2..][n] == s[w + 2 + n];
    w + 2 + n
  }

  /** The comment substitution of `decode` (multi-line mode): a `//`, the
      blanks before it (newlines included) and the rest of its line go. */
  function StripComments(s: string): string
    decreases |s|
  {
    if s == [] then []
    else if CommentAt(s) then StripComments(s[CommentEnd(s)..])
    else [s[0]] + StripComments(s[1..])
  }

  /** The length of the text before the first newline. */
  function LineLength(s: string): (n: nat)
    ensures n <= |s| && (n < |s| ==> s[n] == '\n')
  {
    if s == [] || s[0] == '\n' then 0 else 1 + LineLength(s[1..])
  }

  predicate HasComment(s: string) {
    exists i :: 0 <= i < |s| - 1 && s[i] == '/' && s[i + 1] == '/'
  }

  /** After comment removal the first character is the original one, or
      the newline that ended a removed comment. */
  lemma {:induction false} StripCommentsFirst(s: string)
    ensures StripComments(s) != [] ==>
      StripComments(s)[0] == s[0] || (StripComments(s)[0] == '\n' && (IsSpace(s[0]) || s[0] == '/'))
    decreases |s|
  {
    if s != [] && CommentAt(s) {
      StripCommentsFirst(s[CommentEnd(s)..]);
    }
  }

  /** No `//` is left. */
  lemma {:induction false} StripCommentsRemovesAll(s: string)
    ensures !HasComment(StripComments(s))
    decreases |s|
  {
    if s != [] {
      if CommentAt(s) {
        StripCommentsRemovesAll(s[CommentEnd(s)..]);
      } else {
        var r := StripComments(s[1..]);
        StripCommentsRemovesAll(s[1..]);
        StripCommentsFirst(s[1..]);
        if s[0] == '/' && |s| > 1 {
          assert RunLength(s, Blank) == 0;
          assert s[1] != '/';
        }
        var out := [s[0]] + r;
        forall i | 0 <= i < |out| - 1 ensures !(out[i] == '/' && out[i + 1] == '/') {
          if i > 0 {
            assert out[i] == r[i - 1] && out[i + 1] == r[i];
          }
        }
      }
    }
  }

  /** Text without `//` is left as it is. */
  lemma {:induction false} StripCommentsNone(s: string)
    requires !HasComment(s)
    ensures StripComments(s) == s
    decreases |s|
  {
    if s != [] {
      assert !CommentAt(s) by {
        var w := RunLength(s, Blank);
        if w + 2 <= |s| {
          assert !(s[w] == '/' && s[w + 1] == '/');
        }
      }
      assert !HasComment(s[1..]) by {
        forall i | 0 <= i < |s| - 2 ensures !(s[1..][i] == '/' && s[1..][i + 1] == '/') {
          assert s[1..][i] == s[i + 1] && s[1..][i + 1] == s[i + 2];
        }
      }
      StripCommentsNone(s[1..]);
    }
  }

  /** `str.strip()`: blanks removed at both ends. */
  function StripBlank(s: string): (r: string)
    ensures r == [] || (!IsSpace(r[0]) && !IsSpace(r[|r| - 1]))
    decreases |s|
  {
    if s != [] && IsSpace(s[0]) then StripBlank(s[1..])
    else if s != [] && IsSpace(s[|s| - 1]) then StripBlank(s[..|s| - 1])
    else s
  }

  /** `re.split(r'(?<!\\)"', s)`: the text between double quotes that do
      not follow a backslash; `escaped` says whether the character before
      `s` is a backslash. */
  function SplitQuotes(s: string, escaped: bool): (r: seq<string>)
    ensures |r| >= 1
    decreases |s|
  {
    if s == [] then [""]
    else if s[0] == '"' && !escaped then [""] + SplitQuotes(s[1..], false)
    else
      var rest := SplitQuotes(s[1..], s[0] == '\\');
      [[s[0]] + rest[0]] + rest[1..]
  }

  /** Joining the parts with `"` gives the text back. */
  lemma {:induction false} SplitQuotesJoin(s: string, escaped: bool)
    ensures Join(SplitQuotes(s, escaped), "\"") == s
    decreases |s|
  {
    if s != [] {
      if s[0] == '"' && !escaped {
        SplitQuotesJoin(s[1..], false);
        var rest := SplitQuotes(s[1..], false);
        assert ([""] + rest)[1..] == rest;
        assert s == "\"" + s[1..];
      } else {
        var rest := SplitQuotes(s[1..], s[0] == '\\');
        SplitQuotesJoin(s[1..], s[0] == '\\');
        JoinHead(s[0], rest, "\"");
      }
    }
  }

  lemma JoinHead(c: char, parts: seq<string>, sep: string)
    requires |parts| >= 1
    ensures Join([[c] + parts[0]] + parts[1..], sep) == [c] + Join(parts, sep)
  {
    var q := [[c] + parts[0]] + parts[1..];
    assert q[0] == [c] + parts[0];
    if |parts| > 1 {
      assert q[1..] == parts[1..];
    }
  }

  /** `re.sub(X + '+', rep, s)` for the run kind `k`: each run becomes one `rep`. */
  function Squeeze(s: string, k: Run, rep: char): string
    decreases |s|
  {
    if s == [] then []
    else if InRun(s[0], k) then [rep] + Squeeze(s[RunLength(s, k)..], k, rep)
    else [s[0]] + Squeeze(s[1..], k, rep)
  }

  /** Where the run of operator characters that the pass around operators
      looks for would start: after the blanks that begin `s`. */
  function OpsStart(s: string): (w: nat)
    ensures w <= |s|
  {
    RunLength(s, Blank)
  }

  /** Where that run ends. */
  function OpsEnd(s: string): (v: nat)
    ensures OpsStart(s) <= v <= |s|
  {
    OpsStart(s) + RunLength(s[OpsStart(s)..], Ops)
  }

  /** Where the pass resumes after the run and the blanks that follow it. */
  function OpsResume(s: string): (e: nat)
    ensures OpsEnd(s) <= e <= |s|
  {
    OpsEnd(s) + RunLength(s[OpsEnd(s)..], Blank)
  }

  /** `re.sub(r'\s*([#;!<>=]+)\s*', r'\1', s)`: the blanks around each run
      of operator characters go. */
  function Tighten(s: string): string
    decreases |s|
  {
    if s == [] then []
    else if OpsStart(s) < OpsEnd(s) then s[OpsStart(s)..OpsEnd(s)] + Tighten(s[OpsResume(s)..])
    else [s[0]] + Tighten(s[1..])
  }


  /** `re.sub(r'(\.[0-9][1-9]*)0+', r'\1', s)` as written: after a point,
      one digit and the non-zero digits after it, the zeros that follow
      are dropped, whether or not more digits come after them. */
  function TrimZerosAsWritten(s: string): string
    decreases |s|
  {
    if s == [] then []
    else if |s| >= 2 && s[0] == '.' && IsDigit(s[1]) then
      var n := 2 + RunLength(s[2..], NonZero);
      var z := RunLength(s[n..], Zeros);
      if z > 0 then s[..n] + TrimZerosAsWritten(s[n + z..])
      else [s[0]] + TrimZerosAsWritten(s[1..])
    else [s[0]] + TrimZerosAsWritten(s[1..])
  }

  /** The number of zeros that end `s`. */
  function TrailingZeros(s: string): (n: nat)
    ensures n <= |s|
  {
    if s != [] && s[|s| - 1] == '0' then 1 + TrailingZeros(s[..|s| - 1]) else 0
  }

  /** The zeros counted end the text, and the character before them is
      not one. */
  lemma {:induction false} TrailingZerosRun(s: string)
    ensures var n := TrailingZeros(s);
      && (forall i :: |s| - n <= i < |s| ==> s[i] == '0')
      && (n < |s| ==> s[|s| - 1 - n] != '0')
    decreases |s|
  {
    if s != [] && s[|s| - 1] == '0' {
      var front := s[..|s| - 1];
      TrailingZerosRun(front);
      assert forall i :: 0 <= i < |front| ==> front[i] == s[i];
    }
  }

  /** The digits after a point with their trailing zeros dropped, keeping
      at least one digit: how many to keep. */
  function KeptDigits(ds: string): (n: nat)
    requires |ds| >= 1
    ensures 1 <= n <= |ds|
  {
    var z := TrailingZeros(ds);
    if z >= |ds| then 1 else |ds| - z
  }

  /** Where the digit run after a point at the start of `s` ends. */
  function PointEnd(s: string): (d: nat)
    requires |s| >= 2 && IsDigit(s[1])
    ensures 2 <= d <= |s|
  {
    1 + RunLength(s[1..], Digits)
  }

  /** The rewriting the source intends, "remove trailing zeros from
      floats": only zeros that end the digits after a point go, and one
      digit stays. */
  function TrimZeros(s: string): string
    decreases |s|
  {
    if s == [] then []
    else if |s| >= 2 && s[0] == '.' && IsDigit(s[1]) then
      var d := PointEnd(s);
      s[..1 + KeptDigits(s[1..d])] + TrimZeros(s[d..])
    else [s[0]] + TrimZeros(s[1..])
  }

  /** `re.sub(r';+$', '', s)` */
  function DropTrailingSemis(s: string): (r: string)
    ensures |r| <= |s| && r == s[..|r|]
    ensures r == [] || r[|r| - 1] != ';'
    ensures forall i :: |r| <= i < |s| ==> s[i] == ';'
    decreases |s|
  {
    if s != [] && s[|s| - 1] == ';' then DropTrailingSemis(s[..|s| - 1]) else s
  }

  /** A ';' by ';' nowhere. */
  predicate NoDoubleSemi(s: string) {
    forall i :: 0 <= i < |s| - 1 ==> !(s[i] == ';' && s[i + 1] == ';')
  }

  /** One unquoted part of `normalize`. */
  function TidyPart(part: string, newline: bool): string {
    var a := Squeeze(part, SemiOrNewline, ';');
    var b := Squeeze(a, Blank, ' ');
    var c := Tighten(b);
    var d := Squeeze(c, Semis, ';');
    var e := TrimZeros(d);
    var f := DropTrailingSemis(e);
    if newline then Replace(f, ";", "\n") else f
  }

  /** What `normalize(memestr, newline)` returns. */
  function Normalized(memestr: string, newline: bool): (r: seq<string>)
    ensures |r| == |SplitQuotes(";" + StripBlank(memestr), false)|
    ensures forall p :: 0 <= p < |r| && p % 2 == 1 ==> r[p] == SplitQuotes(";" + StripBlank(memestr), false)[p]
    ensures !newline ==> r[0] == [] || r[0][0] == ';'
    ensures !newline ==> forall p :: 0 <= p < |r| && p % 2 == 0 ==>
      NoDoubleSemi(r[p]) && (r[p] == [] || r[p][|r[p]| - 1] != ';')
  {
    var parts := SplitQuotes(";" + StripBlank(memestr), false);
    FirstPartStartsWithSemi(StripBlank(memestr));
    forall p | 0 <= p < |parts| && p % 2 == 0 ensures NoDoubleSemi(TidyPart(parts[p], false)) {
      TidyPartNoDoubleSemi(parts[p]);
    }
    FirstPartKeepsSemi(parts[0]);
    seq(|parts|, p requires 0 <= p < |parts| => if p % 2 == 1 then parts[p] else TidyPart(parts[p], newline))
  }

  /** `normalize(memestr, newline)` */
  method Normalize(memestr: string, newline: bool) returns (parts: seq<string>)
    ensures parts == Normalized(memestr, newline)
  {
    var whole := SplitQuotes(";" + StripBlank(memestr), false);
    parts := whole;
    for p := 0 to |parts|
      invariant |parts| == |whole|
      invariant forall q :: 0 <= q < p ==> parts[q] == Normalized(memestr, newline)[q]
      invariant forall q :: p <= q < |parts| ==> parts[q] == whole[q]
    {
      if p % 2 == 0 {
        parts := parts[p := TidyPart(parts[p], newline)];
      }
    }
  }

  lemma FirstPartStartsWithSemi(s: string)
    ensures SplitQuotes(";" + s, false)[0] != [] && SplitQuotes(";" + s, false)[0][0] == ';'
  {
    assert (";" + s)[1..] == s;
  }

  /** Each pass keeps a leading `;`, and dropping the trailing ones can at
      most empty the part. */
  lemma FirstPartKeepsSemi(part: string)
    requires part != [] && part[0] == ';'
    ensures TidyPart(part, false) == [] || TidyPart(part, false)[0] == ';'
  {
    var a := Squeeze(part, SemiOrNewline, ';');
    var b := Squeeze(a, Blank, ' ');
    assert b[0] == ';';
    var c := Tighten(b);
    assert RunLength(b, Blank) == 0;
    assert c[0] == ';';
    var d := Squeeze(c, Semis, ';');
    assert d[0] == ';';
    var e := TrimZeros(d);
    assert e[0] == ';';
  }

  /** After the `;+` pass no two `;` are adjacent, and the later passes keep it so. */
  lemma TidyPartNoDoubleSemi(part: string)
    ensures NoDoubleSemi(TidyPart(part, false))
  {
    var a := Squeeze(part, SemiOrNewline, ';');
    var b := Squeeze(a, Blank, ' ');
    var c := Tighten(b);
    var d := Squeeze(c, Semis, ';');
    SqueezeSemis(c);
    var e := TrimZeros(d);
    TrimZerosNoDoubleSemi(d);
    var f := DropTrailingSemis(e);
    assert forall i :: 0 <= i < |f| ==> f[i] == e[i];
  }

  /** Two neighbours that the blank passes of `normalize` do not leave:
      two blanks, or a blank beside an operator character `[#;!<>=]`. */
  predicate BadPair(x: char, y: char) {
    (IsSpace(x) && (IsSpace(y) || InRun(y, Ops))) || (InRun(x, Ops) && IsSpace(y))
  }

  /** Text as the first passes of `normalize` leave it: no newline, no two
      blanks in a row, and no blank beside an operator character. */
  predicate Tidied(s: string) {
    && (forall i :: 0 <= i < |s| ==> s[i] != '\n')
    && (forall i :: 0 <= i < |s| - 1 ==> !BadPair(s[i], s[i + 1]))
  }

  /** After the `\s+` pass no newline is left and no two blanks are
      neighbours. */
  predicate SingleBlanks(s: string) {
    && (forall i :: 0 <= i < |s| ==> s[i] != '\n')
    && (forall i :: 0 <= i < |s| - 1 ==> !(IsSpace(s[i]) && IsSpace(s[i + 1])))
  }

  lemma TidiedSlice(s: string, i: nat, j: nat)
    requires Tidied(s) && i <= j <= |s|
    ensures Tidied(s[i..j])
  {
    var t := s[i..j];
    forall k | 0 <= k < |t| - 1 ensures !BadPair(t[k], t[k + 1]) {
      assert t[k] == s[i + k] && t[k + 1] == s[i + k + 1];
    }
  }

  lemma SingleBlanksSuffix(s: string, n: nat)
    requires SingleBlanks(s) && n <= |s|
    ensures SingleBlanks(s[n..])
  {
    var t := s[n..];
    forall k | 0 <= k < |t| - 1 ensures !(IsSpace(t[k]) && IsSpace(t[k + 1])) {
      assert t[k] == s[n + k] && t[k + 1] == s[n + k + 1];
    }
  }

  lemma TidiedConcat(a: string, b: string)
    requires Tidied(a) && Tidied(b)
    requires a != [] && b != [] ==> !BadPair(a[|a| - 1], b[0])
    ensures Tidied(a + b)
  {
    var s := a + b;
    forall i | 0 <= i < |s| - 1 ensures !BadPair(s[i], s[i + 1]) {
      if i + 1 < |a| {
        assert s[i] == a[i] && s[i + 1] == a[i + 1];
      } else if i >= |a| {
        assert s[i] == b[i - |a|] && s[i + 1] == b[i - |a| + 1];
      } else {
        assert s[i] == a[|a| - 1] && s[i + 1] == b[0];
      }
    }
  }

  /** The `\s+` pass turns every run of blanks, newlines included, into
      one space. */
  lemma {:induction false} SqueezeBlanks(s: string)
    ensures SingleBlanks(Squeeze(s, Blank, ' '))
    ensures forall i :: 0 <= i < |Squeeze(s, Blank, ' ')| && IsSpace(Squeeze(s, Blank, ' ')[i]) ==>
      Squeeze(s, Blank, ' ')[i] == ' '
    decreases |s|
  {
    if s != [] {
      var n := if InRun(s[0], Blank) then RunLength(s, Blank) else 1;
      RunLengthRun(s, Blank);
      var t := s[n..];
      SqueezeBlanks(t);
      var r := Squeeze(t, Blank, ' ');
      if t != [] {
        SqueezeFirst(t, Blank, ' ');
      }
      var out := Squeeze(s, Blank, ' ');
      assert out == [out[0]] + r;
      assert IsSpace(out[0]) ==> out[0] == ' ';
      forall i | 0 <= i < |out| - 1 ensures !(IsSpace(out[i]) && IsSpace(out[i + 1])) {
        if i > 0 {
          assert out[i] == r[i - 1] && out[i + 1] == r[i];
        }
      }
      forall i | 0 <= i < |out| && IsSpace(out[i]) ensures out[i] == ' ' {
        if i > 0 {
          assert out[i] == r[i - 1];
        }
      }
    }
  }

  lemma TightenFirst(s: string)
    requires s != [] && !IsSpace(s[0])
    ensures Tighten(s) != [] && Tighten(s)[0] == s[0]
  {
    assert RunLength(s, Blank) == 0;
    assert s[0..] == s;
  }

  /** The pass around operators removes the blanks beside every run of
      operator characters, and creates no new pair of blanks. */
  lemma {:induction false} TightenTidied(s: string)
    requires SingleBlanks(s)
    ensures Tidied(Tighten(s))
    decreases |s|
  {
    if s != [] {
      if OpsStart(s) < OpsEnd(s) {
        var e := OpsResume(s);
        SingleBlanksSuffix(s, e);
        TightenTidied(s[e..]);
        if e < |s| {
          OpsNeighbour(s);
          TightenFirst(s[e..]);
        }
        OpsPieceTidied(s, Tighten(s[e..]));
      } else {
        SingleBlanksSuffix(s, 1);
        TightenTidied(s[1..]);
        TightenCharTidied(s);
      }
    }
  }

  lemma TightenCharStep(s: string)
    requires s != [] && OpsStart(s) == OpsEnd(s)
    ensures Tighten(s) == [s[0]] + Tighten(s[1..])
  {
  }

  /** A run of operator characters before text that starts where the
      pass resumes. */
  lemma OpsPieceTidied(s: string, rest: string)
    requires s != [] && OpsStart(s) < OpsEnd(s) && Tidied(rest)
    requires rest == [] || (OpsResume(s) < |s| && rest[0] == s[OpsResume(s)])
    ensures Tidied(s[OpsStart(s)..OpsEnd(s)] + rest)
  {
    OpsNeighbour(s);
    TidiedConcat(s[OpsStart(s)..OpsEnd(s)], rest);
  }

  lemma OpsNeighbour(s: string)
    requires s != [] && OpsStart(s) < OpsEnd(s)
    ensures Tidied(s[OpsStart(s)..OpsEnd(s)])
    ensures !IsSpace(s[OpsStart(s)..OpsEnd(s)][OpsEnd(s) - OpsStart(s) - 1])
    ensures OpsResume(s) < |s| ==> !IsSpace(s[OpsResume(s)])
  {
    var w, v, e := OpsStart(s), OpsEnd(s), OpsResume(s);
    RunLengthRun(s[w..], Ops);
    RunLengthRun(s[v..], Blank);
    var piece := s[w..v];
    forall k | 0 <= k < v - w ensures InRun(piece[k], Ops) {
      assert piece[k] == s[w..][k];
    }
    OpsTidied(piece);
    assert InRun(piece[v - w - 1], Ops);
    if e < |s| {
      assert s[e] == s[v..][e - v];
    }
  }

  lemma OpsTidied(t: string)
    requires forall k :: 0 <= k < |t| ==> InRun(t[k], Ops)
    ensures Tidied(t)
  {
  }

  /** One character kept, then the rest. */
  lemma TightenCharTidied(s: string)
    requires SingleBlanks(s) && s != [] && OpsStart(s) == OpsEnd(s)
    requires Tidied(Tighten(s[1..]))
    ensures Tidied(Tighten(s))
  {
    var rest := Tighten(s[1..]);
    CharNeighbour(s);
    if |s| > 1 && IsSpace(s[0]) {
      TightenFirst(s[1..]);
    }
    TightenCharStep(s);
    TidiedConcat([s[0]], rest);
  }

  lemma CharNeighbour(s: string)
    requires SingleBlanks(s) && s != [] && OpsStart(s) == OpsEnd(s)
    ensures s[0] != '\n'
    ensures IsSpace(s[0]) && |s| > 1 ==> !IsSpace(s[1]) && !InRun(s[1], Ops)
    ensures !IsSpace(s[0]) ==> !InRun(s[0], Ops)
  {
    var w := RunLength(s, Blank);
    RunLengthRun(s, Blank);
    if IsSpace(s[0]) {
      if |s| > 1 {
        assert w == 1;
        assert s[w..][0] == s[1];
      }
    } else {
      assert s[w..] == s;
    }
  }

  /** The `;+` pass keeps every neighbour pair it does not merge. */
  lemma {:induction false} SqueezeSemisTidied(s: string)
    requires Tidied(s)
    ensures Tidied(Squeeze(s, Semis, ';'))
    decreases |s|
  {
    if s != [] {
      var n := if InRun(s[0], Semis) then RunLength(s, Semis) else 1;
      RunLengthRun(s, Semis);
      var t := s[n..];
      TidiedSlice(s, n, |s|);
      SqueezeSemisTidied(t);
      var r := Squeeze(t, Semis, ';');
      if t != [] {
        SqueezeFirst(t, Semis, ';');
        assert r[0] == s[n];
        assert !BadPair(s[n - 1], s[n]);
      }
      var head := [if InRun(s[0], Semis) then ';' else s[0]];
      assert head[0] == s[n - 1];
      TidiedConcat(head, r);
      assert Squeeze(s, Semis, ';') == head + r;
    }
  }

  /** The zero pass only drops zeros that follow a digit. */
  lemma {:induction false} TrimZerosTidied(s: string)
    requires Tidied(s)
    ensures Tidied(TrimZeros(s))
    decreases |s|
  {
    if s != [] {
      if |s| >= 2 && s[0] == '.' && IsDigit(s[1]) {
        var d := PointEnd(s);
        TidiedSlice(s, d, |s|);
        TrimZerosTidied(s[d..]);
        if d < |s| {
          TrimZerosFirst(s[d..]);
        }
        PointHeadTidied(s, d, TrimZeros(s[d..]));
        TrimZerosRun(s, d);
      } else {
        TidiedSlice(s, 1, |s|);
        TrimZerosTidied(s[1..]);
        if |s| > 1 {
          TrimZerosFirst(s[1..]);
        }
        TidiedConcat(s[..1], TrimZeros(s[1..]));
        assert TrimZeros(s) == s[..1] + TrimZeros(s[1..]);
      }
    }
  }

  /** A point and the digits kept after it, before text that starts where
      the digits ended. */
  lemma PointHeadTidied(s: string, d: nat, rest: string)
    requires Tidied(s) && |s| >= 2 && s[0] == '.' && IsDigit(s[1]) && d == PointEnd(s)
    requires Tidied(rest) && (rest == [] || (d < |s| && rest[0] == s[d]))
    ensures Tidied(s[..1 + KeptDigits(s[1..d])] + rest)
  {
    var m := 1 + KeptDigits(s[1..d]);
    TidiedSlice(s, 0, m);
    RunLengthRun(s[1..], Digits);
    var head := s[..m];
    assert head[m - 1] == '.' || IsDigit(head[m - 1]) by {
      if m > 1 {
        assert head[m - 1] == s[1..][m - 2];
      }
    }
    TidiedConcat(head, rest);
  }

  lemma {:induction false} ReplaceSemis(s: string)
    ensures forall i :: 0 <= i < |Replace(s, ";", "\n")| ==> Replace(s, ";", "\n")[i] != ';'
    decreases |s|
  {
    if |s| >= 1 {
      ReplaceSemis(s[1..]);
      var r := Replace(s[1..], ";", "\n");
      var out := Replace(s, ";", "\n");
      forall i | 0 <= i < |out| ensures out[i] != ';' {
        if i > 0 {
          assert out[i] == r[i - 1];
        }
      }
    }
  }

  /** What the passes of one part promise: newlines have become `;`, a
      run of blanks is one space, and no blank is left beside an operator
      character; with the newline option no `;` is left. */
  lemma TidyPartTidied(part: string)
    ensures Tidied(TidyPart(part, false))
    ensures forall i :: 0 <= i < |TidyPart(part, true)| ==> TidyPart(part, true)[i] != ';'
  {
    var a := Squeeze(part, SemiOrNewline, ';');
    var b := Squeeze(a, Blank, ' ');
    SqueezeBlanks(a);
    var c := Tighten(b);
    TightenTidied(b);
    var d := Squeeze(c, Semis, ';');
    SqueezeSemisTidied(c);
    var e := TrimZeros(d);
    TrimZerosTidied(d);
    var f := DropTrailingSemis(e);
    TidiedSlice(e, 0, |f|);
    assert f == e[0..|f|];
    ReplaceSemis(f);
  }

  /** Every code part of `normalize` is tidied as above. */
  lemma NormalizedTidied(memestr: string, newline: bool)
    ensures forall p :: 0 <= p < |Normalized(memestr, newline)| && p % 2 == 0 ==>
      (!newline ==> Tidied(Normalized(memestr, newline)[p]))
      && (newline ==> ';' !in Normalized(memestr, newline)[p])
  {
    var parts := SplitQuotes(";" + StripBlank(memestr), false);
    forall p | 0 <= p < |parts| && p % 2 == 0
      ensures (!newline ==> Tidied(Normalized(memestr, newline)[p]))
        && (newline ==> ';' !in Normalized(memestr, newline)[p])
    {
      TidyPartTidied(parts[p]);
    }
  }

  lemma {:induction false} SqueezeFirst(s: string, k: Run, rep: char)
    requires s != []
    ensures Squeeze(s, k, rep) != []
    ensures Squeeze(s, k, rep)[0] == if InRun(s[0], k) then rep else s[0]
  {
  }

  lemma {:induction false} SqueezeSemis(s: string)
    ensures NoDoubleSemi(Squeeze(s, Semis, ';'))
    decreases |s|
  {
    if s != [] {
      var n := if InRun(s[0], Semis) then RunLength(s, Semis) else 1;
      RunLengthRun(s, Semis);
      var t := s[n..];
      SqueezeSemis(t);
      var r := Squeeze(t, Semis, ';');
      if t != [] {
        SqueezeFirst(t, Semis, ';');
      }
      var out := Squeeze(s, Semis, ';');
      assert out == [out[0]] + r;
      forall i | 0 <= i < |out| - 1 ensures !(out[i] == ';' && out[i + 1] == ';') {
        if i > 0 {
          assert out[i] == r[i - 1] && out[i + 1] == r[i];
        }
      }
    }
  }

  lemma {:induction false} TrimZerosFirst(s: string)
    requires s != []
    ensures TrimZeros(s) != [] && TrimZeros(s)[0] == s[0]
  {
  }

  lemma {:induction false} TrimZerosNoDoubleSemi(s: string)
    requires NoDoubleSemi(s)
    ensures NoDoubleSemi(TrimZeros(s))
    decreases |s|
  {
    if s != [] {
      var n := if |s| >= 2 && s[0] == '.' && IsDigit(s[1]) then PointEnd(s) else 1;
      RunLengthRun(s[1..], Digits);
      var t := s[n..];
      assert NoDoubleSemi(t) by {
        forall i | 0 <= i < |t| - 1 ensures !(t[i] == ';' && t[i + 1] == ';') {
          assert t[i] == s[n + i] && t[i + 1] == s[n + i + 1];
        }
      }
      TrimZerosNoDoubleSemi(t);
      var r := TrimZeros(t);
      var head := if n == 1 then [s[0]] else s[..1 + KeptDigits(s[1..n])];
      assert TrimZeros(s) == head + r;
      assert head[|head| - 1] != ';' || (n == 1 && (t == [] || t[0] != ';'));
      if t != [] {
        TrimZerosFirst(t);
      }
      var out := head + r;
      forall i | 0 <= i < |out| - 1 ensures !(out[i] == ';' && out[i + 1] == ';') {
        if i >= |head| {
          assert out[i] == r[i - |head|] && out[i + 1] == r[i - |head| + 1];
        } else if i < |head| - 1 {
          assert out[i] == head[i] && out[i + 1] == head[i + 1];
        } else {
          assert out[i] == head[|head| - 1];
        }
      }
    }
  }

  /** As written, the zero-trimming pass changes the value of a decimal:
      `1.105` becomes `1.15`. */
  lemma TrimZerosAsWrittenChangesValue()
    ensures TrimZerosAsWritten(".105") == ".15"
  {
    var t := ".105";
    assert t[2..] == "05";
    assert RunLength("05", Zeros) == 1;
    assert t[..2] == ".1" && t[3..] == "5";
    assert TrimZerosAsWritten("5") == "5";
  }

  function Pow10(n: nat): (r: nat)
    ensures r >= 1
  {
    if n == 0 then 1 else 10 * Pow10(n - 1)
  }

  /** Zeros appended to the digits after a point scale their value. */
  lemma {:induction false} DigitsWithZeros(ds: string, z: nat)
    requires AllDigits(ds)
    requires |ds| >= z && forall i :: |ds| - z <= i < |ds| ==> ds[i] == '0'
    ensures DigitsValue(ds) == DigitsValue(ds[..|ds| - z]) * Pow10(z)
    decreases z
  {
    if z > 0 {
      var front := ds[..|ds| - 1];
      var kept := ds[..|ds| - z];
      assert front[..|front| - (z - 1)] == kept;
      DigitsWithZeros(front, z - 1);
      assert DigitsValue(ds) == 10 * DigitsValue(front);
      MulTen(DigitsValue(kept), Pow10(z - 1));
    } else {
      assert ds[..|ds|] == ds;
    }
  }

  lemma MulTen(a: nat, b: nat)
    ensures 10 * (a * b) == a * (10 * b)
  {
  }

  /** The corrected pass keeps the value of every decimal: when a point
      and the digit run `ds` start the text, the digits kept are a prefix
      of `ds`, the rest of `ds` is zeros, and the fraction they denote is
      the same. */
  lemma TrimZerosKeepsValue(ds: string, rest: string)
    requires |ds| >= 1 && AllDigits(ds)
    requires rest == [] || !IsDigit(rest[0])
    ensures var k := KeptDigits(ds);
      && TrimZeros("." + ds + rest) == "." + ds[..k] + TrimZeros(rest)
      && (forall i :: k <= i < |ds| ==> ds[i] == '0')
      && DigitsValue(ds) == DigitsValue(ds[..k]) * Pow10(|ds| - k)
  {
    TrimZerosPoint(ds, rest);
    KeptDigitsValue(ds);
  }

  /** The pass keeps the point, the first `KeptDigits(ds)` digits, and
      goes on after the run. */
  lemma TrimZerosPoint(ds: string, rest: string)
    requires |ds| >= 1 && AllDigits(ds)
    requires rest == [] || !IsDigit(rest[0])
    ensures TrimZeros("." + ds + rest) == "." + ds[..KeptDigits(ds)] + TrimZeros(rest)
  {
    var s := "." + ds + rest;
    var k := KeptDigits(ds);
    var d := 1 + |ds|;
    assert s[1..] == ds + rest;
    DigitRun(ds, rest);
    TrimZerosRun(s, d);
    assert s[1..d] == ds;
    assert s[d..] == rest;
    assert s[..1 + k] == "." + ds[..k];
  }

  /** One step of the pass over a point followed by a digit run. */
  lemma TrimZerosRun(s: string, d: nat)
    requires |s| >= 2 && s[0] == '.' && IsDigit(s[1])
    requires d == PointEnd(s)
    ensures TrimZeros(s) == s[..1 + KeptDigits(s[1..d])] + TrimZeros(s[d..])
  {
  }

  /** The digits dropped from a run are zeros, and the kept ones denote
      the same fraction. */
  lemma KeptDigitsValue(ds: string)
    requires |ds| >= 1 && AllDigits(ds)
    ensures var k := KeptDigits(ds);
      && (forall i :: k <= i < |ds| ==> ds[i] == '0')
      && DigitsValue(ds) == DigitsValue(ds[..k]) * Pow10(|ds| - k)
  {
    var k := KeptDigits(ds);
    var z := |ds| - k;
    TrailingZerosRun(ds);
    assert z <= TrailingZeros(ds);
    assert forall i :: |ds| - z <= i < |ds| ==> ds[i] == '0';
    DigitsWithZeros(ds, z);
    assert ds[..|ds| - z] == ds[..k];
  }

  lemma {:induction false} DigitRun(ds: string, rest: string)
    requires AllDigits(ds) && (rest == [] || !IsDigit(rest[0]))
    ensures RunLength(ds + rest, Digits) == |ds|
    decreases |ds|
  {
    if ds != [] {
      assert (ds + rest)[1..] == ds[1..] + rest;
      DigitRun(ds[1..], rest);
    } else {
      assert ds + rest == rest;
    }
  }

  // ---------------------------------------------------------------------
  // Text that is already tidy passes through unchanged.

  /** A character of a key or number that no pass touches: not blank, not
      an operator character, not a quote, a slash or a point. */
  predicate IsWordChar(c: char) {
    !IsSpace(c) && c !in "#;[]!><=\"/."
  }

  /** The separators a statement skeleton is written with. */
  predicate IsJoinChar(c: char) {
    c in ";[]> "
  }

  /** Two neighbouring characters, at least one of them a word character
      unless they are the two halves of `>>`. */
  predicate GoodPair(x: char, y: char) {
    IsWordChar(x) || IsWordChar(y) || (x == '>' && y == '>')
  }

  /** Words joined by single separators. */
  predicate Clean(s: string) {
    && (forall i :: 0 <= i < |s| ==> IsWordChar(s[i]) || IsJoinChar(s[i]))
    && (forall i :: 0 <= i < |s| - 1 ==> GoodPair(s[i], s[i + 1]))
  }

  lemma CleanTail(s: string)
    requires Clean(s) && s != []
    ensures Clean(s[1..])
  {
    var m := s[1..];
    forall i | 0 <= i < |m| ensures IsWordChar(m[i]) || IsJoinChar(m[i]) {
      assert m[i] == s[i + 1];
    }
    forall i | 0 <= i < |m| - 1 ensures GoodPair(m[i], m[i + 1]) {
      assert m[i] == s[i + 1] && m[i + 1] == s[i + 2];
    }
  }

  lemma CleanConcat(a: string, b: string)
    requires Clean(a) && Clean(b)
    requires a != [] && b != [] ==> GoodPair(a[|a| - 1], b[0])
    ensures Clean(a + b)
  {
    var s := a + b;
    forall i | 0 <= i < |s| - 1 ensures GoodPair(s[i], s[i + 1]) {
      if i + 1 < |a| {
        assert s[i] == a[i] && s[i + 1] == a[i + 1];
      } else if i >= |a| {
        assert s[i] == b[i - |a|] && s[i + 1] == b[i - |a| + 1];
      } else {
        assert s[i] == a[|a| - 1] && s[i + 1] == b[0];
      }
    }
  }

  /** A run substitution leaves text alone whose run characters are the
      replacement already and stand alone. */
  lemma {:induction false} SqueezeUnchanged(s: string, k: Run, rep: char)
    requires forall i :: 0 <= i < |s| && InRun(s[i], k) ==> s[i] == rep
    requires forall i :: 0 <= i < |s| - 1 ==> !(InRun(s[i], k) && InRun(s[i + 1], k))
    ensures Squeeze(s, k, rep) == s
    decreases |s|
  {
    if s != [] {
      if InRun(s[0], k) {
        assert |s| > 1 ==> !InRun(s[1], k);
        assert RunLength(s, k) == 1;
      }
      SqueezeUnchanged(s[1..], k, rep);
    }
  }

  /** Blanks never touch an operator character in `s`. */
  predicate BlanksApart(s: string) {
    forall i :: 0 <= i < |s| - 1 ==>
      !(IsSpace(s[i]) && InRun(s[i + 1], Ops)) && !(InRun(s[i], Ops) && IsSpace(s[i + 1]))
  }

  lemma BlanksApartSuffix(s: string, n: nat)
    requires BlanksApart(s) && n <= |s|
    ensures BlanksApart(s[n..])
  {
    var t := s[n..];
    forall i | 0 <= i < |t| - 1
      ensures !(IsSpace(t[i]) && InRun(t[i + 1], Ops)) && !(InRun(t[i], Ops) && IsSpace(t[i + 1]))
    {
      assert t[i] == s[n + i] && t[i + 1] == s[n + i + 1];
    }
  }

  /** A blank that does not touch an operator character is kept. */
  lemma TightenBlank(s: string)
    requires BlanksApart(s) && s != [] && IsSpace(s[0])
    ensures RunLength(s, Ops) == 0
    ensures Tighten(s) == [s[0]] + Tighten(s[1..])
  {
    var w := RunLength(s, Blank);
    RunLengthRun(s, Blank);
    if w < |s| {
      assert IsSpace(s[w - 1]);
      BlankBeforeWord(s, w);
      assert s[w..][0] == s[w];
    }
    assert RunLength(s[w..], Ops) == 0;
  }

  lemma BlankBeforeWord(s: string, w: nat)
    requires BlanksApart(s) && 0 < w < |s| && IsSpace(s[w - 1])
    ensures !InRun(s[w], Ops)
  {
  }

  /** A run of operator characters is kept whole, and nothing around
      it is dropped. */
  lemma TightenOps(s: string)
    requires BlanksApart(s) && s != [] && !IsSpace(s[0])
    ensures RunLength(s, Ops) == 0 ==> Tighten(s) == [s[0]] + Tighten(s[1..])
    ensures RunLength(s, Ops) > 0 ==> Tighten(s) == s[..RunLength(s, Ops)] + Tighten(s[RunLength(s, Ops)..])
  {
    assert RunLength(s, Blank) == 0;
    assert s[0..] == s;
    var o := RunLength(s, Ops);
    RunLengthRun(s, Ops);
    if 0 < o < |s| {
      assert InRun(s[o - 1], Ops);
      assert !IsSpace(s[o]);
      assert RunLength(s[o..], Blank) == 0;
    }
  }

  lemma TightenStep(s: string)
    requires BlanksApart(s) && s != []
    ensures RunLength(s, Ops) == 0 ==> Tighten(s) == [s[0]] + Tighten(s[1..])
    ensures RunLength(s, Ops) > 0 ==> Tighten(s) == s[..RunLength(s, Ops)] + Tighten(s[RunLength(s, Ops)..])
  {
    if IsSpace(s[0]) {
      TightenBlank(s);
    } else {
      TightenOps(s);
    }
  }

  lemma {:induction false} TightenUnchanged(s: string)
    requires BlanksApart(s)
    ensures Tighten(s) == s
    decreases |s|
  {
    if s != [] {
      TightenStep(s);
      var o := RunLength(s, Ops);
      var n := if o > 0 then o else 1;
      BlanksApartSuffix(s, n);
      TightenUnchanged(s[n..]);
      assert s[..n] + s[n..] == s;
      assert o == 0 ==> s[..n] == [s[0]];
    }
  }

  lemma {:induction false} TrimZerosUnchanged(s: string)
    requires '.' !in s
    ensures TrimZeros(s) == s
    decreases |s|
  {
    if s != [] {
      TrimZerosUnchanged(s[1..]);
    }
  }

  lemma {:induction false} SplitQuotesNone(s: string, escaped: bool)
    requires '"' !in s
    ensures SplitQuotes(s, escaped) == [s]
    decreases |s|
  {
    if s != [] {
      assert '"' !in s[1..];
      SplitQuotesNone(s[1..], s[0] == '\\');
      assert s == [s[0]] + s[1..];
    }
  }

  lemma CleanNoPoint(s: string)
    requires Clean(s)
    ensures '.' !in s
  {
    forall i | 0 <= i < |s| ensures s[i] != '.' {
      assert IsWordChar(s[i]) || IsJoinChar(s[i]);
    }
  }

  lemma CleanSemis(s: string)
    requires Clean(s)
    ensures Squeeze(s, SemiOrNewline, ';') == s && Squeeze(s, Semis, ';') == s
  {
    assert forall i :: 0 <= i < |s| - 1 ==> GoodPair(s[i], s[i + 1]);
    SqueezeUnchanged(s, SemiOrNewline, ';');
    SqueezeUnchanged(s, Semis, ';');
  }

  lemma CleanBlanks(s: string)
    requires Clean(s)
    ensures Squeeze(s, Blank, ' ') == s && Tighten(s) == s
  {
    SqueezeUnchanged(s, Blank, ' ');
    TightenUnchanged(s);
  }

  /** Clean text that ends in a word character is left as it is by the
      passes of `normalize`. */
  lemma TidyPartUnchanged(s: string)
    requires Clean(s) && s != [] && IsWordChar(s[|s| - 1])
    ensures TidyPart(s, false) == s
  {
    CleanSemis(s);
    CleanBlanks(s);
    var a := Squeeze(s, SemiOrNewline, ';');
    var b := Squeeze(a, Blank, ' ');
    var c := Tighten(b);
    var d := Squeeze(c, Semis, ';');
    assert d == s;
    CleanNoPoint(s);
    TrimZerosUnchanged(s);
    assert s[|s| - 1] != ';';
    assert DropTrailingSemis(s) == s;
  }

  lemma {:induction false} CleanHasNoComment(s: string)
    requires Clean(s)
    ensures !HasComment(s)
  {
  }

  /** Clean text that starts and ends with a word character comes out of
      comment removal and `normalize` as itself behind the `;` that
      `normalize` adds. */
  lemma NormalizeUnchanged(s: string)
    requires Clean(s) && s != [] && IsWordChar(s[0]) && IsWordChar(s[|s| - 1])
    ensures StripComments(s) == s
    ensures Normalized(s, false) == [";" + s]
  {
    CleanHasNoComment(s);
    StripCommentsNone(s);
    assert StripBlank(s) == s;
    var t := ";" + s;
    assert Clean(t) by {
      CleanConcat(";", s);
    }
    CleanNoQuote(t);
    SplitQuotesNone(t, false);
    NormalizedOnePart(s, t);
    TidyPartUnchanged(t);
  }

  lemma CleanNoQuote(s: string)
    requires Clean(s)
    ensures '"' !in s
  {
    forall i | 0 <= i < |s| ensures s[i] != '"' {
      assert IsWordChar(s[i]) || IsJoinChar(s[i]);
    }
  }

  /** Text without a quote is one part, tidied. */
  lemma NormalizedOnePart(memestr: string, part: string)
    requires SplitQuotes(";" + StripBlank(memestr), false) == [part]
    ensures Normalized(memestr, false) == [TidyPart(part, false)]
  {
  }
}
