/** The lexer `decode` (memelang.py lines 165-220): the text, without
    comments and normalized, becomes a flat token list `[id, mix, operator,
    operand, ...]`; quoted parts become `=$` string operands. */
module Lexer {
  import opened Base
  import opened Strings
  import opened Tidy

  /** The characters of `SPLITOPR`, `[#;\[\]!><=\s]`. */
  predicate IsSplitChar(c: char) {
    c == '#' || c == ';' || c == '[' || c == ']' || c == '!' || c == '>' || c == '<' || c == '=' || IsSpace(c)
  }

  /** The list `re.split(SPLITOPR, s)` yields: chunks without split
      characters at even indices, each split character alone at the odd
      index between them. */
  predicate SplitShape(strtoks: seq<string>) {
    && |strtoks| % 2 == 1
    && (forall k :: 0 <= k < |strtoks| && k % 2 == 1 ==> |strtoks[k]| == 1 && IsSplitChar(strtoks[k][0]))
    && (forall k :: 0 <= k < |strtoks| && k % 2 == 0 ==> NoSplitChar(strtoks[k]))
  }

  predicate NoSplitChar(s: string) {
    forall i :: 0 <= i < |s| ==> !IsSplitChar(s[i])
  }

  /** `re.split(SPLITOPR, s)` */
  function SplitOps(s: string): (r: seq<string>)
    ensures SplitShape(r)
    decreases |s|
  {
    if s == [] then [""]
    else if IsSplitChar(s[0]) then
      var rest := SplitOps(s[1..]);
      assert forall k :: 2 <= k < |rest| + 2 ==> (["", [s[0]]] + rest)[k] == rest[k - 2];
      ["", [s[0]]] + rest
    else
      var rest := SplitOps(s[1..]);
      var r := [[s[0]] + rest[0]] + rest[1..];
      assert forall k :: 1 <= k < |r| ==> r[k] == rest[k];
      r
  }

  function Concat(parts: seq<string>): string {
    if parts == [] then [] else parts[0] + Concat(parts[1..])
  }

  /** The pieces of the split make up the text. */
  lemma {:induction false} SplitOpsConcat(s: string)
    ensures Concat(SplitOps(s)) == s
    decreases |s|
  {
    if s != [] {
      var rest := SplitOps(s[1..]);
      SplitOpsConcat(s[1..]);
      if IsSplitChar(s[0]) {
        var r := ["", [s[0]]] + rest;
        assert r[1..] == [[s[0]]] + rest && r[1..][1..] == rest;
      } else {
        var r := [[s[0]] + rest[0]] + rest[1..];
        assert r[1..] == rest[1..];
        assert rest == [rest[0]] + rest[1..];
      }
    }
  }

  /** The reserved id of `t`, `f` or `g`. */
  function TfgId(s: string): int {
    if s == "t" then T_ID else if s == "f" then F_ID else G_ID
  }

  /** `re.match(r'-?[0-9]+', s)` */
  predicate StartsWithInt(s: string) {
    (|s| >= 1 && IsDigit(s[0])) || (|s| >= 2 && s[0] == '-' && IsDigit(s[1]))
  }

  /** An operand chunk: it must follow an operator, hold a letter or digit,
      and then becomes a t/f/g id (turning `=` into `=#`), a decimal when it
      has a point or follows a decimal comparator, an integer when it starts
      like one, and a key otherwise. */
  function LexOperand(strtok: string, tokens: seq<Val>): (r: Result<seq<Val>>)
    requires |tokens| >= 2
    ensures r.Ok? ==> |r.value| == |tokens| && r.value[..|tokens| - 2] == tokens[..|tokens| - 2]
    ensures r.Ok? ==> tokens[|tokens| - 1] == Nil && HasLowerAlnum(strtok)
  {
    var n := |tokens|;
    if tokens[n - 1] != Nil then Err(SequenceError)
    else if !HasLowerAlnum(strtok) then Err(UnexpectedChunk)
    else if strtok in ["t", "f", "g"] then
      if tokens[n - 2] != Int(EQ_DEC) && tokens[n - 2] != Int(EQ_ID) then Err(CompareSequence)
      else Ok(tokens[n - 2 := Int(EQ_ID)][n - 1 := Int(TfgId(strtok))])
    else if '.' !in strtok && Info(tokens[n - 2]).None? then Err(KeyError)
    else if '.' in strtok || Info(tokens[n - 2]).value.form == FLOAT then
      if IsFloatText(strtok) then Ok(tokens[n - 1 := Dec(strtok)]) else Err(NotAFloat)
    else if StartsWithInt(strtok) then
      match ParseInt(strtok)
      case None => Err(NotAnInt)
      case Some(i) => Ok(tokens[n - 1 := Int(i)])
    else Ok(tokens[n - 1 := Str(strtok)])
  }

  /** The inner loop of `decode` over the pieces of one unquoted part,
      from piece `t` on. An intermediate operator (`>`, `<`, `!`) joins the
      operator two pieces on when the pair is in `OPSTR`, and the piece in
      between is skipped. */
  function LexChunks(strtoks: seq<string>, t: nat, tokens: seq<Val>): Result<seq<Val>>
    requires SplitShape(strtoks) && |tokens| >= 2
    decreases |strtoks| - t
  {
    if t >= |strtoks| then Ok(tokens)
    else
      var strtok := strtoks[t];
      if strtok == [] then LexChunks(strtoks, t + 1, tokens)
      else if OpStr(strtok).Some? then
        var entry := OpStr(strtok).value;
        OpStrKeys(strtok);
        assert t % 2 == 1;
        if entry.completeness != COMPLETE && t < |strtoks| - 3 && OpStr(strtok + strtoks[t + 2]).Some? then
          var merged := strtok + strtoks[t + 2];
          MergedOperator(strtok, strtoks[t + 2]);
          LexChunks(strtoks, t + 3, tokens + [Int(OpStr(merged).value.op.value), Nil])
        else if entry.completeness == INCOMPLETE then Err(InvalidOperator)
        else
          OpStrYieldsOperators(strtok);
          LexChunks(strtoks, t + 1, tokens + [Int(entry.op.value), Nil])
      else
        match LexOperand(strtok, tokens)
        case Err(e) => Err(e)
        case Ok(next) => LexChunks(strtoks, t + 1, next)
  }

  /** The keys of `OPSTR` are made of split characters. */
  lemma OpStrKeys(s: string)
    requires OpStr(s).Some?
    ensures s != [] && IsSplitChar(s[0])
  {
  }

  /** A joined operator is a real one. */
  lemma MergedOperator(a: string, b: string)
    requires OpStr(a).Some? && OpStr(a + b).Some? && |b| == 1
    ensures OpStr(a + b).value.op.Some? && OpStr(a + b).value.op.value in OPERATORS
  {
    OpStrYieldsOperators(a + b);
  }

  /** A quoted part: it must follow `=`, which becomes `=$`. */
  function LexQuote(part: string, tokens: seq<Val>): Result<seq<Val>>
    requires |tokens| >= 2
  {
    var n := |tokens|;
    if tokens[n - 2] != Int(EQ_DEC) then Err(ErrantQuote)
    else Ok(tokens[n - 2 := Int(EQ_STR)][n - 1 := Str(part)])
  }

  /** The outer loop of `decode` over the parts, from part `p` on. */
  function LexParts(parts: seq<string>, p: nat, tokens: seq<Val>): Result<seq<Val>>
    requires |tokens| >= 2
    decreases |parts| - p
  {
    if p >= |parts| then Ok(tokens)
    else
      var step := if p % 2 == 1 then LexQuote(parts[p], tokens) else LexChunks(SplitOps(parts[p]), 0, tokens);
      match step
      case Err(e) => Err(e)
      case Ok(next) => if |next| >= 2 then LexParts(parts, p + 1, next) else Ok(next)
  }

  /** One step of the outer loop. */
  lemma LexPartsStep(parts: seq<string>, p: nat, tokens: seq<Val>)
    requires |tokens| >= 2 && p < |parts|
    ensures p % 2 == 1 ==> (LexParts(parts, p, tokens) ==
      if tokens[|tokens| - 2] != Int(EQ_DEC) then Err(ErrantQuote)
      else LexParts(parts, p + 1, tokens[|tokens| - 2 := Int(EQ_STR)][|tokens| - 1 := Str(parts[p])]))
    ensures p % 2 == 0 ==> (LexParts(parts, p, tokens) ==
      match LexChunks(SplitOps(parts[p]), 0, tokens)
      case Err(e) => Err(e)
      case Ok(next) => if |next| >= 2 then LexParts(parts, p + 1, next) else Ok(next))
  {
  }

  const HEADER: seq<Val> := [Int(ID), Int(MIX)]

  /** What `decode(memestr)` returns or raises. */
  function Decoded(memestr: string): Result<seq<Val>> {
    var text := StripComments(memestr);
    if |text| == 0 then Err(EmptyQuery)
    else LexParts(Normalized(text, false), 0, HEADER)
  }

  /** `decode(memestr)` */
  method Decode(memestr: string) returns (r: Result<seq<Val>>)
    ensures r == Decoded(memestr)
  {
    var text := StripComments(memestr);
    if |text| == 0 {
      return Err(EmptyQuery);
    }
    var parts := Normalize(text, false);
    r := LexAll(parts);
  }

  /** The outer loop of `decode` over the normalized parts: an odd part is
      quoted text, an even part is split into operators and operands. */
  method LexAll(parts: seq<string>) returns (r: Result<seq<Val>>)
    ensures r == LexParts(parts, 0, HEADER)
  {
    var tokens := HEADER;
    for p := 0 to |parts|
      invariant |tokens| >= 2
      invariant LexParts(parts, p, tokens) == LexParts(parts, 0, HEADER)
    {
      LexPartsStep(parts, p, tokens);
      var n := |tokens|;
      if p % 2 == 1 {
        if tokens[n - 2] != Int(EQ_DEC) {
          return Err(ErrantQuote);
        }
        tokens := tokens[n - 2 := Int(EQ_STR)];
        tokens := tokens[n - 1 := Str(parts[p])];
      } else {
        var next := LexPart(SplitOps(parts[p]), tokens);
        if next.Err? {
          return next;
        }
        tokens := next.value;
      }
    }
    return Ok(tokens);
  }

  /** The inner loop of `decode` over the pieces of one unquoted part. */
  method LexPart(strtoks: seq<string>, start: seq<Val>) returns (r: Result<seq<Val>>)
    requires SplitShape(strtoks) && |start| >= 2
    ensures r == LexChunks(strtoks, 0, start)
    ensures r.Ok? ==> |r.value| >= 2
  {
    var tokens := start;
    var tlen := |strtoks|;
    var t := 0;
    while t < tlen
      invariant |tokens| >= 2
      invariant LexChunks(strtoks, t, tokens) == LexChunks(strtoks, 0, start)
      decreases tlen - t
    {
      var strtok := strtoks[t];
      if |strtok| == 0 {
      } else if OpStr(strtok).Some? {
        var completeness, operator := OpStr(strtok).value.completeness, OpStr(strtok).value.op;
        OpStrKeys(strtok);
        OpStrYieldsOperators(strtok);
        if completeness != COMPLETE {
          if t < tlen - 3 && OpStr(strtok + strtoks[t + 2]).Some? {
            MergedOperator(strtok, strtoks[t + 2]);
            completeness, operator := OpStr(strtok + strtoks[t + 2]).value.completeness, OpStr(strtok + strtoks[t + 2]).value.op;
            t := t + 2;
          } else if completeness == INCOMPLETE {
            return Err(InvalidOperator);
          }
        }
        tokens := tokens + [Int(operator.value), Nil];
      } else {
        var next := ReadOperand(strtok, tokens);
        if next.Err? {
          return next;
        }
        tokens := next.value;
      }
      t := t + 1;
    }
    return Ok(tokens);
  }

  /** The operand branch of the inner loop, which overwrites the last one
      or two slots of the list. */
  method ReadOperand(strtok: string, start: seq<Val>) returns (r: Result<seq<Val>>)
    requires |start| >= 2
    ensures r == LexOperand(strtok, start)
  {
    var tokens := start;
    var n := |tokens|;
    if tokens[n - 1] != Nil {
      return Err(SequenceError);
    }
    if !HasLowerAlnum(strtok) {
      return Err(UnexpectedChunk);
    }
    if strtok in ["t", "f", "g"] {
      tokens := tokens[n - 1 := Int(TfgId(strtok))];
      if tokens[n - 2] != Int(EQ_DEC) && tokens[n - 2] != Int(EQ_ID) {
        return Err(CompareSequence);
      }
      tokens := tokens[n - 2 := Int(EQ_ID)];
      assert tokens == start[n - 2 := Int(EQ_ID)][n - 1 := Int(TfgId(strtok))];
    } else if '.' in strtok || Info(tokens[n - 2]).None? || Info(tokens[n - 2]).value.form == FLOAT {
      if '.' !in strtok && Info(tokens[n - 2]).None? {
        return Err(KeyError);
      }
      if !IsFloatText(strtok) {
        return Err(NotAFloat);
      }
      tokens := tokens[n - 1 := Dec(strtok)];
    } else if StartsWithInt(strtok) {
      var i := ParseInt(strtok);
      if i.None? {
        return Err(NotAnInt);
      }
      tokens := tokens[n - 1 := Int(i.value)];
    } else {
      tokens := tokens[n - 1 := Str(strtok)];
    }
    return Ok(tokens);
  }

  /** A token list as `decode` builds it: even length, the header
      `[id, mix]`, and an `OPR` operator in every even slot after it. */
  predicate Shaped(tokens: seq<Val>) {
    && |tokens| >= 2 && |tokens| % 2 == 0
    && tokens[0] == Int(ID) && tokens[1] == Int(MIX)
    && forall k :: 2 <= k < |tokens| && k % 2 == 0 ==> Info(tokens[k]).Some?
  }

  /** The first operator after the header is `;`. */
  predicate Opened(tokens: seq<Val>) {
    |tokens| > 2 ==> tokens[2] == Int(SEMI)
  }

  lemma AppendShaped(tokens: seq<Val>, op: int)
    requires Shaped(tokens) && op in OPERATORS
    ensures Shaped(tokens + [Int(op), Nil])
    ensures Opened(tokens) && |tokens| > 2 ==> (tokens + [Int(op), Nil])[2] == Int(SEMI)
  {
    var r := tokens + [Int(op), Nil];
    assert forall k :: 0 <= k < |tokens| ==> r[k] == tokens[k];
  }

  /** An operand keeps the shape and never overwrites a `;`. */
  lemma OperandShaped(strtok: string, tokens: seq<Val>)
    requires Shaped(tokens)
    ensures LexOperand(strtok, tokens).Ok? ==>
      var r := LexOperand(strtok, tokens).value;
      Shaped(r) && (Opened(tokens) ==> Opened(r))
  {
  }

  lemma {:induction false} ChunksShaped(strtoks: seq<string>, t: nat, tokens: seq<Val>)
    requires SplitShape(strtoks) && Shaped(tokens)
    ensures LexChunks(strtoks, t, tokens).Ok? ==>
      var r := LexChunks(strtoks, t, tokens).value;
      Shaped(r) && |r| >= |tokens| && (Opened(tokens) && |tokens| > 2 ==> Opened(r))
    decreases |strtoks| - t
  {
    if t < |strtoks| {
      var strtok := strtoks[t];
      if strtok == [] {
        ChunksShaped(strtoks, t + 1, tokens);
      } else if OpStr(strtok).Some? {
        var entry := OpStr(strtok).value;
        OpStrKeys(strtok);
        OpStrYieldsOperators(strtok);
        if entry.completeness != COMPLETE && t < |strtoks| - 3 && OpStr(strtok + strtoks[t + 2]).Some? {
          MergedOperator(strtok, strtoks[t + 2]);
          var op := OpStr(strtok + strtoks[t + 2]).value.op.value;
          AppendShaped(tokens, op);
          ChunksShaped(strtoks, t + 3, tokens + [Int(op), Nil]);
        } else if entry.completeness != INCOMPLETE {
          AppendShaped(tokens, entry.op.value);
          ChunksShaped(strtoks, t + 1, tokens + [Int(entry.op.value), Nil]);
        }
      } else {
        OperandShaped(strtok, tokens);
        if LexOperand(strtok, tokens).Ok? {
          ChunksShaped(strtoks, t + 1, LexOperand(strtok, tokens).value);
        }
      }
    }
  }

  lemma {:induction false} PartsShaped(parts: seq<string>, p: nat, tokens: seq<Val>)
    requires Shaped(tokens)
    ensures LexParts(parts, p, tokens).Ok? ==>
      var r := LexParts(parts, p, tokens).value;
      Shaped(r) && |r| >= |tokens| && (Opened(tokens) && |tokens| > 2 ==> Opened(r))
    decreases |parts| - p
  {
    if p < |parts| {
      LexPartsStep(parts, p, tokens);
      if p % 2 == 1 {
        if LexQuote(parts[p], tokens).Ok? {
          PartsShaped(parts, p + 1, LexQuote(parts[p], tokens).value);
        }
      } else {
        ChunksShaped(SplitOps(parts[p]), 0, tokens);
        if LexChunks(SplitOps(parts[p]), 0, tokens).Ok? {
          PartsShaped(parts, p + 1, LexChunks(SplitOps(parts[p]), 0, tokens).value);
        }
      }
    }
  }

  /** The first part of a normalized text opens with `;`, which the lexer
      turns into the first operator. */
  lemma FirstChunks(part: string)
    requires part != [] && part[0] == ';'
    ensures LexChunks(SplitOps(part), 0, HEADER) == LexChunks(SplitOps(part), 2, HEADER + [Int(SEMI), Nil])
  {
    var strtoks := SplitOps(part);
    assert strtoks == ["", ";"] + SplitOps(part[1..]);
    assert strtoks[1] == ";";
  }

  /** `decode` yields an even-length list that starts with `[id, mix]`,
      holds an `OPR` operator in every even slot, and whose first operator
      is `;`. */
  lemma DecodeShape(memestr: string)
    ensures Decoded(memestr).Ok? ==> Shaped(Decoded(memestr).value) && Opened(Decoded(memestr).value)
  {
    var text := StripComments(memestr);
    if |text| > 0 {
      var parts := Normalized(text, false);
      var part := parts[0];
      var strtoks := SplitOps(part);
      LexPartsStep(parts, 0, HEADER);
      if part == [] {
        assert strtoks == [""];
        assert LexChunks(strtoks, 0, HEADER) == Ok(HEADER);
        if |parts| > 1 {
          LexPartsStep(parts, 1, HEADER);
        }
      } else {
        FirstChunks(part);
        var start := HEADER + [Int(SEMI), Nil];
        AppendShaped(HEADER, SEMI);
        ChunksShaped(strtoks, 2, start);
        if LexChunks(strtoks, 2, start).Ok? {
          PartsShaped(parts, 1, LexChunks(strtoks, 2, start).value);
        }
      }
    }
  }

  /** How an operand chunk is classified, and when it is rejected. */
  lemma OperandClasses(strtok: string, tokens: seq<Val>)
    requires |tokens| >= 2
    ensures var n, r := |tokens|, LexOperand(strtok, tokens);
      && (r == Err(SequenceError) <==> tokens[n - 1] != Nil)
      && (r == Err(UnexpectedChunk) <==> tokens[n - 1] == Nil && !HasLowerAlnum(strtok))
      && (tokens[n - 1] == Nil && HasLowerAlnum(strtok) && strtok in ["t", "f", "g"] ==>
            (r == Err(CompareSequence) <==> tokens[n - 2] != Int(EQ_DEC) && tokens[n - 2] != Int(EQ_ID)))
      && (r.Ok? && strtok in ["t", "f", "g"] ==>
            r.value[n - 2] == Int(EQ_ID) && r.value[n - 1] == Int(TfgId(strtok)))
      && (r.Ok? && strtok !in ["t", "f", "g"] ==> r.value[n - 2] == tokens[n - 2])
      && (r.Ok? && strtok !in ["t", "f", "g"] && '.' in strtok ==>
            r.value[n - 1] == Dec(strtok) && IsFloatText(strtok))
      && (r.Ok? && strtok !in ["t", "f", "g"] && Info(tokens[n - 2]).Some? && Info(tokens[n - 2]).value.form == FLOAT ==>
            r.value[n - 1] == Dec(strtok))
      && (r.Ok? && '.' !in strtok && Info(tokens[n - 2]).Some? && Info(tokens[n - 2]).value.form != FLOAT && AllDigits(strtok) ==>
            r.value[n - 1] == Int(DigitsValue(strtok)))
      && (r.Ok? && r.value[n - 1].Str? ==> r.value[n - 1] == Str(strtok) && !StartsWithInt(strtok) && '.' !in strtok)
  {
    var n := |tokens|;
    if strtok != [] && AllDigits(strtok) {
      ParseIntOfDigits(strtok);
    }
  }

  /** The errors of the piece loop: a bare `!`, or an operand that `LexOperand` rejects. */
  lemma {:induction false} ChunksErrors(strtoks: seq<string>, t: nat, tokens: seq<Val>)
    requires SplitShape(strtoks) && |tokens| >= 2
    ensures LexChunks(strtoks, t, tokens).Err? ==>
      LexChunks(strtoks, t, tokens).error in {InvalidOperator, SequenceError, UnexpectedChunk, CompareSequence, KeyError, NotAFloat, NotAnInt}
    decreases |strtoks| - t
  {
    if t < |strtoks| {
      var strtok := strtoks[t];
      if strtok == [] {
        ChunksErrors(strtoks, t + 1, tokens);
      } else if OpStr(strtok).Some? {
        var entry := OpStr(strtok).value;
        OpStrKeys(strtok);
        OpStrYieldsOperators(strtok);
        if entry.completeness != COMPLETE && t < |strtoks| - 3 && OpStr(strtok + strtoks[t + 2]).Some? {
          MergedOperator(strtok, strtoks[t + 2]);
          ChunksErrors(strtoks, t + 3, tokens + [Int(OpStr(strtok + strtoks[t + 2]).value.op.value), Nil]);
        } else if entry.completeness != INCOMPLETE {
          ChunksErrors(strtoks, t + 1, tokens + [Int(entry.op.value), Nil]);
        }
      } else if LexOperand(strtok, tokens).Ok? {
        ChunksErrors(strtoks, t + 1, LexOperand(strtok, tokens).value);
      }
    }
  }

  /** A lone `!` (one whose piece two on does not make `!=`) is rejected. */
  lemma BangRejected(strtoks: seq<string>, t: nat, tokens: seq<Val>)
    requires SplitShape(strtoks) && |tokens| >= 2
    requires t < |strtoks| && strtoks[t] == "!"
    requires t + 2 < |strtoks| ==> strtoks[t + 2] != "="
    ensures LexChunks(strtoks, t, tokens) == Err(InvalidOperator)
  {
    if t + 2 < |strtoks| {
      var next := strtoks[t + 2];
      assert |next| == 1 by { OpStrKeys(strtoks[t]); }
      var m := "!" + next;
      assert |m| == 2 && m[0] == '!' && m[1] == next[0];
      assert next == [next[0]];
      assert OpStr(m).None?;
    }
  }

  /** `>` or `<`, then a piece, then `=` is read as the single operator
      `>=` or `<=`, and the piece in between is skipped. */
  lemma ComparatorsMerge(strtoks: seq<string>, t: nat, tokens: seq<Val>)
    requires SplitShape(strtoks) && |tokens| >= 2
    requires t + 3 < |strtoks| && strtoks[t] in [">", "<"] && strtoks[t + 2] == "="
    ensures LexChunks(strtoks, t, tokens) ==
      LexChunks(strtoks, t + 3, tokens + [Int(if strtoks[t] == ">" then GE else LE), Nil])
  {
    var strtok := strtoks[t];
    var merged := strtok + strtoks[t + 2];
    assert merged == (if strtok == ">" then ">=" else "<=");
    assert OpStr(strtok).value.completeness == INTERMEDIATE;
    assert OpStr(merged).value.op.value == (if strtok == ">" then GE else LE);
  }

  /** The errors `decode` raises, and the ones raised before any piece is read. */
  lemma DecodeErrors(memestr: string)
    ensures Decoded(memestr) == Err(EmptyQuery) <==> StripComments(memestr) == []
    ensures Decoded(memestr).Err? ==> (Decoded(memestr).error in
      {EmptyQuery, ErrantQuote, InvalidOperator, SequenceError, UnexpectedChunk, CompareSequence, KeyError, NotAFloat, NotAnInt})
  {
    var text := StripComments(memestr);
    if |text| > 0 {
      PartsErrors(Normalized(text, false), 0, HEADER);
    }
  }

  lemma {:induction false} PartsErrors(parts: seq<string>, p: nat, tokens: seq<Val>)
    requires |tokens| >= 2
    ensures LexParts(parts, p, tokens).Err? ==> (LexParts(parts, p, tokens).error in
      {ErrantQuote, InvalidOperator, SequenceError, UnexpectedChunk, CompareSequence, KeyError, NotAFloat, NotAnInt})
    decreases |parts| - p
  {
    if p < |parts| {
      LexPartsStep(parts, p, tokens);
      if p % 2 == 1 {
        if LexQuote(parts[p], tokens).Ok? {
          PartsErrors(parts, p + 1, LexQuote(parts[p], tokens).value);
        }
      } else {
        ChunksErrors(SplitOps(parts[p]), 0, tokens);
        if LexChunks(SplitOps(parts[p]), 0, tokens).Ok? && |LexChunks(SplitOps(parts[p]), 0, tokens).value| >= 2 {
          PartsErrors(parts, p + 1, LexChunks(SplitOps(parts[p]), 0, tokens).value);
        }
      }
    }
  }

  /** A quoted part becomes a `=$` operand holding the quoted text as
      `normalize` left it, which is the text between the quotes. */
  lemma QuoteKeepsText(parts: seq<string>, p: nat, tokens: seq<Val>)
    requires |tokens| >= 2 && p < |parts| && p % 2 == 1
    requires tokens[|tokens| - 2] == Int(EQ_DEC)
    ensures LexParts(parts, p, tokens) ==
      LexParts(parts, p + 1, tokens[..|tokens| - 2] + [Int(EQ_STR), Str(parts[p])])
  {
    LexPartsStep(parts, p, tokens);
    var n := |tokens|;
    assert tokens[n - 2 := Int(EQ_STR)][n - 1 := Str(parts[p])] == tokens[..n - 2] + [Int(EQ_STR), Str(parts[p])];
  }
}
