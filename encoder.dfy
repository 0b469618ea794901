/** The renderer `encode` (memelang.py lines 225-240), which writes a token
    list back as Memelang text, and the round trip through `decode`. */
module Encoder {
  import opened Base
  import opened Strings
  import opened Tidy
  import opened Lexer

  /** `str()` of an operand; a decimal is shown as the text it was read from. */
  function Shown(v: Val): string {
    match v
    case Nil => "None"
    case Int(i) => IntToString(i)
    case Str(s) => s
    case Dec(t) => t
  }

  function Then(prefix: string, r: Result<string>): Result<string> {
    match r
    case Ok(s) => Ok(prefix + s)
    case Err(e) => Err(e)
  }

  /** The text of one pair. The operator is written as its `OUT` text, or as
      its key when that is `False`, except for the `;` that opens the list;
      a string operand is closed with a double quote, an id operand (`=#`)
      is written as its key in `K`, and an absent operand as nothing. */
  function PairText(operator: Val, operand: Val, first: bool, K: map<int, string>): Result<string>
    requires Info(operator).Some?
  {
    var info := Info(operator).value;
    var head := if !first || operator != Int(SEMI) then OpText(operator.i) else "";
    if info.form == STRING then Ok(head + Shown(operand) + "\"")
    else if operand == Nil then Ok(head)
    else if info.form == IDENT then
      if operand.Int? && operand.i in K then Ok(head + K[operand.i]) else Err(KeyError)
    else Ok(head + Shown(operand))
  }

  /** The loop of `encode` from slot `o` on: an operator missing from `OPR`
      raises KeyError, and an operator without an operand IndexError. */
  function EncodeFrom(tokens: seq<Val>, o: nat, K: map<int, string>): Result<string>
    decreases |tokens| - o
  {
    if o >= |tokens| then Ok("")
    else if Info(tokens[o]).None? then Err(KeyError)
    else if o + 1 >= |tokens| then Err(IndexError)
    else match PairText(tokens[o], tokens[o + 1], o == 2, K)
      case Err(e) => Err(e)
      case Ok(text) => Then(text, EncodeFrom(tokens, o + 2, K))
  }

  /** What `encode(tokens, {'newline': newline})` returns or raises. */
  function Encoded(tokens: seq<Val>, newline: bool, K: map<int, string>): Result<string> {
    match EncodeFrom(tokens, 2, K)
    case Err(e) => Err(e)
    case Ok(s) => Ok(if newline then Replace(s, ";", "\n") else s)
  }

  /** `encode(tokens, encode_set)` */
  method Encode(tokens: seq<Val>, newline: bool, K: map<int, string>) returns (r: Result<string>)
    ensures r == Encoded(tokens, newline, K)
  {
    var memestr := "";
    var olen := |tokens|;
    var o := 2;
    assert Then(memestr, EncodeFrom(tokens, o, K)) == EncodeFrom(tokens, 2, K) by {
      ThenEmpty(EncodeFrom(tokens, 2, K));
    }
    while o < olen
      invariant 2 <= o && (o <= olen || olen < 2)
      invariant Then(memestr, EncodeFrom(tokens, o, K)) == EncodeFrom(tokens, 2, K)
      decreases olen - o
    {
      var operator := tokens[o];
      if Info(operator).None? {
        assert EncodeFrom(tokens, o, K) == Err(KeyError);
        return Err(KeyError);
      }
      var info := Info(operator).value;
      var text := "";
      if o > 2 || operator != Int(SEMI) {
        text := if info.out.None? then OpName(operator.i) else info.out.value;
      }
      if o + 1 >= olen {
        assert EncodeFrom(tokens, o, K) == Err(IndexError);
        return Err(IndexError);
      }
      var operand := tokens[o + 1];
      if info.form == STRING {
        text := text + Shown(operand) + "\"";
      } else if operand == Nil {
      } else if info.form == IDENT {
        if !(operand.Int? && operand.i in K) {
          assert EncodeFrom(tokens, o, K) == Err(KeyError);
          return Err(KeyError);
        }
        text := text + K[operand.i];
      } else {
        text := text + Shown(operand);
      }
      assert EncodeFrom(tokens, o, K) == Then(text, EncodeFrom(tokens, o + 2, K)) by {
        assert PairText(operator, operand, o == 2, K) == Ok(text);
      }
      ThenThen(memestr, text, EncodeFrom(tokens, o + 2, K));
      memestr := memestr + text;
      o := o + 2;
    }
    assert EncodeFrom(tokens, 2, K) == Ok(memestr) by {
      assert EncodeFrom(tokens, o, K) == Ok("");
      assert memestr + "" == memestr;
    }
    if newline {
      memestr := Replace(memestr, ";", "\n");
    }
    return Ok(memestr);
  }

  lemma ThenEmpty(r: Result<string>)
    ensures Then("", r) == r
  {
    if r.Ok? {
      assert "" + r.value == r.value;
    }
  }

  lemma ThenThen(a: string, b: string, r: Result<string>)
    ensures Then(a, Then(b, r)) == Then(a + b, r)
  {
    if r.Ok? {
      assert a + (b + r.value) == (a + b) + r.value;
    }
  }

  /** `encode` raises only KeyError and IndexError, and IndexError only
      for a list of odd length. */
  lemma {:induction false} EncodeErrors(tokens: seq<Val>, o: nat, K: map<int, string>)
    requires o % 2 == 0
    ensures EncodeFrom(tokens, o, K).Err? ==> EncodeFrom(tokens, o, K).error in {KeyError, IndexError}
    ensures EncodeFrom(tokens, o, K) == Err(IndexError) ==> |tokens| % 2 == 1
    decreases |tokens| - o
  {
    if o < |tokens| && Info(tokens[o]).Some? && o + 1 < |tokens| {
      EncodeErrors(tokens, o + 2, K);
    }
  }

  /** With the newline option every `;` is written as a newline and
      nothing else changes. */
  lemma EncodeNewline(tokens: seq<Val>, K: map<int, string>)
    ensures Encoded(tokens, true, K).Ok? <==> Encoded(tokens, false, K).Ok?
    ensures Encoded(tokens, true, K).Ok? ==>
      var a, b := Encoded(tokens, false, K).value, Encoded(tokens, true, K).value;
      |b| == |a| && ';' !in b && forall i :: 0 <= i < |a| ==> b[i] == if a[i] == ';' then '\n' else a[i]
  {
    if EncodeFrom(tokens, 2, K).Ok? {
      ReplaceChar(EncodeFrom(tokens, 2, K).value, ';', '\n');
    }
  }

  // ---------------------------------------------------------------------
  // The round trip `decode(encode(tokens))` for plain statements.

  predicate IsWord(s: string) {
    s != [] && forall i :: 0 <= i < |s| ==> IsWordChar(s[i])
  }

  /** A key that `decode` reads back as the same key. */
  predicate PlainKey(s: string) {
    IsWord(s) && HasLowerAlnum(s) && !StartsWithInt(s) && s !in ["t", "f", "g"]
  }

  predicate PlainOperand(v: Val) {
    v.Int? || (v.Str? && PlainKey(v.s))
  }

  /** The operators of the statement skeleton: `;`, ` `, `>>`, `[`, `]`. */
  predicate PlainOperator(v: Val) {
    v.Int? && v.i in {SEMI, SPACE, CHAIN, LBRACKET, RBRACKET}
  }

  predicate PlainPairs(ps: seq<Val>) {
    && |ps| % 2 == 0
    && forall k :: 0 <= k < |ps| - 1 && k % 2 == 0 ==> PlainOperator(ps[k]) && PlainOperand(ps[k + 1])
  }

  /** A list of statements made of keys and integers joined by the
      skeleton operators, starting with `;`. */
  predicate Plain(tokens: seq<Val>) {
    |tokens| >= 4 && tokens[2] == Int(SEMI) && PlainPairs(tokens[2..])
  }

  lemma PlainTail(ps: seq<Val>)
    requires PlainPairs(ps) && |ps| >= 2
    ensures PlainOperator(ps[0]) && PlainOperand(ps[1]) && PlainPairs(ps[2..])
  {
    var rest := ps[2..];
    forall k | 0 <= k < |rest| - 1 && k % 2 == 0 ensures PlainOperator(rest[k]) && PlainOperand(rest[k + 1]) {
      assert rest[k] == ps[k + 2] && rest[k + 1] == ps[k + 3];
    }
  }

  /** The text of plain pairs, every operator written out. */
  function Render(ps: seq<Val>): string
    requires PlainPairs(ps)
    decreases |ps|
  {
    if |ps| < 2 then ""
    else
      PlainTail(ps);
      OpText(ps[0].i) + Shown(ps[1]) + Render(ps[2..])
  }

  /** A plain pair is written as its operator's text and its operand. */
  lemma PairPlain(operator: Val, operand: Val, first: bool, K: map<int, string>)
    requires PlainOperator(operator) && PlainOperand(operand)
    ensures Info(operator).Some?
    ensures PairText(operator, operand, first, K) ==
      Ok((if first && operator == Int(SEMI) then "" else OpText(operator.i)) + Shown(operand))
  {
  }

  /** After the first pair, `encode` writes a plain list as its rendering. */
  lemma {:induction false} EncodeRest(tokens: seq<Val>, o: nat, K: map<int, string>)
    requires o > 2 && o <= |tokens| && PlainPairs(tokens[o..])
    ensures EncodeFrom(tokens, o, K) == Ok(Render(tokens[o..]))
    decreases |tokens| - o
  {
    if o < |tokens| {
      var ps := tokens[o..];
      PlainTail(ps);
      assert ps[2..] == tokens[o + 2..];
      PairPlain(ps[0], ps[1], false, K);
      EncodeRest(tokens, o + 2, K);
    }
  }

  /** What `encode` writes for a plain list is its rendering without the
      opening `;`. */
  lemma EncodePlain(tokens: seq<Val>, K: map<int, string>)
    requires Plain(tokens)
    ensures Render(tokens[2..]) != [] && EncodeFrom(tokens, 2, K) == Ok(Render(tokens[2..])[1..])
  {
    var ps := tokens[2..];
    PlainTail(ps);
    RenderSemi(ps);
    assert ps[2..] == tokens[4..];
    assert EncodeFrom(tokens, 2, K) == Then(Shown(ps[1]), EncodeFrom(tokens, 4, K)) by {
      assert tokens[2] == ps[0] && tokens[3] == ps[1];
      PairPlain(ps[0], ps[1], true, K);
      assert "" + Shown(ps[1]) == Shown(ps[1]);
    }
    EncodeRest(tokens, 4, K);
    var tail := Shown(ps[1]) + Render(tokens[4..]);
    assert Render(ps)[1..] == tail;
  }

  /** The pieces `re.split(SPLITOPR, ...)` cuts the rendering of plain
      pairs into, after the empty piece that precedes the first operator:
      each operator character with the (empty) piece after it, and the
      operand's text. */
  function OpPieces(op: int): seq<string>
    requires op in {SEMI, SPACE, CHAIN, LBRACKET, RBRACKET}
  {
    if op == CHAIN then [">", "", ">"] else [OpText(op)]
  }

  function Pieces(ps: seq<Val>): seq<string>
    requires PlainPairs(ps)
    decreases |ps|
  {
    if |ps| < 2 then []
    else
      PlainTail(ps);
      OpPieces(ps[0].i) + [Shown(ps[1])] + Pieces(ps[2..])
  }

  /** The text of a plain operand is a word that `decode` reads back as the operand. */
  lemma PlainOperandText(v: Val)
    requires PlainOperand(v)
    ensures IsWord(Shown(v)) && NoSplitChar(Shown(v))
  {
    var w := Shown(v);
    if v.Int? {
      var d := NatToString(if v.i < 0 then -v.i else v.i);
      assert forall i :: 0 <= i < |d| ==> IsDigit(d[i]);
      if v.i < 0 {
        assert forall i :: 1 <= i < |w| ==> w[i] == d[i - 1];
      }
    }
  }

  lemma PlainOperandLexed(v: Val, tokens: seq<Val>)
    requires PlainOperand(v) && |tokens| >= 2
    requires tokens[|tokens| - 1] == Nil && PlainOperator(tokens[|tokens| - 2])
    ensures LexOperand(Shown(v), tokens) == Ok(tokens[|tokens| - 1 := v])
  {
    var w := Shown(v);
    PlainOperandText(v);
    if v.Int? {
      ParseIntToString(v.i);
      var d := NatToString(if v.i < 0 then -v.i else v.i);
      assert IsDigit(d[0]);
      if v.i < 0 {
        assert w[1] == d[0];
      }
      assert IsLowerAlnum(w[if v.i < 0 then 1 else 0]);
    }
  }

  /** A split character and what follows it. */
  lemma SplitSep(c: char, x: string)
    requires IsSplitChar(c)
    ensures SplitOps([c] + x) == ["", [c]] + SplitOps(x)
  {
    assert ([c] + x)[1..] == x;
  }

  /** A word and what follows it. */
  lemma {:induction false} SplitWord(w: string, rest: string)
    requires NoSplitChar(w)
    ensures SplitOps(w + rest) == [w + SplitOps(rest)[0]] + SplitOps(rest)[1..]
    decreases |w|
  {
    if w == [] {
      var r := SplitOps(rest);
      assert w + rest == rest;
      assert |r| >= 1 && w + r[0] == r[0];
      assert [r[0]] + r[1..] == r;
    } else {
      assert (w + rest)[1..] == w[1..] + rest;
      SplitWord(w[1..], rest);
      assert [w[0]] + (w[1..] + SplitOps(rest)[0]) == w + SplitOps(rest)[0];
    }
  }

  /** The text of a skeleton operator: `>>`, or one split character. */
  lemma PlainOpText(op: int) returns (t: string)
    requires op in {SEMI, SPACE, CHAIN, LBRACKET, RBRACKET}
    ensures t == OpText(op)
    ensures op == CHAIN ==> t == ">>" && OpPieces(op) == [">", "", ">"]
    ensures op != CHAIN ==> |t| == 1 && IsSplitChar(t[0]) && OpPieces(op) == [t]
    ensures op != CHAIN ==> OpStr(t) == Some(OpStrEntry(COMPLETE, Some(op)))
  {
    t := OpText(op);
  }

  /** One plain pair in front of text that splits into `[""] + tail`. */
  lemma SplitPair(t: string, pieces: seq<string>, w: string, rest: string, tail: seq<string>)
    requires (t == ">>" && pieces == [">", "", ">"]) || (|t| == 1 && IsSplitChar(t[0]) && pieces == [t])
    requires NoSplitChar(w) && SplitOps(rest) == [""] + tail
    ensures SplitOps(t + w + rest) == [""] + (pieces + [w] + tail)
  {
    if t == ">>" {
      SplitPairChain(w, rest, tail);
    } else {
      SingleChar(t);
      SplitPairSingle(t[0], w, rest, tail);
    }
  }

  lemma SingleChar(t: string)
    requires |t| == 1
    ensures t == [t[0]]
  {
  }

  lemma SplitPairChain(w: string, rest: string, tail: seq<string>)
    requires NoSplitChar(w) && SplitOps(rest) == [""] + tail
    ensures SplitOps(">>" + w + rest) == [""] + ([">", "", ">"] + [w] + tail)
  {
    var x := w + rest;
    SplitWordFirst(w, rest, tail);
    SplitChain(x, [w] + tail);
    ChainAssoc(w, rest, x, tail);
  }

  lemma ChainAssoc(w: string, rest: string, x: string, tail: seq<string>)
    requires x == w + rest
    ensures ">>" + w + rest == ">>" + x
    ensures ["", ">", "", ">"] + ([w] + tail) == [""] + ([">", "", ">"] + [w] + tail)
  {
  }

  lemma SplitPairSingle(c: char, w: string, rest: string, tail: seq<string>)
    requires IsSplitChar(c)
    requires NoSplitChar(w) && SplitOps(rest) == [""] + tail
    ensures SplitOps([c] + w + rest) == [""] + ([[c]] + [w] + tail)
  {
    SplitWordFirst(w, rest, tail);
    SplitSingle(c, w, rest, [w] + tail);
  }

  lemma SplitSingle(c: char, w: string, rest: string, after: seq<string>)
    requires IsSplitChar(c) && SplitOps(w + rest) == after
    ensures SplitOps([c] + w + rest) == [""] + ([[c]] + after)
  {
    SplitSep(c, w + rest);
    assert [c] + w + rest == [c] + (w + rest);
  }

  lemma SplitWordFirst(w: string, rest: string, tail: seq<string>)
    requires NoSplitChar(w) && SplitOps(rest) == [""] + tail
    ensures SplitOps(w + rest) == [w] + tail
  {
    SplitWord(w, rest);
    assert w + "" == w;
  }

  lemma SplitChain(x: string, after: seq<string>)
    requires SplitOps(x) == after
    ensures SplitOps(">>" + x) == ["", ">", "", ">"] + after
  {
    SplitSep('>', x);
    SplitSep('>', ">" + x);
    assert ">>" + x == ">" + (">" + x);
  }

  /** `re.split(SPLITOPR, ...)` of a rendering yields its pieces. */
  lemma {:induction false} SplitRender(ps: seq<Val>)
    requires PlainPairs(ps)
    ensures SplitOps(Render(ps)) == [""] + Pieces(ps)
    decreases |ps|
  {
    if |ps| >= 2 {
      PlainTail(ps);
      SplitRender(ps[2..]);
      PlainOperandText(ps[1]);
      var t := PlainOpText(ps[0].i);
      SplitPair(t, OpPieces(ps[0].i), Shown(ps[1]), Render(ps[2..]), Pieces(ps[2..]));
      assert Render(ps) == OpText(ps[0].i) + Shown(ps[1]) + Render(ps[2..]);
      assert Pieces(ps) == OpPieces(ps[0].i) + [Shown(ps[1])] + Pieces(ps[2..]);
    }
  }

  /** Where the pieces of one pair sit in the split. */
  lemma PiecesAt(S: seq<string>, t: nat, pieces: seq<string>, w: string, after: seq<string>)
    requires t <= |S| && S[t..] == pieces + [w] + after
    ensures t + |pieces| < |S| && S[t + |pieces|] == w && S[t + |pieces| + 1..] == after
    ensures forall i :: 0 <= i < |pieces| ==> S[t + i] == pieces[i]
  {
    assert S[t..][|pieces|] == w;
    assert S[t + |pieces| + 1..] == S[t..][|pieces| + 1..];
    forall i | 0 <= i < |pieces| ensures S[t + i] == pieces[i] {
      assert S[t..][i] == pieces[i];
    }
  }

  /** `decode` reads the pieces `>`, ``, `>` as one `>>`. */
  lemma ChainStep(S: seq<string>, t: nat, tok: seq<Val>)
    requires SplitShape(S) && |tok| >= 2 && t + 3 < |S|
    requires S[t] == ">" && S[t + 1] == "" && S[t + 2] == ">"
    ensures LexChunks(S, t, tok) == LexChunks(S, t + 3, tok + [Int(CHAIN), Nil])
  {
    assert S[t] + S[t + 2] == ">>";
  }

  /** `decode` reads a complete one-character operator. */
  lemma SingleStep(S: seq<string>, t: nat, tok: seq<Val>, op: int)
    requires SplitShape(S) && |tok| >= 2 && t < |S|
    requires OpStr(S[t]) == Some(OpStrEntry(COMPLETE, Some(op)))
    ensures LexChunks(S, t, tok) == LexChunks(S, t + 1, tok + [Int(op), Nil])
  {
  }

  /** `decode` reads the text of a plain operand back as the operand. */
  lemma WordStep(S: seq<string>, t: nat, tok: seq<Val>, v: Val)
    requires SplitShape(S) && |tok| >= 2 && t < |S| && S[t] == Shown(v) && PlainOperand(v)
    requires tok[|tok| - 1] == Nil && PlainOperator(tok[|tok| - 2])
    ensures LexChunks(S, t, tok) == LexChunks(S, t + 1, tok[|tok| - 1 := v])
  {
    PlainOperandText(v);
    if OpStr(S[t]).Some? {
      OpStrKeys(S[t]);
      assert false;
    }
    PlainOperandLexed(v, tok);
  }

  /** `decode` reads the operator of a plain pair. */
  lemma OpStep(S: seq<string>, t: nat, tok: seq<Val>, op: int, w: string, after: seq<string>) returns (u: nat)
    requires SplitShape(S) && |tok| >= 2 && op in {SEMI, SPACE, CHAIN, LBRACKET, RBRACKET}
    requires t <= |S| && S[t..] == OpPieces(op) + [w] + after
    ensures u == t + |OpPieces(op)| && u < |S| && S[u] == w && S[u + 1..] == after
    ensures LexChunks(S, t, tok) == LexChunks(S, u, tok + [Int(op), Nil])
  {
    var text := PlainOpText(op);
    PiecesAt(S, t, OpPieces(op), w, after);
    if op == CHAIN {
      u := t + 3;
      ChainStep(S, t, tok);
    } else {
      u := t + 1;
      SingleStep(S, t, tok, op);
    }
  }

  lemma PairAppend(tok: seq<Val>, ps: seq<Val>)
    requires |ps| >= 2
    ensures tok + [ps[0], ps[1]] + ps[2..] == tok + ps
  {
  }

  /** Where the pieces of the first plain pair end. */
  lemma PairPieces(S: seq<string>, t: nat, ps: seq<Val>)
    requires PlainPairs(ps) && |ps| >= 2
    requires t <= |S| && S[t..] == Pieces(ps)
    ensures ps[0].Int? && PlainPairs(ps[2..])
    ensures S[t..] == OpPieces(ps[0].i) + [Shown(ps[1])] + Pieces(ps[2..])
    ensures var v := t + |OpPieces(ps[0].i)|; v < |S| && S[v] == Shown(ps[1]) && S[v + 1..] == Pieces(ps[2..])
  {
    PlainTail(ps);
    var pieces := OpPieces(ps[0].i);
    var v := t + |pieces|;
    assert S[t..][|pieces|] == S[v];
    assert S[t..][|pieces| + 1..] == S[v + 1..];
  }

  /** `decode` reads the operator of the first plain pair. */
  lemma PairOp(S: seq<string>, t: nat, tok: seq<Val>, ps: seq<Val>)
    requires SplitShape(S) && |tok| >= 2 && PlainPairs(ps) && |ps| >= 2
    requires t <= |S| && S[t..] == Pieces(ps)
    ensures PlainOperator(ps[0])
    ensures LexChunks(S, t, tok) == LexChunks(S, t + |OpPieces(ps[0].i)|, tok + [ps[0], Nil])
  {
    PairPieces(S, t, ps);
    PlainTail(ps);
    var _ := OpStep(S, t, tok, ps[0].i, Shown(ps[1]), Pieces(ps[2..]));
  }

  /** `decode` reads the operand of a plain pair. */
  lemma PairWord(S: seq<string>, v: nat, tok: seq<Val>, o: Val, w: Val)
    requires SplitShape(S) && |tok| >= 2 && PlainOperator(o) && PlainOperand(w)
    requires v < |S| && S[v] == Shown(w)
    ensures LexChunks(S, v, tok + [o, Nil]) == LexChunks(S, v + 1, tok + [o, w])
  {
    var tok1 := tok + [o, Nil];
    assert tok1[|tok1| - 1] == Nil && tok1[|tok1| - 2] == o;
    WordStep(S, v, tok1, w);
    assert tok1[|tok1| - 1 := w] == tok + [o, w];
  }

  /** `decode` reads the pieces of one plain pair as that pair. */
  lemma LexPair(S: seq<string>, t: nat, tok: seq<Val>, ps: seq<Val>) returns (u: nat)
    requires SplitShape(S) && |tok| >= 2 && PlainPairs(ps) && |ps| >= 2
    requires t <= |S| && S[t..] == Pieces(ps)
    ensures u <= |S| && PlainPairs(ps[2..]) && S[u..] == Pieces(ps[2..])
    ensures LexChunks(S, t, tok) == LexChunks(S, u, tok + [ps[0], ps[1]])
  {
    PairPieces(S, t, ps);
    PlainTail(ps);
    PairOp(S, t, tok, ps);
    var v := t + |OpPieces(ps[0].i)|;
    PairWord(S, v, tok, ps[0], ps[1]);
    u := v + 1;
  }

  /** `decode` reads the pieces of plain pairs back as those pairs. */
  lemma {:induction false} LexPieces(S: seq<string>, t: nat, tok: seq<Val>, ps: seq<Val>)
    requires SplitShape(S) && |tok| >= 2 && PlainPairs(ps)
    requires t <= |S| && S[t..] == Pieces(ps)
    ensures LexChunks(S, t, tok) == Ok(tok + ps)
    decreases |ps|
  {
    if |ps| < 2 {
      assert t == |S| && tok + ps == tok;
    } else {
      var u := LexPair(S, t, tok, ps);
      PlainTail(ps);
      LexPieces(S, u, tok + [ps[0], ps[1]], ps[2..]);
      PairAppend(tok, ps);
    }
  }

  lemma WordClean(w: string)
    requires IsWord(w)
    ensures Clean(w)
  {
  }

  lemma OpTextClean(op: int)
    requires op in {SEMI, SPACE, CHAIN, LBRACKET, RBRACKET}
    ensures Clean(OpText(op)) && OpText(op) != [] && IsJoinChar(OpText(op)[0])
  {
    var t := PlainOpText(op);
  }

  /** A rendering is clean text that starts with a separator and ends
      with a word. */
  lemma {:induction false} RenderClean(ps: seq<Val>)
    requires PlainPairs(ps)
    ensures Clean(Render(ps))
    ensures Render(ps) != [] ==> IsJoinChar(Render(ps)[0]) && IsWordChar(Render(ps)[|Render(ps)| - 1])
    decreases |ps|
  {
    if |ps| >= 2 {
      PlainTail(ps);
      RenderClean(ps[2..]);
      var t := OpText(ps[0].i);
      var w := Shown(ps[1]);
      var rest := Render(ps[2..]);
      OpTextClean(ps[0].i);
      PlainOperandText(ps[1]);
      WordClean(w);
      CleanConcat(t, w);
      CleanConcat(t + w, rest);
      assert Render(ps) == (t + w) + rest;
      assert (t + w)[0] == t[0];
      assert (t + w)[|t + w| - 1] == w[|w| - 1];
    }
  }

  /** A rendering after its leading `;`: clean, and a word at each end. */
  lemma SemiText()
    ensures OpText(SEMI) == ";"
  {
  }

  lemma PlainText(tokens: seq<Val>)
    requires Plain(tokens)
    ensures Render(tokens[2..]) != [] && Render(tokens[2..])[0] == ';'
    ensures var m := Render(tokens[2..])[1..];
      Clean(m) && m != [] && IsWordChar(m[0]) && IsWordChar(m[|m| - 1]) && ";" + m == Render(tokens[2..])
  {
    var ps := tokens[2..];
    PlainTail(ps);
    RenderClean(ps);
    PlainOperandText(ps[1]);
    RenderSemi(ps);
    DropSemi(Render(ps), Shown(ps[1]), Render(ps[2..]));
  }

  /** A rendering that starts with the pair `; w`. */
  lemma RenderSemi(ps: seq<Val>)
    requires PlainPairs(ps) && |ps| >= 2 && ps[0] == Int(SEMI)
    ensures PlainPairs(ps[2..]) && Render(ps) == ";" + (Shown(ps[1]) + Render(ps[2..]))
  {
    PlainTail(ps);
    assert Render(ps) == OpText(SEMI) + Shown(ps[1]) + Render(ps[2..]);
    SemiText();
  }

  /** Clean text after a leading `;` that is followed by a word. */
  lemma DropSemi(R: string, w: string, rest: string)
    requires R == ";" + (w + rest) && IsWord(w) && Clean(R) && IsWordChar(R[|R| - 1])
    ensures var m := R[1..];
      Clean(m) && m != [] && IsWordChar(m[0]) && IsWordChar(m[|m| - 1]) && ";" + m == R
  {
    var m := R[1..];
    assert m == w + rest;
    assert m[0] == w[0];
    assert m[|m| - 1] == R[|R| - 1];
    CleanTail(R);
  }

  /** Unicode blanks count as blanks: a key holding a no-break space is
      not plain, since `\s` would split it, and `strip()` removes an em
      space as it does an ASCII one. */
  lemma UnicodeBlanks()
    ensures !PlainKey("a\U{a0}b")
    ensures StripBlank("\U{a0}a\U{2003}") == "a"
  {
    assert !IsWordChar("a\U{a0}b"[1]);
    assert StripBlank("a\U{2003}") == StripBlank("a");
  }

  /** `decode(encode(tokens))` gives the tokens back, behind the header,
      for a list of keys and integers joined by the skeleton operators. */
  lemma EncodeDecode(tokens: seq<Val>, K: map<int, string>)
    requires Plain(tokens)
    ensures Encoded(tokens, false, K).Ok?
    ensures Decoded(Encoded(tokens, false, K).value) == Ok(HEADER + tokens[2..])
  {
    var ps := tokens[2..];
    EncodePlain(tokens, K);
    PlainText(tokens);
    var R := Render(ps);
    var m := R[1..];
    assert Encoded(tokens, false, K) == Ok(m);
    NormalizeUnchanged(m);
    assert Normalized(m, false) == [R];
    DecodeRendering(ps);
  }

  /** The tail of the round trip: the parts `[R]` of a rendering lex back
      into the pairs. */
  lemma DecodeRendering(ps: seq<Val>)
    requires PlainPairs(ps) && |ps| >= 2
    ensures LexParts([Render(ps)], 0, HEADER) == Ok(HEADER + ps)
  {
    var S := SplitOps(Render(ps));
    SplitRender(ps);
    LexPartsStep([Render(ps)], 0, HEADER);
    assert S[0] == "" && S[1..] == Pieces(ps);
    LexPieces(S, 1, HEADER, ps);
    assert LexChunks(S, 0, HEADER) == Ok(HEADER + ps);
  }
}
