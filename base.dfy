/** Values, errors and the static operator tables that every stage of the
    Memelang engine shares (memelang.py lines 15-76). */
module Base {

  /** One slot of a flat token list `[op, operand, op, operand, ...]`.
      Operators are integer ids (`Int`); an operand is absent (`Nil`), an
      integer or id (`Int`), a key or string (`Str`), or a decimal number,
      kept as the literal text it was read from (`Dec`). */
  datatype Val = Nil | Int(i: int) | Str(s: string) | Dec(text: string)

  datatype Option<T> = None | Some(value: T)

  /** Every exception the modelled code raises, by kind. */
  datatype Error =
    | EmptyQuery          // decode: nothing left after comments are removed
    | ErrantQuote         // decode: a quoted string not after `=`
    | InvalidOperator     // decode: `!` not completed to `!=`
    | SequenceError       // decode: an operand after an operand
    | UnexpectedChunk     // decode: an operand chunk without [a-z0-9]
    | CompareSequence     // decode: t/f/g not after `=`
    | NotAFloat           // decode: float() rejects the chunk
    | NotAnInt            // decode: int() rejects the chunk
    | OddTokenCount       // compress
    | OperatorRange       // compress: operator outside [0,127)
    | OperandRange        // compress: operand outside [-2^56, 2^56)
    | BelowSentinel       // decompress: input below 2^63
    | VersionError        // decompress: leftover is not 2^63
    | OperatorCounting    // nxt: a statement does not start with `;`
    | AError              // selectify: the first token is not A-class
    | NoTrueStatement     // subquerify: a NOT group without a true group
    | IndexError          // a list index past the end
    | KeyError            // a dictionary lookup of a missing key
    | TypeError           // an operation on an operand of the wrong type
    | Unsupported         // decimal scaling, which the model leaves out
    | FieldError          // namecache: a field other than `str` or `aid`

  datatype Result<T> = Ok(value: T) | Err(error: Error)

  // Operator ids (the `I` entries of the operators).
  const EQ_DEC := 10     // `=.`  compare a decimal
  const NE := 11         // `!=`
  const LT := 12         // `<`
  const GE := 13         // `>=`
  const LE := 14         // `<=`
  const GT := 15         // `>`
  const EQ_ID := 16      // `=#`  compare with t, f or g
  const EQ_STR := 17     // `=$`  compare with a quoted string
  const OR_TAG := 20     // `|`   OR-group number
  const SEMI := 22       // `;`   statement start
  const LBRACKET := 30   // `[`   relation
  const RBRACKET := 31   // `]`   target
  const SPACE := 32      // ` `   next AND-ed clause of a statement
  const CHAIN := 33      // `>>`  chain

  // Reserved ids that are not operators.
  const F_ID := 80       // `f`
  const T_ID := 81       // `t`
  const G_ID := 82       // `g`
  const QRY := 88        // `qry`
  const ID := 98         // `id`
  const KEY := 99        // `key`
  const ALL := 901       // `all`
  const MIX := 903       // `mix`

  /** The operator ids, the keys of `OPR`. */
  const OPERATORS: set<int> :=
    {SEMI, SPACE, CHAIN, LBRACKET, RBRACKET, EQ_ID, EQ_STR, EQ_DEC, GT, LT, GE, LE, NE, OR_TAG}

  /** The operators whose operand is a key (`FORM` is `KEY`). */
  const KEY_OPERATORS: set<int> := {SEMI, SPACE, CHAIN, LBRACKET, RBRACKET}

  /** Semantic class of an operator (`FUNC` column of `OPR`). */
  datatype Func = A | R | B | Q | OR

  /** Form of an operator's operand (`FORM` column of `OPR`). */
  datatype Form = KEYFORM | IDENT | INTEGER | FLOAT | STRING

  /** One row of `OPR`: class, operand form and output text, where `None`
      stands for the source's `False` ("print the operator's own key"). */
  datatype OpInfo = OpInfo(func: Func, form: Form, out: Option<string>)

  /** The operator table `OPR`. */
  function Opr(op: int): (r: Option<OpInfo>)
    ensures r.Some? <==> op in OPERATORS
    ensures r.Some? && r.value.func == A <==> op in {SEMI, SPACE, CHAIN}
    ensures r.Some? && r.value.form == FLOAT <==> op in {EQ_DEC, GT, LT, GE, LE, NE}
    ensures r.Some? && r.value.form == KEYFORM <==> op in KEY_OPERATORS
  {
    if op == SEMI || op == SPACE || op == CHAIN then Some(OpInfo(A, KEYFORM, None))
    else if op == LBRACKET then Some(OpInfo(R, KEYFORM, None))
    else if op == RBRACKET then Some(OpInfo(B, KEYFORM, None))
    else if op == EQ_ID then Some(OpInfo(Q, IDENT, Some("=")))
    else if op == EQ_STR then Some(OpInfo(Q, STRING, Some("=\"")))
    else if op == EQ_DEC then Some(OpInfo(Q, FLOAT, Some("=")))
    else if op == GT || op == LT || op == GE || op == LE || op == NE then Some(OpInfo(Q, FLOAT, None))
    else if op == OR_TAG then Some(OpInfo(OR, INTEGER, Some("")))
    else None
  }

  /** `OPR[v]` for a token slot: only an `Int` that is an operator id is found. */
  function Info(v: Val): (r: Option<OpInfo>)
    ensures r.Some? <==> v.Int? && v.i in OPERATORS
  {
    if v.Int? then Opr(v.i) else None
  }

  /** The key text of an operator, its entry in `K`. */
  function OpName(op: int): (r: string)
    requires op in OPERATORS
    ensures |r| > 0
  {
    if op == SEMI then ";" else if op == SPACE then " " else if op == CHAIN then ">>"
    else if op == LBRACKET then "[" else if op == RBRACKET then "]"
    else if op == EQ_ID then "=#" else if op == EQ_STR then "=$" else if op == EQ_DEC then "=."
    else if op == GT then ">" else if op == LT then "<" else if op == GE then ">="
    else if op == LE then "<=" else if op == NE then "!=" else "|"
  }

  /** The text an operator is written as: its `OUT` column, or its key when that is `False`. */
  function OpText(op: int): string
    requires op in OPERATORS
  {
    var info := Opr(op).value;
    if info.out.Some? then info.out.value else OpName(op)
  }

  /** Completeness of an operator string (`OPSTR`). */
  datatype Completeness = INCOMPLETE | INTERMEDIATE | COMPLETE

  /** One row of `OPSTR`; `op` is `None` for the source's `False`. */
  datatype OpStrEntry = OpStrEntry(completeness: Completeness, op: Option<int>)

  /** The lexer's operator table `OPSTR`. */
  function OpStr(s: string): Option<OpStrEntry> {
    if s == "!" then Some(OpStrEntry(INCOMPLETE, None))
    else if s == ">" then Some(OpStrEntry(INTERMEDIATE, Some(GT)))
    else if s == "<" then Some(OpStrEntry(INTERMEDIATE, Some(LT)))
    else if s == "=" then Some(OpStrEntry(COMPLETE, Some(EQ_DEC)))
    else if s == "!=" then Some(OpStrEntry(COMPLETE, Some(NE)))
    else if s == ">=" then Some(OpStrEntry(COMPLETE, Some(GE)))
    else if s == "<=" then Some(OpStrEntry(COMPLETE, Some(LE)))
    else if s == "[" then Some(OpStrEntry(COMPLETE, Some(LBRACKET)))
    else if s == "]" then Some(OpStrEntry(COMPLETE, Some(RBRACKET)))
    else if s == ";" then Some(OpStrEntry(COMPLETE, Some(SEMI)))
    else if s == " " then Some(OpStrEntry(COMPLETE, Some(SPACE)))
    else if s == ">>" then Some(OpStrEntry(COMPLETE, Some(CHAIN)))
    else None
  }

  /** The operator ids fit in seven bits below 127 and are not reserved
      non-operator ids. */
  lemma OperatorIdsInRange()
    ensures forall op :: op in OPERATORS ==> 0 <= op < 127
    ensures forall op :: op in OPERATORS ==> op !in {F_ID, T_ID, G_ID, QRY, ID, KEY, ALL, MIX}
  {
  }

  /** Every operator that `OPSTR` yields is an `OPR` operator, every such
      operator except `!`'s completion is complete or intermediate, and the
      only incomplete string is `!`. */
  lemma OpStrYieldsOperators(s: string)
    requires OpStr(s).Some?
    ensures OpStr(s).value.op.Some? ==> OpStr(s).value.op.value in OPERATORS
    ensures OpStr(s).value.completeness == INCOMPLETE <==> s == "!"
    ensures OpStr(s).value.completeness == INTERMEDIATE <==> s in {">", "<"}
    ensures OpStr(s).value.op.None? <==> s == "!"
  {
  }

  /** Python's `str.isspace()`, which is also what `\s`, `strip()` and
      `split()` treat as blank in a `str`: the ASCII blanks and separators
      and the Unicode space characters. */
  predicate IsSpace(c: char) {
    || c == ' ' || ('\t' <= c <= '\r') || ('\U{1c}' <= c <= '\U{1f}')
    || c == '\U{85}' || c == '\U{a0}' || c == '\U{1680}' || ('\U{2000}' <= c <= '\U{200a}')
    || c == '\U{2028}' || c == '\U{2029}' || c == '\U{202f}' || c == '\U{205f}' || c == '\U{3000}'
  }

  predicate IsDigit(c: char) {
    '0' <= c <= '9'
  }

  predicate IsLowerAlnum(c: char) {
    'a' <= c <= 'z' || IsDigit(c)
  }

  /** `re.search(r'[a-z0-9]', s)` */
  predicate HasLowerAlnum(s: string) {
    exists i :: 0 <= i < |s| && IsLowerAlnum(s[i])
  }
}
