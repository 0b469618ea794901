/** `selectify` (memelang.py lines 525-590): one clause of a statement, a
    run of `[operator, operand]` pairs opened by an A-class operator,
    becomes a `SELECT` over the meme table with one self-join per chained
    relation hop, one `WHERE` condition per constrained operand, and a
    positional parameter list.

    The source writes column placeholders `(A0)`, `(R1)`, `(B2)` into its
    text and replaces them once it knows, hop by hop, whether the hop is
    inverted. Here the text under construction is a sequence of atoms in
    which such a placeholder is a `Ref` atom and a `%s` is a `Hole` atom;
    rendering an unresolved `Ref` gives back the placeholder text. */
module SqlSelect {
  import opened Base
  import opened Strings

  /** The three columns of one hop: source (`aid`), relation (`rid`) and
      target (`bid`). */
  datatype Col = ColA | ColR | ColB

  /** A piece of SQL text: literal text, a column placeholder of a hop, or
      a parameter placeholder `%s`. */
  datatype Atom = Text(s: string) | Ref(col: Col, hop: nat) | Hole

  type Frag = seq<Atom>

  function ColLetter(c: Col): string {
    match c
    case ColA => "A"
    case ColR => "R"
    case ColB => "B"
  }

  function AtomText(a: Atom): string {
    match a
    case Text(s) => s
    case Ref(c, h) => "(" + ColLetter(c) + NatToString(h) + ")"
    case Hole => "%s"
  }

  function Render(f: Frag): string {
    if f == [] then "" else AtomText(f[0]) + Render(f[1..])
  }

  /** The number of `%s` placeholders. */
  function Holes(f: Frag): nat {
    if f == [] then 0 else (if f[0] == Hole then 1 else 0) + Holes(f[1..])
  }

  /** The placeholders of a list of fragments. */
  function HoleSum(fs: seq<Frag>): nat {
    if fs == [] then 0 else Holes(fs[0]) + HoleSum(fs[1..])
  }

  /** `sep.join(parts)` on fragments. */
  function JoinFrags(parts: seq<Frag>, sep: Frag): Frag {
    if |parts| == 0 then []
    else if |parts| == 1 then parts[0]
    else parts[0] + sep + JoinFrags(parts[1..], sep)
  }

  /** The column a placeholder stands for once the direction of its hop is
      known: an inverted hop reads its source from `bid`, its target from
      `aid`, and its relation negated. */
  function ColumnText(c: Col, hop: nat, inverted: bool): string {
    "m" + NatToString(hop) + "." +
      match c
      case ColA => if inverted then "bid" else "aid"
      case ColR => if inverted then "rid*-1" else "rid"
      case ColB => if inverted then "aid" else "bid"
  }

  /** An atom with the placeholders of the hops below `n` resolved. */
  function ResolveAtom(a: Atom, inv: seq<bool>, n: nat): Atom
    requires n <= |inv|
  {
    if a.Ref? && a.hop < n then Text(ColumnText(a.col, a.hop, inv[a.hop])) else a
  }

  function Resolve(f: Frag, inv: seq<bool>, n: nat): (r: Frag)
    requires n <= |inv|
    ensures |r| == |f| && forall k :: 0 <= k < |f| ==> r[k] == ResolveAtom(f[k], inv, n)
  {
    seq(|f|, k requires 0 <= k < |f| => ResolveAtom(f[k], inv, n))
  }

  function ResolveAll(parts: seq<Frag>, inv: seq<bool>, n: nat): (r: seq<Frag>)
    requires n <= |inv|
    ensures |r| == |parts| && forall p :: 0 <= p < |parts| ==> r[p] == Resolve(parts[p], inv, n)
  {
    seq(|parts|, p requires 0 <= p < |parts| => Resolve(parts[p], inv, n))
  }

  // ---------------------------------------------------------------------
  // The scan over the pairs
  // ---------------------------------------------------------------------

  /** The state of the scan: the two select expressions, the join list,
      the where list, the parameters, one inversion flag per hop, and the
      index `m` of the current hop. */
  datatype Scan = Scan(head: Frag, concat: Frag, joins: seq<Frag>, wheres: seq<Frag>,
                       params: seq<Val>, inversions: seq<bool>, m: nat)

  function FromFrag(table: string): Frag {
    [Text(" FROM " + table + " m0")]
  }

  function Start(table: string): Scan {
    Scan([Ref(ColA, 0), Text(" AS a0")], [Text("concat_ws(' ', ';', "), Ref(ColA, 0)],
         [FromFrag(table)], [], [], [false], 0)
  }

  /** The class of the operator at slot `p`, when it is an operator. */
  predicate FuncIs(tokens: seq<Val>, p: int, f: Func) {
    0 <= p < |tokens| && Info(tokens[p]).Some? && Info(tokens[p]).value.func == f
  }

  /** `str(operand).startswith('-')`; a decimal is judged by its text. */
  predicate StartsMinus(v: Val) {
    match v
    case Nil => false
    case Int(i) => i < 0
    case Str(s) => |s| > 0 && s[0] == '-'
    case Dec(t) => |t| > 0 && t[0] == '-'
  }

  /** A chained hop starts at slot `o`: a relation after the first pair
      that follows it, or a second target in a row. */
  predicate Chained(tokens: seq<Val>, o: int) {
    o > 2 && (FuncIs(tokens, o, R) || (FuncIs(tokens, o, B) && FuncIs(tokens, o - 2, B)))
  }

  /** A relation operand with a leading minus at slot `o + 1`, which
      flags the hop it belongs to as inverted. */
  predicate Negated(tokens: seq<Val>, o: int) {
    o > 0 && FuncIs(tokens, o, R) && o + 1 < |tokens| && StartsMinus(tokens[o + 1])
  }

  /** The operand at slot `o + 1` gets a `WHERE` condition: it is present,
      its operator is not `=#`, and its operator is A, R, B or Q-class. */
  predicate Constrained(tokens: seq<Val>, o: int) {
    && 0 <= o && o + 1 < |tokens| && tokens[o + 1] != Nil && tokens[o] != Int(EQ_ID)
    && (FuncIs(tokens, o, A) || FuncIs(tokens, o, R) || FuncIs(tokens, o, B) || FuncIs(tokens, o, Q))
  }

  /** The comparison text of a Q-class operator. */
  function Cpr(op: int): string
    requires op in OPERATORS
  {
    var c := OpText(op);
    if c == "=#" || c == "=." then "=" else c
  }

  function FuncCol(f: Func): Col {
    if f == A then ColA else if f == R then ColR else ColB
  }

  function JoinFrag(table: string, m: nat): Frag
    requires m >= 1
  {
    [Text("JOIN " + table + " m" + NatToString(m) + " ON "), Ref(ColB, m - 1), Text("="), Ref(ColA, m)]
  }

  /** A new hop: its relation (and, after a target, that target) join the
      output expression, and the meme table is joined once more. */
  function Chain(table: string, tokens: seq<Val>, o: int, st: Scan): Scan {
    var concat := st.concat + [Text(", " + IntToString(LBRACKET) + ", "), Ref(ColR, st.m)]
      + (if FuncIs(tokens, o - 2, B) then [Text(", " + IntToString(RBRACKET) + ", "), Ref(ColB, st.m)] else []);
    st.(concat := concat, joins := st.joins + [JoinFrag(table, st.m + 1)],
        inversions := st.inversions + [false], m := st.m + 1)
  }

  /** The condition an operand adds, if any. */
  function Where(op: int, x: Val, st: Scan): Scan
    requires op in OPERATORS
  {
    var func := Opr(op).value.func;
    if x == Nil || op == EQ_ID then st
    else if func == Q then
      st.(wheres := st.wheres + [[Text("m" + NatToString(st.m) + ".qnt" + Cpr(op)), Hole]], params := st.params + [x])
    else if func == A || func == R || func == B then
      st.(wheres := st.wheres + [[Ref(FuncCol(func), st.m), Text("="), Hole]], params := st.params + [x])
    else st
  }

  /** One pass of the loop of `selectify` at slot `o`. */
  function Step(table: string, tokens: seq<Val>, o: nat, st: Scan): (r: Result<Scan>)
    requires o < |tokens| && |st.inversions| == st.m + 1
    ensures r.Ok? ==> |r.value.inversions| == r.value.m + 1
    ensures r.Err? ==> r.error in {IndexError, KeyError, AError}
  {
    if o + 1 >= |tokens| then Err(IndexError)
    else if Info(tokens[o]).None? then Err(KeyError)
    else
      var op, x := tokens[o].i, tokens[o + 1];
      var func := Opr(op).value.func;
      if o == 0 && func != A then Err(AError)
      else
        Ok(Where(op, x, Hopped(table, tokens, o, st)))
  }

  /** The chaining and the flag of one pass, before its condition: a
      relation with a leading minus inverts the hop whose condition it
      carries, which is the new hop when the relation opens one. */
  function Hopped(table: string, tokens: seq<Val>, o: nat, st: Scan): (r: Scan)
    requires |st.inversions| == st.m + 1
    ensures |r.inversions| == r.m + 1
  {
    var st1 := if Chained(tokens, o) then Chain(table, tokens, o, st) else st;
    if Negated(tokens, o) then st1.(inversions := st1.inversions[st1.m := true]) else st1
  }

  /** The flag and the chaining as memelang.py lines 550-559 order them:
      the flag goes to the hop current before the relation opens a new
      one. */
  function HoppedAsWritten(table: string, tokens: seq<Val>, o: nat, st: Scan): (r: Scan)
    requires |st.inversions| == st.m + 1
    ensures |r.inversions| == r.m + 1
  {
    var st1 := if Negated(tokens, o) then st.(inversions := st.inversions[st.m := true]) else st;
    if Chained(tokens, o) then Chain(table, tokens, o, st1) else st1
  }

  /** One pass of the loop as written. */
  function StepAsWritten(table: string, tokens: seq<Val>, o: nat, st: Scan): (r: Result<Scan>)
    requires o < |tokens| && |st.inversions| == st.m + 1
    ensures r.Ok? ==> |r.value.inversions| == r.value.m + 1
  {
    if o + 1 >= |tokens| then Err(IndexError)
    else if Info(tokens[o]).None? then Err(KeyError)
    else
      var op, x := tokens[o].i, tokens[o + 1];
      if o == 0 && Opr(op).value.func != A then Err(AError)
      else Ok(Where(op, x, HoppedAsWritten(table, tokens, o, st)))
  }

  /** The loop as written from slot `o` on. */
  function ScanAsWritten(table: string, tokens: seq<Val>, o: nat, st: Scan): (r: Result<Scan>)
    requires |st.inversions| == st.m + 1
    decreases |tokens| - o
  {
    if o >= |tokens| then Ok(st)
    else match StepAsWritten(table, tokens, o, st)
      case Err(e) => Err(e)
      case Ok(next) => ScanAsWritten(table, tokens, o + 2, next)
  }

  /** The loop of `selectify` from slot `o` on. */
  function ScanFrom(table: string, tokens: seq<Val>, o: nat, st: Scan): (r: Result<Scan>)
    requires |st.inversions| == st.m + 1
    ensures r.Ok? ==> |r.value.inversions| == r.value.m + 1
    ensures r.Err? ==> r.error in {IndexError, KeyError, AError}
    decreases |tokens| - o
  {
    if o >= |tokens| then Ok(st)
    else match Step(table, tokens, o, st)
      case Err(e) => Err(e)
      case Ok(next) => ScanFrom(table, tokens, o + 2, next)
  }

  /** The select list after the loop: the anchor column alone, or with
      the closing of the output expression. */
  function SelectList(st: Scan, aidOnly: bool): seq<Frag> {
    if aidOnly then [st.head]
    else [st.head, st.concat + [Text(", " + IntToString(LBRACKET) + ", "), Ref(ColR, st.m),
                                Text(", " + IntToString(RBRACKET) + ", "), Ref(ColB, st.m),
                                Text(", m" + NatToString(st.m) + ".cpr, m" + NatToString(st.m) + ".qnt) AS arbeq")]]
  }

  /** The three lists of a select with every placeholder resolved, and
      its parameters and inversion flags. */
  datatype Parts = Parts(select: seq<Frag>, joins: seq<Frag>, wheres: seq<Frag>, params: seq<Val>, inversions: seq<bool>)

  function Finish(st: Scan, aidOnly: bool): Parts
    requires |st.inversions| == st.m + 1
  {
    var inv := st.inversions;
    Parts(ResolveAll(SelectList(st, aidOnly), inv, |inv|), ResolveAll(st.joins, inv, |inv|),
          ResolveAll(st.wheres, inv, |inv|), st.params, inv)
  }

  /** The text of a select. */
  function Assemble(p: Parts): Frag {
    [Text("SELECT ")] + JoinFrags(p.select, [Text(", ")]) + JoinFrags(p.joins, [Text(" ")])
      + (if p.wheres == [] then [] else [Text(" WHERE ")] + JoinFrags(p.wheres, [Text(" AND ")]))
  }

  /** What `selectify(tokens, table, aidOnly)` builds, or what it raises. */
  function Built(table: string, tokens: seq<Val>, aidOnly: bool): (r: Result<Parts>)
    ensures r.Err? ==> r.error in {IndexError, KeyError, AError}
  {
    match ScanFrom(table, tokens, 0, Start(table))
    case Err(e) => Err(e)
    case Ok(st) => Ok(Finish(st, aidOnly))
  }

  /** A piece of SQL text with its positional parameters. */
  datatype Piece = Piece(sql: Frag, params: seq<Val>)

  /** What `selectify(tokens, table, aidOnly)` returns or raises. */
  function Selected(table: string, tokens: seq<Val>, aidOnly: bool): (r: Result<Piece>)
    ensures r.Err? ==> r.error in {IndexError, KeyError, AError}
  {
    match Built(table, tokens, aidOnly)
    case Err(e) => Err(e)
    case Ok(p) => Ok(Piece(Assemble(p), p.params))
  }

  // ---------------------------------------------------------------------
  // The method
  // ---------------------------------------------------------------------

  /** `selectify(tokens, table, aidOnly)` */
  method Selectify(table: string, tokens: seq<Val>, aidOnly: bool) returns (r: Result<Piece>)
    ensures r == Selected(table, tokens, aidOnly)
  {
    var st := Start(table);
    var o := 0;
    while o < |tokens|
      invariant |st.inversions| == st.m + 1
      invariant ScanFrom(table, tokens, o, st) == ScanFrom(table, tokens, 0, Start(table))
      decreases |tokens| - o
    {
      var next := Visit(table, tokens, o, st);
      if next.Err? {
        return Err(next.error);
      }
      st := next.value;
      o := o + 2;
    }
    var parts := ResolveHops(st, aidOnly);
    assert Built(table, tokens, aidOnly) == Ok(parts);
    return Ok(Piece(Assemble(parts), st.params));
  }

  /** The loop over the hops after the scan: every placeholder becomes
      its column, read backwards in an inverted hop. */
  method ResolveHops(st: Scan, aidOnly: bool) returns (parts: Parts)
    requires |st.inversions| == st.m + 1
    ensures parts == Finish(st, aidOnly)
  {
    var inversions := st.inversions;
    var select, joins, wheres := SelectList(st, aidOnly), st.joins, st.wheres;
    ResolveNone(select, inversions);
    ResolveNone(joins, inversions);
    ResolveNone(wheres, inversions);
    for i := 0 to |inversions|
      invariant select == ResolveAll(SelectList(st, aidOnly), inversions, i)
      invariant joins == ResolveAll(st.joins, inversions, i)
      invariant wheres == ResolveAll(st.wheres, inversions, i)
    {
      HopAfter(SelectList(st, aidOnly), inversions, i);
      HopAfter(st.joins, inversions, i);
      HopAfter(st.wheres, inversions, i);
      select := ResolveHop(select, i, inversions[i]);
      joins := ResolveHop(joins, i, inversions[i]);
      wheres := ResolveHop(wheres, i, inversions[i]);
    }
    parts := Parts(select, joins, wheres, st.params, inversions);
  }

  /** One pass of the loop: the pair at `o` flags, chains and constrains. */
  method Visit(table: string, tokens: seq<Val>, o: nat, st: Scan) returns (r: Result<Scan>)
    requires o < |tokens| && |st.inversions| == st.m + 1
    ensures r == Step(table, tokens, o, st)
  {
    if o + 1 >= |tokens| {
      return Err(IndexError);
    }
    var operator, operand := tokens[o], tokens[o + 1];
    if Info(operator).None? {
      return Err(KeyError);
    }
    var func := Opr(operator.i).value.func;
    var concat, joins, wheres, params, inversions, m := st.concat, st.joins, st.wheres, st.params, st.inversions, st.m;
    if o == 0 && func != A {
      return Err(AError);
    }
    if o > 2 && (func == R || (func == B && FuncIs(tokens, o - 2, B))) {
      concat := concat + [Text(", " + IntToString(LBRACKET) + ", "), Ref(ColR, m)];
      if FuncIs(tokens, o - 2, B) {
        concat := concat + [Text(", " + IntToString(RBRACKET) + ", "), Ref(ColB, m)];
      }
      m := m + 1;
      joins := joins + [JoinFrag(table, m)];
      inversions := inversions + [false];
    }
    ghost var st1 := Scan(st.head, concat, joins, wheres, params, inversions, m);
    assert st1 == if Chained(tokens, o) then Chain(table, tokens, o, st) else st;
    if o != 0 && func == R && StartsMinus(operand) {
      inversions := inversions[m := true];
    }
    assert Negated(tokens, o) <==> o != 0 && func == R && StartsMinus(operand);
    if operand != Nil {
      if operator == Int(EQ_ID) {
      } else if func == Q {
        wheres := wheres + [[Text("m" + NatToString(m) + ".qnt" + Cpr(operator.i)), Hole]];
        params := params + [operand];
      } else if func == A || func == R || func == B {
        wheres := wheres + [[Ref(FuncCol(func), m), Text("="), Hole]];
        params := params + [operand];
      }
    }
    return Ok(Scan(st.head, concat, joins, wheres, params, inversions, m));
  }

  /** The replacements of one hop in every string of one list: its three
      placeholders become its columns. */
  method ResolveHop(parts: seq<Frag>, i: nat, inverted: bool) returns (r: seq<Frag>)
    ensures |r| == |parts| && forall p :: 0 <= p < |parts| ==> r[p] == HopResolved(parts[p], i, inverted)
  {
    r := parts;
    for p := 0 to |parts|
      invariant |r| == |parts|
      invariant forall q :: 0 <= q < p ==> r[q] == HopResolved(parts[q], i, inverted)
    {
      r := r[p := HopResolved(parts[p], i, inverted)];
    }
  }

  function HopAtom(a: Atom, i: nat, inverted: bool): Atom {
    if a.Ref? && a.hop == i then Text(ColumnText(a.col, i, inverted)) else a
  }

  function HopResolved(f: Frag, i: nat, inverted: bool): (r: Frag)
    ensures |r| == |f| && forall k :: 0 <= k < |f| ==> r[k] == HopAtom(f[k], i, inverted)
  {
    seq(|f|, k requires 0 <= k < |f| => HopAtom(f[k], i, inverted))
  }

  /** Resolving no hop changes nothing. */
  lemma ResolveNone(parts: seq<Frag>, inv: seq<bool>)
    ensures ResolveAll(parts, inv, 0) == parts
  {
    forall p | 0 <= p < |parts| ensures Resolve(parts[p], inv, 0) == parts[p] {
    }
  }

  /** Resolving hop `i` after the hops below it resolves the hops up to it. */
  lemma HopAfter(parts: seq<Frag>, inv: seq<bool>, i: nat)
    requires i < |inv|
    ensures forall p :: 0 <= p < |parts| ==>
      HopResolved(ResolveAll(parts, inv, i)[p], i, inv[i]) == ResolveAll(parts, inv, i + 1)[p]
  {
  }

  // ---------------------------------------------------------------------
  // What the scan builds
  // ---------------------------------------------------------------------

  /** Every pair is whole and opens with an operator of `OPR`. */
  predicate WellFormed(tokens: seq<Val>) {
    |tokens| % 2 == 0 && forall p :: 0 <= p < |tokens| && p % 2 == 0 ==> Info(tokens[p]).Some?
  }

  /** The number of chained hops that start before slot `o`. */
  function Hops(tokens: seq<Val>, o: nat): nat {
    if o < 2 then 0 else Hops(tokens, o - 2) + (if Chained(tokens, o - 2) then 1 else 0)
  }

  /** The constrained operands before slot `o`, in order. */
  function Conds(tokens: seq<Val>, o: nat): seq<Val> {
    if o < 2 then [] else Conds(tokens, o - 2) + (if Constrained(tokens, o - 2) then [tokens[o - 1]] else [])
  }

  /** Hop `h` is flagged as inverted by a negated relation before slot
      `o`: one that belongs to hop `h`, opening it or met while it is the
      current hop. */
  predicate Flagged(tokens: seq<Val>, o: nat, h: nat) {
    o >= 2 && (Flagged(tokens, o - 2, h) || (Negated(tokens, o - 2) && Hops(tokens, o) == h))
  }

  predicate NoHole(f: Frag) {
    forall k :: 0 <= k < |f| ==> f[k] != Hole
  }

  /** What the scan state holds after the pairs before slot `o`. */
  predicate Tracks(table: string, tokens: seq<Val>, o: nat, st: Scan) {
    && |st.inversions| == st.m + 1
    && st.m == Hops(tokens, o)
    && |st.joins| == st.m + 1 && st.joins[0] == FromFrag(table)
    && (forall k :: 1 <= k < |st.joins| ==> st.joins[k] == JoinFrag(table, k))
    && (forall h :: 0 <= h < |st.inversions| ==> st.inversions[h] == Flagged(tokens, o, h))
    && st.params == Conds(tokens, o) && |st.wheres| == |st.params|
    && (forall w :: 0 <= w < |st.wheres| ==> Holes(st.wheres[w]) == 1)
    && st.head == Start(table).head && NoHole(st.concat)
  }

  lemma {:induction false} FlaggedBelow(tokens: seq<Val>, o: nat, h: nat)
    requires Flagged(tokens, o, h)
    ensures h <= Hops(tokens, o)
    decreases o
  {
    if Flagged(tokens, o - 2, h) {
      FlaggedBelow(tokens, o - 2, h);
    }
  }

  /** A condition holds one parameter placeholder. */
  lemma WhereHoles(op: int, x: Val, st: Scan)
    requires op in OPERATORS
    ensures forall w :: |st.wheres| <= w < |Where(op, x, st).wheres| ==> Holes(Where(op, x, st).wheres[w]) == 1
  {
    var next := Where(op, x, st);
    if |next.wheres| > |st.wheres| {
      var f := next.wheres[|st.wheres|];
      assert f[|f| - 1] == Hole && forall k :: 0 <= k < |f| - 1 ==> f[k] != Hole;
      assert Holes(f[|f| - 1..]) == 1;
      if |f| == 3 {
        assert f[1..] == f[|f| - 2..];
        assert f[1..][1..] == f[|f| - 1..];
      } else {
        assert f[1..] == f[|f| - 1..];
      }
    }
  }

  /** The flag and the chaining of one pass keep the hops, joins and
      inversion flags in step, and leave the conditions alone. */
  lemma HopTracks(table: string, tokens: seq<Val>, o: nat, st: Scan)
    requires o < |tokens| && Tracks(table, tokens, o, st)
    ensures var r := Hopped(table, tokens, o, st);
      && r.m == Hops(tokens, o + 2)
      && |r.joins| == r.m + 1 && r.joins[0] == FromFrag(table)
      && (forall k :: 1 <= k < |r.joins| ==> r.joins[k] == JoinFrag(table, k))
      && (forall h :: 0 <= h < |r.inversions| ==> r.inversions[h] == Flagged(tokens, o + 2, h))
      && r.wheres == st.wheres && r.params == st.params && r.head == st.head && NoHole(r.concat)
  {
    var r := Hopped(table, tokens, o, st);
    forall h | 0 <= h < |r.inversions| ensures r.inversions[h] == Flagged(tokens, o + 2, h) {
      if h == st.m + 1 && Flagged(tokens, o, h) {
        FlaggedBelow(tokens, o, h);
      }
    }
  }

  lemma StepTracks(table: string, tokens: seq<Val>, o: nat, st: Scan)
    requires o < |tokens| && Tracks(table, tokens, o, st) && Step(table, tokens, o, st).Ok?
    ensures Tracks(table, tokens, o + 2, Step(table, tokens, o, st).value)
  {
    var op := tokens[o].i;
    var func := Opr(op).value.func;
    var st2 := Hopped(table, tokens, o, st);
    HopTracks(table, tokens, o, st);
    assert Step(table, tokens, o, st).value == Where(op, tokens[o + 1], st2);
    assert Constrained(tokens, o) <==> tokens[o + 1] != Nil && op != EQ_ID && func in {A, R, B, Q};
    WhereHoles(op, tokens[o + 1], st2);
  }

  lemma {:induction false} ScanTracks(table: string, tokens: seq<Val>, o: nat, st: Scan)
    requires o <= |tokens| && Tracks(table, tokens, o, st)
    requires ScanFrom(table, tokens, o, st).Ok?
    ensures Tracks(table, tokens, |tokens|, ScanFrom(table, tokens, o, st).value)
    decreases |tokens| - o
  {
    if o < |tokens| {
      StepTracks(table, tokens, o, st);
      ScanTracks(table, tokens, o + 2, Step(table, tokens, o, st).value);
    }
  }

  /** After the first pair the scan fails exactly when a pair is cut
      short or opens with something that is not an operator, and then
      with `IndexError` or `KeyError`. */
  lemma {:induction false} ScanErrors(table: string, tokens: seq<Val>, o: nat, st: Scan)
    requires 2 <= o <= |tokens| && o % 2 == 0 && |st.inversions| == st.m + 1
    ensures ScanFrom(table, tokens, o, st).Ok? <==>
      |tokens| % 2 == 0 && forall p :: o <= p < |tokens| && p % 2 == 0 ==> Info(tokens[p]).Some?
    ensures ScanFrom(table, tokens, o, st).Err? ==> ScanFrom(table, tokens, o, st).error in {IndexError, KeyError}
    decreases |tokens| - o
  {
    if o < |tokens| {
      var step := Step(table, tokens, o, st);
      if step.Ok? {
        ScanErrors(table, tokens, o + 2, step.value);
      }
    }
  }

  /** `selectify` raises `AError` exactly when the first pair is whole
      and its operator is not A-class; otherwise it succeeds exactly when
      every pair is whole and opens with an operator, and fails with
      `IndexError` (a pair cut short) or `KeyError` (no operator). */
  lemma SelectifyErrors(table: string, tokens: seq<Val>, aidOnly: bool)
    ensures Selected(table, tokens, aidOnly).Ok? <==> WellFormed(tokens) && (tokens == [] || FuncIs(tokens, 0, A))
    ensures Selected(table, tokens, aidOnly) == Err(AError) <==>
      |tokens| >= 2 && Info(tokens[0]).Some? && !FuncIs(tokens, 0, A)
  {
    SelectedScan(table, tokens, aidOnly);
    if |tokens| >= 2 && FuncIs(tokens, 0, A) {
      var step := Step(table, tokens, 0, Start(table));
      assert ScanFrom(table, tokens, 0, Start(table)) == ScanFrom(table, tokens, 2, step.value);
      ScanErrors(table, tokens, 2, step.value);
    }
  }

  /** `selectify` fails exactly where its loop does, with the same error. */
  lemma SelectedScan(table: string, tokens: seq<Val>, aidOnly: bool)
    ensures var scan := ScanFrom(table, tokens, 0, Start(table));
      && (Selected(table, tokens, aidOnly).Ok? <==> scan.Ok?)
      && (scan.Err? ==> Selected(table, tokens, aidOnly) == Err(scan.error))
  {
  }

  lemma {:induction false} HolesAppend(a: Frag, b: Frag)
    ensures Holes(a + b) == Holes(a) + Holes(b)
    decreases |a|
  {
    if a != [] {
      assert (a + b)[0] == a[0] && (a + b)[1..] == a[1..] + b;
      HolesAppend(a[1..], b);
    } else {
      assert a + b == b;
    }
  }

  lemma {:induction false} HolesNone(f: Frag)
    requires NoHole(f)
    ensures Holes(f) == 0
    decreases |f|
  {
    if f != [] {
      HolesNone(f[1..]);
    }
  }

  lemma {:induction false} HolesResolve(f: Frag, inv: seq<bool>, n: nat)
    requires n <= |inv|
    ensures Holes(Resolve(f, inv, n)) == Holes(f)
    decreases |f|
  {
    if f != [] {
      assert Resolve(f, inv, n)[1..] == Resolve(f[1..], inv, n);
      HolesResolve(f[1..], inv, n);
    }
  }

  /** Joining parts of one placeholder each with a separator of none
      gives as many placeholders as parts. */
  lemma {:induction false} HolesJoin(parts: seq<Frag>, sep: Frag, each: nat)
    requires NoHole(sep) && forall p :: 0 <= p < |parts| ==> Holes(parts[p]) == each
    ensures Holes(JoinFrags(parts, sep)) == each * |parts|
    decreases |parts|
  {
    if |parts| > 1 {
      var rest := parts[1..];
      assert forall p :: 0 <= p < |rest| ==> rest[p] == parts[p + 1];
      HolesJoin(rest, sep, each);
      HolesAppend(parts[0], sep);
      HolesAppend(parts[0] + sep, JoinFrags(rest, sep));
      HolesNone(sep);
      MulSucc(each, |rest|);
    }
  }

  lemma MulSucc(a: nat, b: nat)
    ensures a * (b + 1) == a * b + a
  {
  }

  lemma {:induction false} RenderAppend(a: Frag, b: Frag)
    ensures Render(a + b) == Render(a) + Render(b)
    decreases |a|
  {
    if a != [] {
      assert (a + b)[0] == a[0] && (a + b)[1..] == a[1..] + b;
      RenderAppend(a[1..], b);
    } else {
      assert a + b == b;
    }
  }

  lemma RenderTexts(a: string, b: string, c: string, d: string)
    ensures Render([Text(a), Text(b), Text(c), Text(d)]) == a + b + c + d
  {
    var f := [Text(a), Text(b), Text(c), Text(d)];
    assert f[1..] == [Text(b), Text(c), Text(d)];
    assert f[1..][1..] == [Text(c), Text(d)];
    assert f[1..][1..][1..] == [Text(d)];
    assert Render([Text(d)]) == d by {
      assert [Text(d)][1..] == [];
    }
    assert Render([Text(c), Text(d)]) == c + d;
    assert Render([Text(b), Text(c), Text(d)]) == b + c + d;
  }

  /** The joins after resolution: the meme table itself, then for every
      later hop a join linking the target of the hop before to the source
      of its own hop, each read in the direction its flag says. */
  lemma JoinsText(table: string, st: Scan, k: nat)
    requires |st.inversions| == st.m + 1 && |st.joins| == st.m + 1 && st.joins[0] == FromFrag(table)
    requires forall k :: 1 <= k < |st.joins| ==> st.joins[k] == JoinFrag(table, k)
    requires k < |st.joins|
    ensures var inv := st.inversions; var j := Resolve(st.joins[k], inv, |inv|);
      Render(j) == (if k == 0 then " FROM " + table + " m0"
                    else "JOIN " + table + " m" + NatToString(k) + " ON " +
                         ColumnText(ColB, k - 1, inv[k - 1]) + "=" + ColumnText(ColA, k, inv[k]))
  {
    var inv := st.inversions;
    if k == 0 {
      assert Resolve(st.joins[0], inv, |inv|) == FromFrag(table);
    } else {
      assert Resolve(st.joins[k], inv, |inv|) == [Text("JOIN " + table + " m" + NatToString(k) + " ON "),
        Text(ColumnText(ColB, k - 1, inv[k - 1])), Text("="), Text(ColumnText(ColA, k, inv[k]))];
      RenderTexts("JOIN " + table + " m" + NatToString(k) + " ON ", ColumnText(ColB, k - 1, inv[k - 1]), "=", ColumnText(ColA, k, inv[k]));
    }
  }

  /** The text of a select holds one `%s` per condition. */
  lemma AssembleHoles(p: Parts)
    requires forall q :: 0 <= q < |p.select| ==> Holes(p.select[q]) == 0
    requires forall q :: 0 <= q < |p.joins| ==> Holes(p.joins[q]) == 0
    requires forall q :: 0 <= q < |p.wheres| ==> Holes(p.wheres[q]) == 1
    ensures Holes(Assemble(p)) == |p.wheres|
  {
    HolesJoin(p.select, [Text(", ")], 0);
    HolesJoin(p.joins, [Text(" ")], 0);
    HolesJoin(p.wheres, [Text(" AND ")], 1);
    var head := [Text("SELECT ")] + JoinFrags(p.select, [Text(", ")]);
    HolesAppend([Text("SELECT ")], JoinFrags(p.select, [Text(", ")]));
    HolesAppend(head, JoinFrags(p.joins, [Text(" ")]));
    var tail: Frag := if p.wheres == [] then [] else [Text(" WHERE ")] + JoinFrags(p.wheres, [Text(" AND ")]);
    if p.wheres != [] {
      HolesAppend([Text(" WHERE ")], JoinFrags(p.wheres, [Text(" AND ")]));
    }
    HolesAppend(head + JoinFrags(p.joins, [Text(" ")]), tail);
  }

  /** The resolved lists keep the placeholders of the scan: none in the
      select list or the joins, one per condition. */
  lemma FinishHoles(table: string, tokens: seq<Val>, st: Scan, aidOnly: bool)
    requires Tracks(table, tokens, |tokens|, st)
    ensures var p := Finish(st, aidOnly);
      && (forall q :: 0 <= q < |p.select| ==> Holes(p.select[q]) == 0)
      && (forall q :: 0 <= q < |p.joins| ==> Holes(p.joins[q]) == 0)
      && (forall q :: 0 <= q < |p.wheres| ==> Holes(p.wheres[q]) == 1)
  {
    var p := Finish(st, aidOnly);
    var inv := st.inversions;
    forall q | 0 <= q < |p.select| ensures Holes(p.select[q]) == 0 {
      HolesResolve(SelectList(st, aidOnly)[q], inv, |inv|);
      HolesNone(SelectList(st, aidOnly)[q]);
    }
    forall q | 0 <= q < |p.joins| ensures Holes(p.joins[q]) == 0 {
      HolesResolve(st.joins[q], inv, |inv|);
      HolesNone(st.joins[q]);
    }
    forall q | 0 <= q < |p.wheres| ensures Holes(p.wheres[q]) == 1 {
      HolesResolve(st.wheres[q], inv, |inv|);
    }
  }

  /** The shape of what `selectify` builds: one join per hop, the first
      one the meme table itself and every later one linking the target of
      the hop before to the source of its own hop, each read in the
      direction its inversion flag says; a hop is inverted exactly when a
      relation with a leading minus was met while it was the current hop;
      one condition and one parameter per constrained operand, in order,
      so the text holds one `%s` per parameter; and an `aidOnly` select
      lists only the anchor column. */
  lemma SelectifyShape(table: string, tokens: seq<Val>, aidOnly: bool)
    requires Built(table, tokens, aidOnly).Ok?
    ensures var p := Built(table, tokens, aidOnly).value;
      && |p.joins| == |p.inversions| == Hops(tokens, |tokens|) + 1
      && (forall h :: 0 <= h < |p.inversions| ==> p.inversions[h] == Flagged(tokens, |tokens|, h))
      && Render(p.joins[0]) == " FROM " + table + " m0"
      && (forall k :: 1 <= k < |p.joins| ==>
            Render(p.joins[k]) == "JOIN " + table + " m" + NatToString(k) + " ON " +
              ColumnText(ColB, k - 1, p.inversions[k - 1]) + "=" + ColumnText(ColA, k, p.inversions[k]))
      && p.params == Conds(tokens, |tokens|) && |p.wheres| == |p.params|
      && Holes(Assemble(p)) == |p.params|
      && (aidOnly ==> |p.select| == 1 && Render(p.select[0]) == ColumnText(ColA, 0, p.inversions[0]) + " AS a0")
  {
    var st := ScanFrom(table, tokens, 0, Start(table)).value;
    ScanTracks(table, tokens, 0, Start(table));
    var p := Built(table, tokens, aidOnly).value;
    var inv := st.inversions;
    assert p == Finish(st, aidOnly);
    JoinsText(table, st, 0);
    forall k | 1 <= k < |p.joins| ensures Render(p.joins[k]) ==
      "JOIN " + table + " m" + NatToString(k) + " ON "
      + ColumnText(ColB, k - 1, inv[k - 1]) + "=" + ColumnText(ColA, k, inv[k])
    {
      JoinsText(table, st, k);
    }
    FinishHoles(table, tokens, st, aidOnly);
    AssembleHoles(p);
    if aidOnly {
      var f := p.select[0];
      assert f == [Text(ColumnText(ColA, 0, inv[0])), Text(" AS a0")];
      assert f[1..][1..] == [];
    }
  }

  /** A relation with a leading minus in the first hop inverts that hop. */
  lemma FirstHopInverted(table: string)
    ensures var r := Built(table, [Int(SEMI), Int(5), Int(LBRACKET), Int(-7), Int(RBRACKET), Int(9)], true);
      r.Ok? && r.value.inversions == [true]
  {
    var t := [Int(SEMI), Int(5), Int(LBRACKET), Int(-7), Int(RBRACKET), Int(9)];
    assert WellFormed(t) by {
      assert forall p :: 0 <= p < |t| && p % 2 == 0 ==> p in {0, 2, 4};
    }
    SelectifyErrors(table, t, true);
    assert Negated(t, 2) && !Negated(t, 4) && !Chained(t, 2) && !Chained(t, 4);
    assert Hops(t, 2) == 0;
    assert Hops(t, 4) == 0;
    assert Hops(t, 6) == 0;
    assert Flagged(t, 4, 0) && Flagged(t, 6, 0);
    SelectifyShape(table, t, true);
  }

  /** A relation with a leading minus inverts the hop it belongs to: the
      condition it adds names the relation column of the current hop,
      and that hop is flagged, so the condition reads `rid*-1`. */
  lemma NegatedStepInverted(table: string, tokens: seq<Val>, o: nat, st: Scan)
    requires o < |tokens| && |st.inversions| == st.m + 1
    requires Step(table, tokens, o, st).Ok? && Negated(tokens, o)
    ensures var r := Step(table, tokens, o, st).value;
      && r.wheres == st.wheres + [[Ref(ColR, r.m), Text("="), Hole]]
      && r.params == st.params + [tokens[o + 1]]
      && r.inversions[r.m]
  {
    var op := tokens[o].i;
    assert Opr(op).value.func == R && op != EQ_ID && tokens[o + 1] != Nil;
  }

  lemma {:induction false} FlaggedUpTo(tokens: seq<Val>, a: nat, b: nat, h: nat)
    requires a <= b && (b - a) % 2 == 0 && Flagged(tokens, a, h)
    ensures Flagged(tokens, b, h)
    decreases b - a
  {
    if b > a {
      FlaggedUpTo(tokens, a, b - 2, h);
    }
  }

  lemma {:induction false} HopsUpTo(tokens: seq<Val>, a: nat, b: nat)
    requires a <= b && (b - a) % 2 == 0
    ensures Hops(tokens, a) <= Hops(tokens, b)
    decreases b - a
  {
    if b > a {
      HopsUpTo(tokens, a, b - 2);
    }
  }

  /** The inversion flags of a select that builds, hop by hop. */
  lemma BuiltInversions(table: string, tokens: seq<Val>, aidOnly: bool)
    requires Built(table, tokens, aidOnly).Ok?
    ensures |tokens| % 2 == 0
    ensures var inv := Built(table, tokens, aidOnly).value.inversions;
      && |inv| == Hops(tokens, |tokens|) + 1
      && forall h :: 0 <= h < |inv| ==> inv[h] == Flagged(tokens, |tokens|, h)
  {
    SelectifyErrors(table, tokens, aidOnly);
    SelectifyShape(table, tokens, aidOnly);
  }

  /** Over a whole select: every relation with a leading minus leaves the
      hop it belongs to inverted. */
  lemma NegatedHopInverted(table: string, tokens: seq<Val>, aidOnly: bool, o: nat)
    requires Built(table, tokens, aidOnly).Ok?
    requires o < |tokens| && o % 2 == 0 && Negated(tokens, o)
    ensures var inv := Built(table, tokens, aidOnly).value.inversions;
      Hops(tokens, o + 2) < |inv| && inv[Hops(tokens, o + 2)]
  {
    BuiltInversions(table, tokens, aidOnly);
    var h := Hops(tokens, o + 2);
    assert Flagged(tokens, o + 2, h);
    FlaggedUpTo(tokens, o + 2, |tokens|, h);
    HopsUpTo(tokens, o + 2, |tokens|);
  }

  /** `;5[6]9[-7]8`: a hop to 9, then a second one through relation -7. */
  function ChainedSample(): seq<Val> {
    [Int(SEMI), Int(5), Int(LBRACKET), Int(6), Int(RBRACKET), Int(9), Int(LBRACKET), Int(-7), Int(RBRACKET), Int(8)]
  }

  /** As written, the minus of a relation that opens a new hop flags the
      hop before it: in `;5[6]9[-7]8` hop 0 is inverted, while the
      condition on -7 names the relation column of hop 1, which is not,
      so it reads `m1.rid=%s` with -7 and matches nothing. */
  lemma ChainedFlagsPreviousHop(table: string)
    ensures var r := ScanAsWritten(table, ChainedSample(), 0, Start(table));
      && r.Ok? && r.value.inversions == [true, false]
      && |r.value.wheres| == |r.value.params| == 5
      && r.value.wheres[3] == [Ref(ColR, 1), Text("="), Hole] && r.value.params[3] == Int(-7)
  {
    var t := ChainedSample();
    var s0 := Start(table);
    var s1 := PlainStep(table, t, 0, s0, A);
    var s2 := PlainStep(table, t, 2, s1, R);
    var s3 := PlainStep(table, t, 4, s2, B);
    assert Negated(t, 6) && Chained(t, 6);
    var s4 := HoppedAsWritten(table, t, 6, s3);
    assert s4.inversions == [true, false] && s4.m == 1;
    assert StepAsWritten(table, t, 6, s3) == Ok(Where(LBRACKET, Int(-7), s4));
    var s5 := Where(LBRACKET, Int(-7), s4);
    assert s5.wheres == s3.wheres + [[Ref(ColR, 1), Text("="), Hole]];
    var s6 := PlainStep(table, t, 8, s5, B);
    assert ScanAsWritten(table, t, 10, s6) == Ok(s6);
  }

  /** A pass as written over a pair that neither flags nor chains, whose
      operand gets a condition on column `f` of the current hop. */
  lemma PlainStep(table: string, tokens: seq<Val>, o: nat, st: Scan, f: Func) returns (next: Scan)
    requires o + 1 < |tokens| && |st.inversions| == st.m + 1 && f in {A, R, B}
    requires FuncIs(tokens, o, f) && (o == 0 ==> f == A) && !Negated(tokens, o) && !Chained(tokens, o)
    requires tokens[o + 1] != Nil && tokens[o] != Int(EQ_ID)
    ensures next == st.(wheres := st.wheres + [[Ref(FuncCol(f), st.m), Text("="), Hole]], params := st.params + [tokens[o + 1]])
    ensures StepAsWritten(table, tokens, o, st) == Ok(next)
    ensures ScanAsWritten(table, tokens, o, st) == ScanAsWritten(table, tokens, o + 2, next)
  {
    next := st.(wheres := st.wheres + [[Ref(FuncCol(f), st.m), Text("="), Hole]], params := st.params + [tokens[o + 1]]);
  }

  /** With the flag set after the hop moves on, the same clause inverts
      hop 1, whose condition carries -7, and leaves hop 0 alone. */
  lemma ChainedFlagsOwnHop(table: string)
    ensures var r := Built(table, ChainedSample(), true);
      r.Ok? && r.value.inversions == [false, true]
  {
    var t := ChainedSample();
    assert WellFormed(t) by {
      assert forall p :: 0 <= p < |t| && p % 2 == 0 ==> p in {0, 2, 4, 6, 8};
    }
    SelectifyErrors(table, t, true);
    ChainedSampleFlags();
    SelectifyShape(table, t, true);
  }

  lemma ChainedSampleFlags()
    ensures Hops(ChainedSample(), 10) == 1
    ensures !Flagged(ChainedSample(), 10, 0) && Flagged(ChainedSample(), 10, 1)
  {
    var t := ChainedSample();
    assert !Negated(t, 2) && !Negated(t, 4) && Negated(t, 6) && !Negated(t, 8);
    assert !Chained(t, 2) && !Chained(t, 4) && Chained(t, 6) && !Chained(t, 8);
    assert Hops(t, 2) == 0;
    assert Hops(t, 4) == 0;
    assert Hops(t, 6) == 0;
    assert Hops(t, 8) == 1;
    assert Hops(t, 10) == 1;
    assert !Flagged(t, 2, 0) && !Flagged(t, 4, 0) && !Flagged(t, 6, 0) && !Flagged(t, 8, 0);
    assert Flagged(t, 8, 1);
  }

  /** A select text holds one `%s` per parameter. */
  lemma SelectedHoles(table: string, tokens: seq<Val>, aidOnly: bool)
    requires Selected(table, tokens, aidOnly).Ok?
    ensures Holes(Selected(table, tokens, aidOnly).value.sql) == |Selected(table, tokens, aidOnly).value.params|
  {
    SelectifyShape(table, tokens, aidOnly);
  }

  lemma {:induction false} HoleSumAppend(a: seq<Frag>, b: seq<Frag>)
    ensures HoleSum(a + b) == HoleSum(a) + HoleSum(b)
    decreases |a|
  {
    if a == [] {
      assert a + b == b;
    } else {
      assert (a + b)[0] == a[0] && (a + b)[1..] == a[1..] + b;
      HoleSumAppend(a[1..], b);
    }
  }

  /** Joining with a separator free of placeholders keeps the placeholders
      of the parts. */
  lemma {:induction false} HolesJoinSum(parts: seq<Frag>, sep: Frag)
    requires NoHole(sep)
    ensures Holes(JoinFrags(parts, sep)) == HoleSum(parts)
    decreases |parts|
  {
    if |parts| == 1 {
      assert parts[1..] == [];
    } else if |parts| > 1 {
      HolesJoinSum(parts[1..], sep);
      HolesAppend(parts[0], sep);
      HolesAppend(parts[0] + sep, JoinFrags(parts[1..], sep));
      HolesNone(sep);
    }
  }
}
