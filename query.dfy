/** `subquerify` and `querify` (memelang.py lines 404-522): a statement
    is cut into clauses at every space operator; each clause goes to the
    NOT list (`=#f`), the GET list (`=#g`) or an OR group (`|n`, or a group
    of its own); every OR group becomes one common table expression
    `z{n}`, each later group restricted to the one before it, and the NOT
    clauses exclude their anchors from the first select of the first
    group. `querify` does this statement by statement, numbering the
    expressions on from the statements before. */
module SqlQuery {
  import opened Base
  import opened Strings
  import opened Walker
  import opened SqlSelect

  // ---------------------------------------------------------------------
  // Grouping the clauses of a statement
  // ---------------------------------------------------------------------

  /** Which entry of `groups` a clause is filed under. */
  datatype Key = TrueKey | FalseKey | GetKey

  /** One OR group: its number and its clauses, in order. */
  datatype Group = Group(num: Val, clauses: seq<seq<Val>>)

  /** The state of the grouping loop: whether a query marker asked for
      `all`, the OR groups in the order they were first met, the NOT and
      GET clauses, whether the current clause is a query marker, the key
      and number the current clause will be filed under, and where it
      starts. The NOT and GET clauses are filed under number 0, the only
      one read back. */
  datatype Grouping = Grouping(qryAll: bool, trues: seq<Group>, falses: seq<seq<Val>>, gets: seq<seq<Val>>,
                               skip: bool, key: Key, num: Val, beg: nat)

  const OPENING := Grouping(false, [], [], [], false, TrueKey, Int(1000), 0)

  function Nums(groups: seq<Group>): (r: seq<Val>)
    ensures |r| == |groups| && forall i :: 0 <= i < |groups| ==> r[i] == groups[i].num
  {
    seq(|groups|, i requires 0 <= i < |groups| => groups[i].num)
  }

  /** The group numbers are keys of a dictionary. */
  predicate Distinct(groups: seq<Group>) {
    forall i, j :: 0 <= i < j < |groups| ==> groups[i].num != groups[j].num
  }

  /** The first group numbered `num`, if any. */
  function Find(groups: seq<Group>, num: Val): (r: Option<nat>)
    ensures r.None? <==> num !in Nums(groups)
    ensures r.Some? ==> r.value < |groups| && groups[r.value].num == num
    ensures r.Some? ==> forall j :: 0 <= j < r.value ==> groups[j].num != num
    decreases |groups|
  {
    if groups == [] then None
    else if groups[0].num == num then Some(0)
    else match Find(groups[1..], num)
      case None => None
      case Some(i) => Some(i + 1)
  }

  /** `groups['true'][num].append(clause)`, a new group going last. */
  function AddTo(groups: seq<Group>, num: Val, clause: seq<Val>): (r: seq<Group>)
    ensures num in Nums(groups) ==> Nums(r) == Nums(groups)
    ensures num !in Nums(groups) ==> Nums(r) == Nums(groups) + [num] && r[|groups|].clauses == [clause]
    ensures Distinct(groups) ==> Distinct(r)
    ensures Distinct(groups) ==> forall i :: 0 <= i < |groups| ==>
      r[i].clauses == if groups[i].num == num then groups[i].clauses + [clause] else groups[i].clauses
  {
    match Find(groups, num)
    case Some(i) => groups[i := groups[i].(clauses := groups[i].clauses + [clause])]
    case None => groups + [Group(num, [clause])]
  }

  /** The first test of the loop at slot `o`: a query marker records
      whether it asks for `all`, `=#` switches to number 0 and, for the
      operand `f` or `g`, to the NOT or GET list, and `|n` switches to OR
      group `n`. Every slot is looked up in `OPR` first. */
  function Mark(tokens: seq<Val>, o: nat, g: Grouping): (r: Result<Grouping>)
    requires o < |tokens|
    ensures r.Ok? ==> r.value.beg == g.beg && r.value.trues == g.trues
    ensures r.Err? ==> r.error in {IndexError, KeyError}
  {
    if Info(tokens[o]).None? then Err(KeyError)
    else if Info(tokens[o]).value.func == A && o + 1 >= |tokens| then Err(IndexError)
    else if Info(tokens[o]).value.func == A && tokens[o + 1] == Int(QRY) then
      if o + 3 >= |tokens| then Err(IndexError)
      else Ok(g.(qryAll := g.qryAll || tokens[o + 3] == Int(ALL), skip := true))
    else if tokens[o] == Int(EQ_ID) then
      if o + 1 >= |tokens| then Err(IndexError)
      else Ok(g.(num := Int(0),
                 key := if tokens[o + 1] == Int(F_ID) then FalseKey else if tokens[o + 1] == Int(G_ID) then GetKey else g.key))
    else if tokens[o] == Int(OR_TAG) then
      if o + 1 >= |tokens| then Err(IndexError)
      else Ok(g.(key := TrueKey, num := tokens[o + 1]))
    else Ok(g)
  }

  /** The end of a clause at slot `o`: unless it was a query marker it is
      filed, and the next clause starts under a fresh OR number. */
  function Close(tokens: seq<Val>, o: nat, g: Grouping): Grouping
    requires g.beg <= o + 2 <= |tokens|
  {
    var clause := tokens[g.beg..o + 2];
    var filed :=
      if g.skip then g
      else match g.key
        case TrueKey => g.(trues := AddTo(g.trues, g.num, clause))
        case FalseKey => g.(falses := g.falses + [clause])
        case GetKey => g.(gets := g.gets + [clause]);
    filed.(skip := false, beg := o + 2, num := Int(1000 + o), key := TrueKey)
  }

  /** The grouping loop from slot `o` on. A clause ends before a space
      operator or at the end of the list. */
  function GroupFrom(tokens: seq<Val>, o: nat, g: Grouping): (r: Result<Grouping>)
    requires g.beg <= o
    ensures r.Err? ==> r.error in {IndexError, KeyError}
    decreases |tokens| - o
  {
    if o >= |tokens| then Ok(g)
    else match Mark(tokens, o, g)
      case Err(e) => Err(e)
      case Ok(g1) =>
        if o + 2 != |tokens| && o + 2 >= |tokens| then Err(IndexError)
        else if o + 2 == |tokens| || tokens[o + 2] == Int(SPACE) then GroupFrom(tokens, o + 2, Close(tokens, o, g1))
        else GroupFrom(tokens, o + 2, g1)
  }

  function Grouped(tokens: seq<Val>): (r: Result<Grouping>)
    ensures r.Err? ==> r.error in {IndexError, KeyError}
  {
    GroupFrom(tokens, 0, OPENING)
  }

  // ---------------------------------------------------------------------
  // Compiling the groups
  // ---------------------------------------------------------------------

  /** The NOT phase from the `i`-th NOT clause on: each, as a select of
      its anchor alone, adds ` AND m0.aid NOT IN (...)` and its
      parameters. */
  function NotsFrom(table: string, falses: seq<seq<Val>>, i: nat, acc: Piece): (r: Result<Piece>)
    ensures r.Err? ==> r.error in {IndexError, KeyError, AError}
    decreases |falses| - i
  {
    if i >= |falses| then Ok(acc)
    else match Selected(table, falses[i], true)
      case Err(e) => Err(e)
      case Ok(s) => NotsFrom(table, falses, i + 1, Piece(acc.sql + [Text(" AND m0.aid NOT IN (")] + s.sql + [Text(")")], acc.params + s.params))
  }

  /** The condition that keeps a select to the anchors of `z{z}`. */
  function Restriction(z: nat): Frag {
    [Text(" AND m0.aid IN (SELECT a0 FROM z" + NatToString(z) + ")")]
  }

  /** The selects of one OR group so far, the parameters of the whole
      statement so far, and the NOT conditions not yet attached. */
  datatype Members = Members(selects: seq<Frag>, params: seq<Val>, pending: Piece)

  /** What one clause adds to a group at `z`: the restriction to the
      last expression when there is one, else the pending NOT conditions. */
  function Attached(cteBeg: nat, z: nat, pending: Frag): Frag {
    if z > cteBeg then Restriction(z) else pending
  }

  /** One pass of `MembersFrom`: once an expression exists each select is
      restricted to the last one; before that the pending NOT conditions
      go to the first select and are then dropped. */
  function MemberStep(s: Piece, cteBeg: nat, z: nat, acc: Members): (r: Members)
    ensures r.selects == acc.selects + [s.sql + Attached(cteBeg, z, acc.pending.sql)]
    ensures z <= cteBeg ==> r.pending.sql == []
    ensures z > cteBeg ==> r.pending == acc.pending
  {
    if z > cteBeg then Members(acc.selects + [s.sql + Restriction(z)], acc.params + s.params, acc.pending)
    else if acc.pending.sql != [] then
      Members(acc.selects + [s.sql + acc.pending.sql], acc.params + (s.params + acc.pending.params), Piece([], []))
    else
      assert s.sql + acc.pending.sql == s.sql;
      Members(acc.selects + [s.sql], acc.params + s.params, acc.pending)
  }

  /** The selects of one OR group from its `j`-th clause on, `z` being the
      number of expressions before it. */
  function MembersFrom(table: string, clauses: seq<seq<Val>>, j: nat, cteBeg: nat, z: nat, acc: Members): (r: Result<Members>)
    ensures r.Err? ==> r.error in {IndexError, KeyError, AError}
    decreases |clauses| - j
  {
    if j >= |clauses| then Ok(acc)
    else match Selected(table, clauses[j], false)
      case Err(e) => Err(e)
      case Ok(s) =>
        MembersFrom(table, clauses, j + 1, cteBeg, z, MemberStep(s, cteBeg, z, acc))
  }

  /** One step of `MembersFrom`: the `j`-th clause compiles to `q`. */
  lemma MembersNext(table: string, clauses: seq<seq<Val>>, j: nat, cteBeg: nat, z: nat, acc: Members, q: Result<Piece>)
    requires j < |clauses| && q == Selected(table, clauses[j], false)
    ensures q.Err? ==> MembersFrom(table, clauses, j, cteBeg, z, acc) == Err(q.error)
    ensures q.Ok? ==>
      MembersFrom(table, clauses, j, cteBeg, z, acc) == MembersFrom(table, clauses, j + 1, cteBeg, z, MemberStep(q.value, cteBeg, z, acc))
  {
  }

  /** A common table expression `z{num} AS (... UNION ...)`. */
  datatype Cte = Cte(num: nat, members: seq<Frag>)

  datatype Compiled = Compiled(ctes: seq<Cte>, params: seq<Val>, pending: Piece)

  /** The OR phase from the `i`-th group on: group `i` becomes expression
      `z{cteBeg + i + 1}`. */
  function UnionsFrom(table: string, groups: seq<Group>, i: nat, cteBeg: nat, acc: Compiled): (r: Result<Compiled>)
    ensures r.Err? ==> r.error in {IndexError, KeyError, AError}
    decreases |groups| - i
  {
    if i >= |groups| then Ok(acc)
    else match MembersFrom(table, groups[i].clauses, 0, cteBeg, cteBeg + i, Members([], acc.params, acc.pending))
      case Err(e) => Err(e)
      case Ok(m) => UnionsFrom(table, groups, i + 1, cteBeg, Compiled(acc.ctes + [Cte(cteBeg + i + 1, m.selects)], m.params, m.pending))
  }

  /** One step of `UnionsFrom`: group `i` compiles to `q`. */
  lemma UnionsNext(table: string, groups: seq<Group>, i: nat, cteBeg: nat, acc: Compiled, q: Result<Members>)
    requires i < |groups| && q == MembersFrom(table, groups[i].clauses, 0, cteBeg, cteBeg + i, Members([], acc.params, acc.pending))
    ensures q.Err? ==> UnionsFrom(table, groups, i, cteBeg, acc) == Err(q.error)
    ensures q.Ok? ==>
      UnionsFrom(table, groups, i, cteBeg, acc)
        == UnionsFrom(table, groups, i + 1, cteBeg, Compiled(acc.ctes + [Cte(cteBeg + i + 1, q.value.selects)], q.value.params, q.value.pending))
  {
  }

  /** Selects with the parameters of the statement so far. */
  datatype Selects = Selects(sqls: seq<Frag>, params: seq<Val>)

  /** The GET phase from the `i`-th GET clause on: each select keeps to
      the anchors of the last expression, `z{z}`. */
  function GetsFrom(table: string, gets: seq<seq<Val>>, i: nat, z: nat, acc: Selects): (r: Result<Selects>)
    ensures r.Err? ==> r.error in {IndexError, KeyError, AError}
    decreases |gets| - i
  {
    if i >= |gets| then Ok(acc)
    else match Selected(table, gets[i], false)
      case Err(e) => Err(e)
      case Ok(s) =>
        GetsFrom(table, gets, i + 1, z,
                 Selects(acc.sqls + [s.sql + [Text(" AND a0 IN (SELECT a0 FROM z" + NatToString(z) + ")")]], acc.params + s.params))
  }

  /** One step of `GetsFrom`: the `i`-th GET clause compiles to `q`. */
  lemma GetsNext(table: string, gets: seq<seq<Val>>, i: nat, z: nat, acc: Selects, q: Result<Piece>)
    requires i < |gets| && q == Selected(table, gets[i], false)
    ensures q.Err? ==> GetsFrom(table, gets, i, z, acc) == Err(q.error)
    ensures q.Ok? ==>
      GetsFrom(table, gets, i, z, acc) == GetsFrom(table, gets, i + 1, z, Selects(acc.sqls + [q.value.sql + GetRestriction(z)], acc.params + q.value.params))
  {
  }

  /** The output of expression `z{k}`, kept to the anchors of the last
      one, `z{z}`, unless it is the last. */
  function Output(k: nat, z: nat): Frag {
    [Text("SELECT arbeq FROM z" + NatToString(k) + (if k == z then "" else " WHERE a0 IN (SELECT a0 FROM z" + NatToString(z) + ")"))]
  }

  /** One output per expression of the statement, `z{cteBeg + 1}` to `z{z}`. */
  function Outputs(cteBeg: nat, z: nat): seq<Frag>
    requires cteBeg <= z
  {
    seq(z - cteBeg, k requires 0 <= k < z - cteBeg => Output(cteBeg + k + 1, z))
  }

  /** The output for expression `n` is one piece of text that reads from
      `z{n}`, and it is kept to the anchors of the last expression `z{z}`
      exactly when `n` is not that last expression. */
  lemma OutputsRead(cteBeg: nat, z: nat, n: nat)
    requires cteBeg < n <= z
    ensures |Outputs(cteBeg, z)| == z - cteBeg
    ensures var o := Outputs(cteBeg, z)[n - cteBeg - 1];
      var from := "SELECT arbeq FROM z" + NatToString(n);
      var anchored := " WHERE a0 IN (SELECT a0 FROM z" + NatToString(z) + ")";
      && |o| == 1 && o[0].Text?
      && |from| <= |o[0].s| && o[0].s[..|from|] == from
      && (|anchored| <= |o[0].s| && o[0].s[|o[0].s| - |anchored|..] == anchored <==> n < z)
  {
    var o := Outputs(cteBeg, z)[n - cteBeg - 1];
    var from := "SELECT arbeq FROM z" + NatToString(n);
    var anchored := " WHERE a0 IN (SELECT a0 FROM z" + NatToString(z) + ")";
    assert o == Output(n, z);
    if n < z {
      assert o[0].s == from + anchored;
      assert o[0].s[|o[0].s| - |anchored|..] == anchored;
    } else {
      assert o[0].s == from;
    }
    assert o[0].s[..|from|] == from;
  }

  /** What `subquerify` returns: the expressions, the selects, and the
      parameters in the order of their placeholders, those of the
      expressions apart from those of the GET selects; `params` is the
      one list the source returns. */
  datatype Sub = Sub(ctes: seq<Cte>, selects: seq<Frag>, exprParams: seq<Val>, getParams: seq<Val>) {
    const params: seq<Val> := exprParams + getParams
  }

  /** The select of everything about the matching anchors: a single
      slot, so `selectify` always fails on it and a statement with a query
      marker for `all` ends in that error. */
  const ALL_TOKENS: seq<Val> := [Int(RBRACKET)]

  /** `selectify` on the one-slot list reads past its end. */
  lemma AllRefused(table: string)
    ensures Selected(table, ALL_TOKENS, false) == Err(IndexError)
  {
  }

  /** What `subquerify(tokens, table, cteBeg)` returns or raises. */
  function Subquery(table: string, tokens: seq<Val>, cteBeg: nat): Result<Sub> {
    match Grouped(tokens)
    case Err(e) => Err(e)
    case Ok(g) =>
      if g.qryAll && |g.falses| == 0 && |g.trues| == 0 then Err(IndexError)
      else if |g.falses| > 0 && |g.trues| < 1 then Err(NoTrueStatement)
      else match NotsFrom(table, g.falses, 0, Piece([], []))
        case Err(e) => Err(e)
        case Ok(nots) =>
          match UnionsFrom(table, g.trues, 0, cteBeg, Compiled([], [], nots))
          case Err(e) => Err(e)
          case Ok(c) => Composed(table, g, cteBeg, c)
  }

  /** The rest of `subquerify` once the expressions `c` are compiled: the
      GET selects, kept to the last expression, then the outputs. */
  function Composed(table: string, g: Grouping, cteBeg: nat, c: Compiled): Result<Sub> {
    var z := cteBeg + |g.trues|;
    if g.qryAll then Err(IndexError)
    else match GetsFrom(table, g.gets, 0, z, Selects([], []))
      case Err(e) => Err(e)
      case Ok(gs) => Ok(Sub(c.ctes, gs.sqls + Outputs(cteBeg, z), c.params, gs.params))
  }

  // ---------------------------------------------------------------------
  // The whole query
  // ---------------------------------------------------------------------

  /** The loop of `querify` from the statement at `beg` on, gathering
      the parameters of the expressions apart from those of the selects,
      so that all of them come in the order of the text. */
  function StatementsFrom(table: string, tokens: seq<Val>, beg: nat, acc: Sub): Result<Sub>
    decreases |tokens| - beg
  {
    match Next(tokens, beg)
    case Err(e) => Err(e)
    case Ok(end) =>
      if end <= 0 then Ok(acc)
      else match Subquery(table, tokens[beg..end], |acc.ctes|)
        case Err(e) => Err(e)
        case Ok(s) => StatementsFrom(table, tokens, end, Extend(acc, s))
  }

  /** The lists of the statements so far extended by those of one more. */
  function Extend(acc: Sub, s: Sub): Sub {
    Sub(acc.ctes + s.ctes, acc.selects + s.selects, acc.exprParams + s.exprParams, acc.getParams + s.getParams)
  }

  /** The three lists the loop of `querify` extends as memelang.py lines
      414-418 write it. */
  datatype Listed = Listed(ctes: seq<Cte>, selects: seq<Frag>, params: seq<Val>)

  /** The loop as written: each statement's whole parameter list is
      appended at once, so its GET parameters come before the expression
      parameters of the statements after it. */
  function StatementsAsWritten(table: string, tokens: seq<Val>, beg: nat, acc: Listed): Result<Listed>
    decreases |tokens| - beg
  {
    match Next(tokens, beg)
    case Err(e) => Err(e)
    case Ok(end) =>
      if end <= 0 then Ok(acc)
      else match Subquery(table, tokens[beg..end], |acc.ctes|)
        case Err(e) => Err(e)
        case Ok(s) => StatementsAsWritten(table, tokens, end, Listed(acc.ctes + s.ctes, acc.selects + s.selects, acc.params + s.params))
  }

  /** One statement of either loop: it is cut where `nxt` says and
      compiled with the expressions numbered on. */
  lemma StatementsNext(table: string, tokens: seq<Val>, beg: nat, acc: Sub, w: Listed)
    requires StatementsFrom(table, tokens, beg, acc).Ok? || StatementsAsWritten(table, tokens, beg, w).Ok?
    requires |acc.ctes| == |w.ctes|
    ensures Next(tokens, beg).Ok?
    ensures var end := Next(tokens, beg).value;
      end > 0 ==>
        && beg <= end <= |tokens|
        && Subquery(table, tokens[beg..end], |acc.ctes|).Ok?
        && var s := Subquery(table, tokens[beg..end], |acc.ctes|).value;
           && StatementsFrom(table, tokens, beg, acc) == StatementsFrom(table, tokens, end, Extend(acc, s))
           && StatementsAsWritten(table, tokens, beg, w)
                == StatementsAsWritten(table, tokens, end, Listed(w.ctes + s.ctes, w.selects + s.selects, w.params + s.params))
  {
  }

  function CteFrag(c: Cte): Frag {
    [Text("z" + NatToString(c.num) + " AS (")] + JoinFrags(c.members, [Text(" UNION ")]) + [Text(")")]
  }

  function CteFrags(ctes: seq<Cte>): (r: seq<Frag>)
    ensures |r| == |ctes| && forall i :: 0 <= i < |ctes| ==> r[i] == CteFrag(ctes[i])
  {
    seq(|ctes|, i requires 0 <= i < |ctes| => CteFrag(ctes[i]))
  }

  /** The final text: every expression, then the union of every select. */
  function WithFrag(ctes: seq<Cte>, selects: seq<Frag>): Frag {
    WithPart(ctes) + SelectPart(selects)
  }

  /** The `WITH` list of the expressions. */
  function WithPart(ctes: seq<Cte>): Frag {
    [Text("WITH ")] + JoinFrags(CteFrags(ctes), [Text(", ")])
  }

  /** The outer select over the union of the selects. */
  function SelectPart(selects: seq<Frag>): Frag {
    [Text(" SELECT string_agg(arbeq, ' ') AS arbeq FROM (")] + JoinFrags(selects, [Text(" UNION ")]) + [Text(")")]
  }

  /** A query text with its positional parameters. */
  datatype Query = Query(sql: string, params: seq<Val>)

  /** What `querify(tokens, table)` returns or raises, with the
      parameters bound to the placeholders they are meant for: those of
      every expression, then those of every select. The statements start
      after the two header slots. */
  function Queried(table: string, tokens: seq<Val>): Result<Query> {
    match StatementsFrom(table, tokens, 2, Sub([], [], [], []))
    case Err(e) => Err(e)
    case Ok(s) => Ok(Query(Render(WithFrag(s.ctes, s.selects)), s.params))
  }

  /** What `querify(tokens, table)` returns or raises as written: the
      same text, with the parameters statement after statement. */
  function QueriedAsWritten(table: string, tokens: seq<Val>): Result<Query> {
    match StatementsAsWritten(table, tokens, 2, Listed([], [], []))
    case Err(e) => Err(e)
    case Ok(w) => Ok(Query(Render(WithFrag(w.ctes, w.selects)), w.params))
  }

  // ---------------------------------------------------------------------
  // The methods
  // ---------------------------------------------------------------------

  /** The grouping loop of `subquerify`. */
  method GroupClauses(tokens: seq<Val>) returns (r: Result<Grouping>)
    ensures r == Grouped(tokens)
  {
    var g := OPENING;
    var o := 0;
    while o < |tokens|
      invariant g.beg <= o
      invariant GroupFrom(tokens, o, g) == Grouped(tokens)
      decreases |tokens| - o
    {
      var info := Info(tokens[o]);
      if info.None? {
        return Err(KeyError);
      }
      if info.value.func == A && o + 1 >= |tokens| {
        return Err(IndexError);
      }
      if info.value.func == A && tokens[o + 1] == Int(QRY) {
        if o + 3 >= |tokens| {
          return Err(IndexError);
        }
        g := g.(qryAll := g.qryAll || tokens[o + 3] == Int(ALL), skip := true);
      } else if tokens[o] == Int(EQ_ID) {
        if o + 1 >= |tokens| {
          return Err(IndexError);
        }
        g := g.(num := Int(0));
        if tokens[o + 1] == Int(F_ID) {
          g := g.(key := FalseKey);
        } else if tokens[o + 1] == Int(G_ID) {
          g := g.(key := GetKey);
        }
      } else if tokens[o] == Int(OR_TAG) {
        if o + 1 >= |tokens| {
          return Err(IndexError);
        }
        g := g.(key := TrueKey, num := tokens[o + 1]);
      }
      if o + 2 != |tokens| && o + 2 >= |tokens| {
        return Err(IndexError);
      }
      if o + 2 == |tokens| || tokens[o + 2] == Int(SPACE) {
        if !g.skip {
          var clause := tokens[g.beg..o + 2];
          match g.key {
            case TrueKey => g := g.(trues := AddTo(g.trues, g.num, clause));
            case FalseKey => g := g.(falses := g.falses + [clause]);
            case GetKey => g := g.(gets := g.gets + [clause]);
          }
        }
        g := g.(skip := false, beg := o + 2, num := Int(1000 + o), key := TrueKey);
      }
      o := o + 2;
    }
    return Ok(g);
  }

  /** `subquerify(tokens, table, cteBeg)` */
  method Subquerify(table: string, tokens: seq<Val>, cteBeg: nat) returns (r: Result<Sub>)
    ensures r == Subquery(table, tokens, cteBeg)
  {
    var grouped := GroupClauses(tokens);
    if grouped.Err? {
      return Err(grouped.error);
    }
    var g := grouped.value;
    if g.qryAll && |g.falses| == 0 && |g.trues| == 0 {
      var all := Selectify(table, ALL_TOKENS, false);
      AllRefused(table);
      return Err(all.error);
    }
    if |g.falses| > 0 && |g.trues| < 1 {
      return Err(NoTrueStatement);
    }
    var nots := Negate(table, g.falses);
    if nots.Err? {
      return Err(nots.error);
    }
    var compiled := Unite(table, g.trues, cteBeg, nots.value);
    if compiled.Err? {
      return Err(compiled.error);
    }
    var c := compiled.value;
    assert Subquery(table, tokens, cteBeg) == Composed(table, g, cteBeg, c);
    r := Compose(table, g, cteBeg, c);
  }

  /** The rest of `subquerify` once the expressions are compiled. */
  method Compose(table: string, g: Grouping, cteBeg: nat, c: Compiled) returns (r: Result<Sub>)
    requires |c.ctes| == |g.trues|
    ensures r == Composed(table, g, cteBeg, c)
  {
    var z := cteBeg + |c.ctes|;
    if g.qryAll {
      var all := Selectify(table, ALL_TOKENS, false);
      AllRefused(table);
      return Err(all.error);
    }
    var gets := Get(table, g.gets, z, []);
    if gets.Err? {
      return Err(gets.error);
    }
    var sels := AddOutputs(gets.value.sqls, cteBeg, z);
    return Ok(Sub(c.ctes, sels, c.params, gets.value.params));
  }

  /** The GET phase of `subquerify`. */
  method Get(table: string, gets: seq<seq<Val>>, z: nat, params: seq<Val>) returns (r: Result<Selects>)
    ensures r == GetsFrom(table, gets, 0, z, Selects([], params))
  {
    var sels: seq<Frag> := [];
    var ps := params;
    for i := 0 to |gets|
      invariant GetsFrom(table, gets, i, z, Selects(sels, ps)) == GetsFrom(table, gets, 0, z, Selects([], params))
    {
      var q := Selectify(table, gets[i], false);
      if q.Err? {
        return Err(q.error);
      }
      sels := sels + [q.value.sql + [Text(" AND a0 IN (SELECT a0 FROM z" + NatToString(z) + ")")]];
      ps := ps + q.value.params;
    }
    return Ok(Selects(sels, ps));
  }

  /** The output selects of `subquerify`, one per expression. */
  method AddOutputs(sels: seq<Frag>, cteBeg: nat, z: nat) returns (r: seq<Frag>)
    requires cteBeg <= z
    ensures r == sels + Outputs(cteBeg, z)
  {
    r := sels;
    for k := cteBeg to z
      invariant r == sels + Outputs(cteBeg, z)[..k - cteBeg]
    {
      r := r + [Output(k + 1, z)];
      assert Outputs(cteBeg, z)[..k + 1 - cteBeg] == Outputs(cteBeg, z)[..k - cteBeg] + [Output(k + 1, z)];
    }
    assert Outputs(cteBeg, z)[..z - cteBeg] == Outputs(cteBeg, z);
  }

  /** The NOT phase of `subquerify`. */
  method Negate(table: string, falses: seq<seq<Val>>) returns (r: Result<Piece>)
    ensures r == NotsFrom(table, falses, 0, Piece([], []))
  {
    var notwhere: Frag := [];
    var notparams: seq<Val> := [];
    for i := 0 to |falses|
      invariant NotsFrom(table, falses, i, Piece(notwhere, notparams)) == NotsFrom(table, falses, 0, Piece([], []))
    {
      var q := Selectify(table, falses[i], true);
      if q.Err? {
        return Err(q.error);
      }
      notwhere := notwhere + [Text(" AND m0.aid NOT IN (")] + q.value.sql + [Text(")")];
      notparams := notparams + q.value.params;
    }
    return Ok(Piece(notwhere, notparams));
  }

  /** The OR phase of `subquerify`: one expression per group. */
  method Unite(table: string, groups: seq<Group>, cteBeg: nat, nots: Piece) returns (r: Result<Compiled>)
    ensures r == UnionsFrom(table, groups, 0, cteBeg, Compiled([], [], nots))
    ensures r.Ok? ==> |r.value.ctes| == |groups|
  {
    var ctes: seq<Cte> := [];
    var params: seq<Val> := [];
    var pending := nots;
    for i := 0 to |groups|
      invariant |ctes| == i
      invariant UnionsFrom(table, groups, i, cteBeg, Compiled(ctes, params, pending))
             == UnionsFrom(table, groups, 0, cteBeg, Compiled([], [], nots))
    {
      var m := Union(table, groups[i].clauses, cteBeg, cteBeg + i, Members([], params, pending));
      UnionsNext(table, groups, i, cteBeg, Compiled(ctes, params, pending), m);
      if m.Err? {
        return Err(m.error);
      }
      ctes := ctes + [Cte(cteBeg + i + 1, m.value.selects)];
      params, pending := m.value.params, m.value.pending;
    }
    CtesCount(table, groups, |groups|, cteBeg, Compiled(ctes, params, pending));
    return Ok(Compiled(ctes, params, pending));
  }

  lemma CtesCount(table: string, groups: seq<Group>, i: nat, cteBeg: nat, acc: Compiled)
    requires i >= |groups|
    ensures UnionsFrom(table, groups, i, cteBeg, acc) == Ok(acc)
  {
  }

  /** The selects of one OR group. */
  method Union(table: string, clauses: seq<seq<Val>>, cteBeg: nat, z: nat, start: Members) returns (r: Result<Members>)
    ensures r == MembersFrom(table, clauses, 0, cteBeg, z, start)
  {
    var selects, params, pending := start.selects, start.params, start.pending;
    for j := 0 to |clauses|
      invariant MembersFrom(table, clauses, j, cteBeg, z, Members(selects, params, pending)) == MembersFrom(table, clauses, 0, cteBeg, z, start)
    {
      ghost var before := Members(selects, params, pending);
      var q := Selectify(table, clauses[j], false);
      MembersNext(table, clauses, j, cteBeg, z, before, q);
      if q.Err? {
        return Err(q.error);
      }
      var piece := q.value;
      var sql, qparams := piece.sql, piece.params;
      if z > cteBeg {
        sql := sql + Restriction(z);
      } else if pending.sql != [] {
        sql := sql + pending.sql;
        qparams := qparams + pending.params;
        pending := Piece([], []);
      }
      selects := selects + [sql];
      params := params + qparams;
      assert Members(selects, params, pending) == MemberStep(piece, cteBeg, z, before);
    }
    return Ok(Members(selects, params, pending));
  }

  /** `querify(tokens, table)`, with the parameters of the expressions
      and of the selects gathered apart. */
  method Querify(table: string, tokens: seq<Val>) returns (r: Result<Query>)
    ensures r == Queried(table, tokens)
  {
    var ctes: seq<Cte> := [];
    var selects: seq<Frag> := [];
    var exprParams: seq<Val> := [];
    var getParams: seq<Val> := [];
    var beg := 2;
    while true
      invariant StatementsFrom(table, tokens, beg, Sub(ctes, selects, exprParams, getParams))
        == StatementsFrom(table, tokens, 2, Sub([], [], [], []))
      decreases |tokens| - beg
    {
      var next := Next(tokens, beg);
      if next.Err? {
        return Err(next.error);
      }
      var end := next.value;
      if end <= 0 {
        break;
      }
      var sub := Subquerify(table, tokens[beg..end], |ctes|);
      if sub.Err? {
        return Err(sub.error);
      }
      ctes, selects := ctes + sub.value.ctes, selects + sub.value.selects;
      exprParams, getParams := exprParams + sub.value.exprParams, getParams + sub.value.getParams;
      beg := end;
    }
    return Ok(Query(Render(WithFrag(ctes, selects)), exprParams + getParams));
  }

  // ---------------------------------------------------------------------
  // What the grouping keeps
  // ---------------------------------------------------------------------

  /** The OR groups are a dictionary of non-empty lists, and a clause
      bound for the NOT or GET list is under number 0. */
  predicate Filed(g: Grouping) {
    && Distinct(g.trues)
    && (forall i :: 0 <= i < |g.trues| ==> g.trues[i].clauses != [])
    && (g.key != TrueKey ==> g.num == Int(0))
  }

  lemma MarkFiled(tokens: seq<Val>, o: nat, g: Grouping)
    requires o < |tokens| && Filed(g) && Mark(tokens, o, g).Ok?
    ensures Filed(Mark(tokens, o, g).value)
  {
  }

  lemma CloseFiled(tokens: seq<Val>, o: nat, g: Grouping)
    requires g.beg <= o + 2 <= |tokens| && Filed(g)
    ensures Filed(Close(tokens, o, g))
  {
    if !g.skip && g.key == TrueKey {
      var t := AddTo(g.trues, g.num, tokens[g.beg..o + 2]);
      forall i | 0 <= i < |t| ensures t[i].clauses != [] {
        if i == |g.trues| {
          assert Nums(t)[i] == g.num;
        }
      }
    }
  }

  lemma {:induction false} GroupFromFiled(tokens: seq<Val>, o: nat, g: Grouping)
    requires g.beg <= o && Filed(g) && GroupFrom(tokens, o, g).Ok?
    ensures Filed(GroupFrom(tokens, o, g).value)
    decreases |tokens| - o
  {
    if o < |tokens| {
      MarkFiled(tokens, o, g);
      var g1 := Mark(tokens, o, g).value;
      if o + 2 == |tokens| || tokens[o + 2] == Int(SPACE) {
        CloseFiled(tokens, o, g1);
        GroupFromFiled(tokens, o + 2, Close(tokens, o, g1));
      } else {
        GroupFromFiled(tokens, o + 2, g1);
      }
    }
  }

  /** Grouping files every OR clause under a group number met once, in a
      non-empty group. */
  lemma GroupedFiled(tokens: seq<Val>)
    requires Grouped(tokens).Ok?
    ensures Distinct(Grouped(tokens).value.trues)
    ensures forall i :: 0 <= i < |Grouped(tokens).value.trues| ==> Grouped(tokens).value.trues[i].clauses != []
  {
    GroupFromFiled(tokens, 0, OPENING);
  }

  // ---------------------------------------------------------------------
  // What the compilation builds
  // ---------------------------------------------------------------------

  /** `subquerify` raises `NoTrueStatement` exactly when the statement
      groups into NOT clauses and no OR group; a query marker for `all`
      always ends in an error. */
  lemma SubqueryErrors(table: string, tokens: seq<Val>, cteBeg: nat)
    ensures Subquery(table, tokens, cteBeg) == Err(NoTrueStatement) <==>
      Grouped(tokens).Ok? && |Grouped(tokens).value.falses| > 0 && |Grouped(tokens).value.trues| == 0
    ensures Grouped(tokens).Ok? && Grouped(tokens).value.qryAll ==> Subquery(table, tokens, cteBeg).Err?
  {
  }

  /** The placeholders still owed parameters, or the parameters owed
      placeholders, of a group under way. */
  function MembersDebt(m: Members): int {
    |m.params| + |m.pending.params| - HoleSum(m.selects) - Holes(m.pending.sql)
  }

  function CompiledDebt(c: Compiled): int {
    |c.params| + |c.pending.params| - HoleSum(CteFrags(c.ctes)) - Holes(c.pending.sql)
  }

  /** The NOT conditions: one placeholder per parameter. */
  lemma {:induction false} NotsHoles(table: string, falses: seq<seq<Val>>, i: nat, acc: Piece)
    requires Holes(acc.sql) == |acc.params| && NotsFrom(table, falses, i, acc).Ok?
    ensures Holes(NotsFrom(table, falses, i, acc).value.sql) == |NotsFrom(table, falses, i, acc).value.params|
    decreases |falses| - i
  {
    if i < |falses| {
      var s := Selected(table, falses[i], true).value;
      SelectedHoles(table, falses[i], true);
      HolesAppend(acc.sql, [Text(" AND m0.aid NOT IN (")]);
      HolesAppend(acc.sql + [Text(" AND m0.aid NOT IN (")], s.sql);
      HolesAppend(acc.sql + [Text(" AND m0.aid NOT IN (")] + s.sql, [Text(")")]);
      NotsHoles(table, falses, i + 1, Piece(acc.sql + [Text(" AND m0.aid NOT IN (")] + s.sql + [Text(")")], acc.params + s.params));
    }
  }

  lemma HoleSumLast(fs: seq<Frag>, f: Frag)
    ensures HoleSum(fs + [f]) == HoleSum(fs) + Holes(f)
  {
    HoleSumAppend(fs, [f]);
    assert [f][1..] == [];
  }

  /** The selects of one group so far come first, one more per clause. */
  lemma {:induction false} MembersPrefix(table: string, clauses: seq<seq<Val>>, j: nat, cteBeg: nat, z: nat, acc: Members)
    requires j <= |clauses| && MembersFrom(table, clauses, j, cteBeg, z, acc).Ok?
    ensures var m := MembersFrom(table, clauses, j, cteBeg, z, acc).value;
      |m.selects| == |acc.selects| + |clauses| - j && m.selects[..|acc.selects|] == acc.selects
    decreases |clauses| - j
  {
    if j < |clauses| {
      var next := MemberStep(Selected(table, clauses[j], false).value, cteBeg, z, acc);
      MembersNext(table, clauses, j, cteBeg, z, acc, Selected(table, clauses[j], false));
      MembersPrefix(table, clauses, j + 1, cteBeg, z, next);
      var m := MembersFrom(table, clauses, j, cteBeg, z, acc).value;
      assert m.selects[..|acc.selects|] == m.selects[..|next.selects|][..|acc.selects|];
    }
  }

  /** The pending NOT conditions are dropped by the first clause of the
      first expression, and kept otherwise. */
  lemma {:induction false} MembersPending(table: string, clauses: seq<seq<Val>>, j: nat, cteBeg: nat, z: nat, acc: Members)
    requires j <= |clauses| && MembersFrom(table, clauses, j, cteBeg, z, acc).Ok?
    ensures var m := MembersFrom(table, clauses, j, cteBeg, z, acc).value;
      && (j < |clauses| && z <= cteBeg ==> m.pending.sql == [])
      && (j == |clauses| || z > cteBeg ==> m.pending == acc.pending)
    decreases |clauses| - j
  {
    if j < |clauses| {
      var next := MemberStep(Selected(table, clauses[j], false).value, cteBeg, z, acc);
      MembersNext(table, clauses, j, cteBeg, z, acc, Selected(table, clauses[j], false));
      MembersPending(table, clauses, j + 1, cteBeg, z, next);
    }
  }

  /** The selects of one group, clause by clause: restricted to the last
      expression when there is one, else carrying the pending NOT
      conditions on the first. */
  lemma {:induction false} MembersShape(table: string, clauses: seq<seq<Val>>, j: nat, cteBeg: nat, z: nat, acc: Members, k: nat, m: Members)
    requires j <= k < |clauses| && MembersFrom(table, clauses, j, cteBeg, z, acc) == Ok(m)
    ensures |m.selects| == |acc.selects| + |clauses| - j
    ensures Selected(table, clauses[k], false).Ok?
    ensures m.selects[|acc.selects| + k - j] ==
      Selected(table, clauses[k], false).value.sql + Attached(cteBeg, z, if k == j then acc.pending.sql else [])
    decreases k - j
  {
    MembersPrefix(table, clauses, j, cteBeg, z, acc);
    var q := Selected(table, clauses[j], false);
    MembersNext(table, clauses, j, cteBeg, z, acc, q);
    var next := MemberStep(q.value, cteBeg, z, acc);
    if k == j {
      MembersPrefix(table, clauses, j + 1, cteBeg, z, next);
      assert m.selects[|acc.selects|] == m.selects[..|next.selects|][|acc.selects|];
    } else {
      MembersShape(table, clauses, j + 1, cteBeg, z, next, k, m);
      assert |acc.selects| + k - j == |next.selects| + k - (j + 1);
      assert k == j + 1 ==> Attached(cteBeg, z, next.pending.sql) == Attached(cteBeg, z, []);
    }
  }

  lemma {:induction false} MembersDebtKept(table: string, clauses: seq<seq<Val>>, j: nat, cteBeg: nat, z: nat, acc: Members)
    requires MembersFrom(table, clauses, j, cteBeg, z, acc).Ok?
    requires Holes(acc.pending.sql) == |acc.pending.params|
    ensures var m := MembersFrom(table, clauses, j, cteBeg, z, acc).value;
      Holes(m.pending.sql) == |m.pending.params| && MembersDebt(m) == MembersDebt(acc)
    decreases |clauses| - j
  {
    if j < |clauses| {
      var q := Selected(table, clauses[j], false);
      MembersNext(table, clauses, j, cteBeg, z, acc, q);
      SelectedHoles(table, clauses[j], false);
      MemberStepDebt(q.value, cteBeg, z, acc);
      MembersDebtKept(table, clauses, j + 1, cteBeg, z, MemberStep(q.value, cteBeg, z, acc));
    }
  }

  /** One select with as many placeholders as parameters leaves the debt
      of a group as it was. */
  lemma MemberStepDebt(s: Piece, cteBeg: nat, z: nat, acc: Members)
    requires Holes(s.sql) == |s.params| && Holes(acc.pending.sql) == |acc.pending.params|
    ensures var next := MemberStep(s, cteBeg, z, acc);
      Holes(next.pending.sql) == |next.pending.params| && MembersDebt(next) == MembersDebt(acc)
  {
    var next := MemberStep(s, cteBeg, z, acc);
    HoleSumLast(acc.selects, next.selects[|acc.selects|]);
    assert next.selects == acc.selects + [next.selects[|acc.selects|]];
    if z > cteBeg {
      HolesAppend(s.sql, Restriction(z));
      HolesNone(Restriction(z));
    } else if acc.pending.sql != [] {
      HolesAppend(s.sql, acc.pending.sql);
    }
  }

  lemma CteHoles(c: Cte)
    ensures Holes(CteFrag(c)) == HoleSum(c.members)
  {
    var head: Frag := [Text("z" + NatToString(c.num) + " AS (")];
    HolesJoinSum(c.members, [Text(" UNION ")]);
    HolesAppend(head, JoinFrags(c.members, [Text(" UNION ")]));
    HolesAppend(head + JoinFrags(c.members, [Text(" UNION ")]), [Text(")")]);
    HolesNone(head);
    HolesNone([Text(")")]);
  }

  lemma CteFragsAppend(a: seq<Cte>, b: seq<Cte>)
    ensures CteFrags(a + b) == CteFrags(a) + CteFrags(b)
  {
  }

  /** The OR phase adds one expression per group after those so far. */
  lemma {:induction false} UnionsPrefix(table: string, groups: seq<Group>, i: nat, cteBeg: nat, acc: Compiled)
    requires i <= |groups| && |acc.ctes| == i && UnionsFrom(table, groups, i, cteBeg, acc).Ok?
    ensures var c := UnionsFrom(table, groups, i, cteBeg, acc).value;
      |c.ctes| == |groups| && c.ctes[..i] == acc.ctes
    decreases |groups| - i
  {
    if i < |groups| {
      var start := Members([], acc.params, acc.pending);
      var q := MembersFrom(table, groups[i].clauses, 0, cteBeg, cteBeg + i, start);
      UnionsNext(table, groups, i, cteBeg, acc, q);
      var next := Compiled(acc.ctes + [Cte(cteBeg + i + 1, q.value.selects)], q.value.params, q.value.pending);
      UnionsPrefix(table, groups, i + 1, cteBeg, next);
      var c := UnionsFrom(table, groups, i, cteBeg, acc).value;
      assert c.ctes[..i] == c.ctes[..i + 1][..i];
    }
  }

  /** The selects of a group at `z`: one per clause, each the clause's
      select followed by the restriction to `z{z}` when `z` is past
      `cteBeg`, and otherwise the first followed by `first`. */
  predicate GroupSelects(table: string, clauses: seq<seq<Val>>, cteBeg: nat, z: nat, first: Frag, members: seq<Frag>) {
    && |members| == |clauses|
    && forall j :: 0 <= j < |clauses| ==>
         Selected(table, clauses[j], false).Ok? &&
         members[j] == Selected(table, clauses[j], false).value.sql + Attached(cteBeg, z, if j == 0 then first else [])
  }

  /** The selects of the `k`-th group of the OR phase: every select of a
      later group is kept to the expression before it; `first`, the
      pending NOT conditions, go to the first select of the first group. */
  lemma UnionsShape(table: string, groups: seq<Group>, i: nat, cteBeg: nat, acc: Compiled, first: Frag, k: nat, c: Compiled)
    requires i <= k < |groups| && |acc.ctes| == i && UnionsFrom(table, groups, i, cteBeg, acc) == Ok(c)
    requires i == 0 ==> first == acc.pending.sql
    ensures |c.ctes| == |groups| && c.ctes[k].num == cteBeg + k + 1
    ensures GroupSelects(table, groups[k].clauses, cteBeg, cteBeg + k, if k == 0 then first else [], c.ctes[k].members)
  {
    var a := UnionsSkip(table, groups, i, cteBeg, acc, k);
    UnionsShapeHere(table, groups, k, cteBeg, a, first, c);
  }

  /** The state of the OR phase once it reaches group `k`. */
  lemma {:induction false} UnionsSkip(table: string, groups: seq<Group>, i: nat, cteBeg: nat, acc: Compiled, k: nat) returns (a: Compiled)
    requires i <= k <= |groups| && |acc.ctes| == i && UnionsFrom(table, groups, i, cteBeg, acc).Ok?
    ensures |a.ctes| == k && UnionsFrom(table, groups, k, cteBeg, a) == UnionsFrom(table, groups, i, cteBeg, acc)
    ensures k == i ==> a == acc
    decreases k - i
  {
    if k == i {
      a := acc;
    } else {
      var start := Members([], acc.params, acc.pending);
      var q := MembersFrom(table, groups[i].clauses, 0, cteBeg, cteBeg + i, start);
      UnionsNext(table, groups, i, cteBeg, acc, q);
      var m := q.value;
      a := UnionsSkip(table, groups, i + 1, cteBeg, Compiled(acc.ctes + [Cte(cteBeg + i + 1, m.selects)], m.params, m.pending), k);
    }
  }

  /** The `i`-th expression of the OR phase holds the selects of group `i`. */
  lemma UnionsShapeHere(table: string, groups: seq<Group>, i: nat, cteBeg: nat, acc: Compiled, first: Frag, c: Compiled)
    requires i < |groups| && |acc.ctes| == i && UnionsFrom(table, groups, i, cteBeg, acc) == Ok(c)
    requires i == 0 ==> first == acc.pending.sql
    ensures |c.ctes| == |groups| && c.ctes[i].num == cteBeg + i + 1
    ensures GroupSelects(table, groups[i].clauses, cteBeg, cteBeg + i, if i == 0 then first else [], c.ctes[i].members)
  {
    var clauses := groups[i].clauses;
    var start := Members([], acc.params, acc.pending);
    var q := MembersFrom(table, clauses, 0, cteBeg, cteBeg + i, start);
    UnionsNext(table, groups, i, cteBeg, acc, q);
    var m := q.value;
    var next := Compiled(acc.ctes + [Cte(cteBeg + i + 1, m.selects)], m.params, m.pending);
    UnionsPrefix(table, groups, i + 1, cteBeg, next);
    assert c.ctes[i] == c.ctes[..i + 1][i];
    MembersGroup(table, clauses, cteBeg, cteBeg + i, start, if i == 0 then first else [], m);
  }

  /** The selects of one group, from the start; `first` is what goes
      after its first select while no expression exists yet. */
  lemma MembersGroup(table: string, clauses: seq<seq<Val>>, cteBeg: nat, z: nat, start: Members, first: Frag, m: Members)
    requires start.selects == [] && MembersFrom(table, clauses, 0, cteBeg, z, start) == Ok(m)
    requires z <= cteBeg ==> first == start.pending.sql
    ensures GroupSelects(table, clauses, cteBeg, z, first, m.selects)
  {
    MembersPrefix(table, clauses, 0, cteBeg, z, start);
    forall j | 0 <= j < |clauses|
      ensures Selected(table, clauses[j], false).Ok?
      ensures m.selects[j] == Selected(table, clauses[j], false).value.sql + Attached(cteBeg, z, if j == 0 then first else [])
    {
      MembersGroupAt(table, clauses, cteBeg, z, start, first, m, j);
    }
  }

  lemma MembersGroupAt(table: string, clauses: seq<seq<Val>>, cteBeg: nat, z: nat, start: Members, first: Frag, m: Members, j: nat)
    requires start.selects == [] && MembersFrom(table, clauses, 0, cteBeg, z, start) == Ok(m)
    requires z <= cteBeg ==> first == start.pending.sql
    requires j < |clauses| == |m.selects|
    ensures Selected(table, clauses[j], false).Ok?
    ensures m.selects[j] == Selected(table, clauses[j], false).value.sql + Attached(cteBeg, z, if j == 0 then first else [])
  {
    MembersShape(table, clauses, 0, cteBeg, z, start, j, m);
    if j == 0 {
      assert Attached(cteBeg, z, start.pending.sql) == Attached(cteBeg, z, first);
    }
  }

  lemma {:induction false} UnionsDebtKept(table: string, groups: seq<Group>, i: nat, cteBeg: nat, acc: Compiled)
    requires UnionsFrom(table, groups, i, cteBeg, acc).Ok?
    requires Holes(acc.pending.sql) == |acc.pending.params|
    ensures var c := UnionsFrom(table, groups, i, cteBeg, acc).value;
      Holes(c.pending.sql) == |c.pending.params| && CompiledDebt(c) == CompiledDebt(acc)
    decreases |groups| - i
  {
    if i < |groups| {
      var start := Members([], acc.params, acc.pending);
      var q := MembersFrom(table, groups[i].clauses, 0, cteBeg, cteBeg + i, start);
      UnionsNext(table, groups, i, cteBeg, acc, q);
      MembersDebtKept(table, groups[i].clauses, 0, cteBeg, cteBeg + i, start);
      CteDebt(acc, q.value, cteBeg + i + 1);
      UnionsDebtKept(table, groups, i + 1, cteBeg, Compiled(acc.ctes + [Cte(cteBeg + i + 1, q.value.selects)], q.value.params, q.value.pending));
    }
  }

  /** Closing a group into an expression keeps the debt. */
  lemma CteDebt(acc: Compiled, m: Members, num: nat)
    requires MembersDebt(m) == MembersDebt(Members([], acc.params, acc.pending))
    ensures CompiledDebt(Compiled(acc.ctes + [Cte(num, m.selects)], m.params, m.pending)) == CompiledDebt(acc)
  {
    var cte := Cte(num, m.selects);
    var next := Compiled(acc.ctes + [cte], m.params, m.pending);
    assert MembersDebt(Members([], acc.params, acc.pending)) == |acc.params| + |acc.pending.params| - Holes(acc.pending.sql);
    CteFragsAppend(acc.ctes, [cte]);
    assert CteFrags([cte]) == [CteFrag(cte)];
    HoleSumLast(CteFrags(acc.ctes), CteFrag(cte));
    CteHoles(cte);
    assert HoleSum(CteFrags(next.ctes)) == HoleSum(CteFrags(acc.ctes)) + HoleSum(m.selects);
  }

  function GetRestriction(z: nat): Frag {
    [Text(" AND a0 IN (SELECT a0 FROM z" + NatToString(z) + ")")]
  }

  /** The GET selects, clause by clause, each kept to `z{z}`. */
  lemma {:induction false} GetsPrefix(table: string, gets: seq<seq<Val>>, i: nat, z: nat, acc: Selects)
    requires i <= |gets| && GetsFrom(table, gets, i, z, acc).Ok?
    ensures var r := GetsFrom(table, gets, i, z, acc).value;
      |r.sqls| == |acc.sqls| + |gets| - i && r.sqls[..|acc.sqls|] == acc.sqls
    decreases |gets| - i
  {
    if i < |gets| {
      var q := Selected(table, gets[i], false);
      GetsNext(table, gets, i, z, acc, q);
      var next := Selects(acc.sqls + [q.value.sql + GetRestriction(z)], acc.params + q.value.params);
      GetsPrefix(table, gets, i + 1, z, next);
      var r := GetsFrom(table, gets, i, z, acc).value;
      assert r.sqls[..|acc.sqls|] == r.sqls[..|next.sqls|][..|acc.sqls|];
    }
  }

  lemma {:induction false} GetsShape(table: string, gets: seq<seq<Val>>, i: nat, z: nat, acc: Selects, k: nat, r: Selects)
    requires i <= k < |gets| && GetsFrom(table, gets, i, z, acc) == Ok(r)
    ensures |r.sqls| == |acc.sqls| + |gets| - i
    ensures Selected(table, gets[k], false).Ok?
    ensures r.sqls[|acc.sqls| + k - i] == Selected(table, gets[k], false).value.sql + GetRestriction(z)
    decreases k - i
  {
    GetsPrefix(table, gets, i, z, acc);
    var q := Selected(table, gets[i], false);
    GetsNext(table, gets, i, z, acc, q);
    var next := Selects(acc.sqls + [q.value.sql + GetRestriction(z)], acc.params + q.value.params);
    if k == i {
      GetsPrefix(table, gets, i + 1, z, next);
      assert r.sqls[|acc.sqls|] == r.sqls[..|next.sqls|][|acc.sqls|];
    } else {
      GetsShape(table, gets, i + 1, z, next, k, r);
      assert |acc.sqls| + k - i == |next.sqls| + k - (i + 1);
    }
  }

  /** The GET selects add one placeholder per parameter they add. */
  lemma {:induction false} GetsHoles(table: string, gets: seq<seq<Val>>, i: nat, z: nat, acc: Selects)
    requires GetsFrom(table, gets, i, z, acc).Ok?
    ensures var r := GetsFrom(table, gets, i, z, acc).value;
      |r.params| - HoleSum(r.sqls) == |acc.params| - HoleSum(acc.sqls)
    decreases |gets| - i
  {
    if i < |gets| {
      var s := Selected(table, gets[i], false).value;
      SelectedHoles(table, gets[i], false);
      HolesAppend(s.sql, GetRestriction(z));
      HolesNone(GetRestriction(z));
      HoleSumLast(acc.sqls, s.sql + GetRestriction(z));
      var next := Selects(acc.sqls + [s.sql + GetRestriction(z)], acc.params + s.params);
      GetsNext(table, gets, i, z, acc, Selected(table, gets[i], false));
      GetsHoles(table, gets, i + 1, z, next);
    }
  }

  lemma {:induction false} OutputsHoles(cteBeg: nat, z: nat)
    requires cteBeg <= z
    ensures HoleSum(Outputs(cteBeg, z)) == 0
    decreases z - cteBeg
  {
    if cteBeg < z {
      assert Outputs(cteBeg, z) == [Output(cteBeg + 1, z)] + Outputs(cteBeg + 1, z);
      OutputsHoles(cteBeg + 1, z);
      HoleSumAppend([Output(cteBeg + 1, z)], Outputs(cteBeg + 1, z));
      HolesNone(Output(cteBeg + 1, z));
      assert [Output(cteBeg + 1, z)][1..] == [];
    }
  }

  /** The expressions of a statement: one per OR group, numbered on from
      `cteBeg`, with one select per clause; every select of a later group
      is kept to the anchors of the expression before it, and the NOT
      conditions are attached once, to the first select of the first
      group. */
  lemma SubqueryCtes(table: string, tokens: seq<Val>, cteBeg: nat)
    requires Subquery(table, tokens, cteBeg).Ok?
    ensures Grouped(tokens).Ok? && NotsFrom(table, Grouped(tokens).value.falses, 0, Piece([], [])).Ok?
    ensures var g := Grouped(tokens).value; var s := Subquery(table, tokens, cteBeg).value;
      var nots := NotsFrom(table, g.falses, 0, Piece([], [])).value;
      && |s.ctes| == |g.trues|
      && (forall k :: 0 <= k < |s.ctes| ==>
            && s.ctes[k].num == cteBeg + k + 1
            && GroupSelects(table, g.trues[k].clauses, cteBeg, cteBeg + k, if k == 0 then nots.sql else [], s.ctes[k].members))
  {
    var g := Grouped(tokens).value;
    var nots := NotsFrom(table, g.falses, 0, Piece([], [])).value;
    var c := UnionsFrom(table, g.trues, 0, cteBeg, Compiled([], [], nots)).value;
    UnionsPrefix(table, g.trues, 0, cteBeg, Compiled([], [], nots));
    forall k | 0 <= k < |g.trues|
      ensures c.ctes[k].num == cteBeg + k + 1
      ensures GroupSelects(table, g.trues[k].clauses, cteBeg, cteBeg + k, if k == 0 then nots.sql else [], c.ctes[k].members)
    {
      UnionsShape(table, g.trues, 0, cteBeg, Compiled([], [], nots), nots.sql, k, c);
    }
  }

  /** The GET selects: one per GET clause, each the clause's select kept
      to the anchors of `z{z}`. */
  predicate GetSelects(table: string, gets: seq<seq<Val>>, z: nat, sels: seq<Frag>) {
    && |sels| == |gets|
    && forall k :: 0 <= k < |gets| ==>
         Selected(table, gets[k], false).Ok? && sels[k] == Selected(table, gets[k], false).value.sql + GetRestriction(z)
  }

  lemma GetsLayout(table: string, gets: seq<seq<Val>>, z: nat, params: seq<Val>)
    requires GetsFrom(table, gets, 0, z, Selects([], params)).Ok?
    ensures GetSelects(table, gets, z, GetsFrom(table, gets, 0, z, Selects([], params)).value.sqls)
  {
    var r := GetsFrom(table, gets, 0, z, Selects([], params)).value;
    GetsPrefix(table, gets, 0, z, Selects([], params));
    forall k | 0 <= k < |gets|
      ensures Selected(table, gets[k], false).Ok? && r.sqls[k] == Selected(table, gets[k], false).value.sql + GetRestriction(z)
    {
      GetsShape(table, gets, 0, z, Selects([], params), k, r);
    }
  }

  /** The selects of a statement: one per GET clause, kept to the anchors
      of the last expression, then one output per expression. */
  lemma SubquerySelects(table: string, tokens: seq<Val>, cteBeg: nat)
    requires Subquery(table, tokens, cteBeg).Ok?
    ensures Grouped(tokens).Ok?
    ensures var g := Grouped(tokens).value; var s := Subquery(table, tokens, cteBeg).value;
      var z := cteBeg + |g.trues|;
      && |s.selects| == |g.gets| + |g.trues|
      && GetSelects(table, g.gets, z, s.selects[..|g.gets|])
      && s.selects[|g.gets|..] == Outputs(cteBeg, z)
  {
    var g := Grouped(tokens).value;
    var nots := NotsFrom(table, g.falses, 0, Piece([], [])).value;
    var c := UnionsFrom(table, g.trues, 0, cteBeg, Compiled([], [], nots)).value;
    var z := cteBeg + |g.trues|;
    GetsLayout(table, g.gets, z, []);
    var gs := GetsFrom(table, g.gets, 0, z, Selects([], [])).value;
    assert Subquery(table, tokens, cteBeg) == Composed(table, g, cteBeg, c);
    assert Composed(table, g, cteBeg, c) == Ok(Sub(c.ctes, gs.sqls + Outputs(cteBeg, z), c.params, gs.params));
    var sels := gs.sqls + Outputs(cteBeg, z);
    assert sels[..|g.gets|] == gs.sqls;
    assert sels[|g.gets|..] == Outputs(cteBeg, z);
  }

  /** A statement's text holds one placeholder per parameter: its
      expressions one per expression parameter, its selects one per GET
      parameter. */
  lemma SubqueryHoles(table: string, tokens: seq<Val>, cteBeg: nat)
    requires Subquery(table, tokens, cteBeg).Ok?
    ensures var s := Subquery(table, tokens, cteBeg).value;
      && HoleSum(CteFrags(s.ctes)) == |s.exprParams|
      && HoleSum(s.selects) == |s.getParams|
      && HoleSum(CteFrags(s.ctes)) + HoleSum(s.selects) == |s.params|
  {
    var g := Grouped(tokens).value;
    NotsHoles(table, g.falses, 0, Piece([], []));
    var nots := NotsFrom(table, g.falses, 0, Piece([], [])).value;
    UnionsDebtKept(table, g.trues, 0, cteBeg, Compiled([], [], nots));
    var c := UnionsFrom(table, g.trues, 0, cteBeg, Compiled([], [], nots)).value;
    var z := cteBeg + |g.trues|;
    GetsHoles(table, g.gets, 0, z, Selects([], []));
    var gs := GetsFrom(table, g.gets, 0, z, Selects([], [])).value;
    assert Subquery(table, tokens, cteBeg) == Composed(table, g, cteBeg, c);
    assert Composed(table, g, cteBeg, c) == Ok(Sub(c.ctes, gs.sqls + Outputs(cteBeg, z), c.params, gs.params));
    OutputsHoles(cteBeg, z);
    HoleSumAppend(gs.sqls, Outputs(cteBeg, z));
  }

  /** The expressions are `z1`, `z2`, ... in order. */
  predicate Numbered(ctes: seq<Cte>) {
    forall i :: 0 <= i < |ctes| ==> ctes[i].num == i + 1
  }

  lemma {:induction false} StatementsKeep(table: string, tokens: seq<Val>, beg: nat, acc: Sub)
    requires Numbered(acc.ctes) && HoleSum(CteFrags(acc.ctes)) == |acc.exprParams| && HoleSum(acc.selects) == |acc.getParams|
    requires StatementsFrom(table, tokens, beg, acc).Ok?
    ensures var s := StatementsFrom(table, tokens, beg, acc).value;
      Numbered(s.ctes) && HoleSum(CteFrags(s.ctes)) == |s.exprParams| && HoleSum(s.selects) == |s.getParams|
    decreases |tokens| - beg
  {
    var end := Next(tokens, beg).value;
    if end > 0 {
      var stmt := tokens[beg..end];
      var sub := Subquery(table, stmt, |acc.ctes|).value;
      SubqueryCtes(table, stmt, |acc.ctes|);
      SubqueryHoles(table, stmt, |acc.ctes|);
      CteFragsAppend(acc.ctes, sub.ctes);
      HoleSumAppend(CteFrags(acc.ctes), CteFrags(sub.ctes));
      HoleSumAppend(acc.selects, sub.selects);
      var next := Extend(acc, sub);
      assert Numbered(next.ctes);
      StatementsKeep(table, tokens, end, next);
    }
  }

  /** The `WITH` list holds the placeholders of the expressions, the
      outer select those of the selects. */
  lemma WithFragHoles(ctes: seq<Cte>, selects: seq<Frag>)
    ensures Holes(WithPart(ctes)) == HoleSum(CteFrags(ctes))
    ensures Holes(SelectPart(selects)) == HoleSum(selects)
    ensures Holes(WithFrag(ctes, selects)) == HoleSum(CteFrags(ctes)) + HoleSum(selects)
  {
    var a: Frag := [Text("WITH ")];
    var b := JoinFrags(CteFrags(ctes), [Text(", ")]);
    var c: Frag := [Text(" SELECT string_agg(arbeq, ' ') AS arbeq FROM (")];
    var d := JoinFrags(selects, [Text(" UNION ")]);
    var e: Frag := [Text(")")];
    HolesJoinSum(CteFrags(ctes), [Text(", ")]);
    HolesJoinSum(selects, [Text(" UNION ")]);
    HolesNone(a);
    HolesNone(c);
    HolesNone(e);
    HolesAppend(a, b);
    HolesAppend(c, d);
    HolesAppend(c + d, e);
    HolesAppend(a + b, c + d + e);
  }

  /** `querify`: the expressions of all statements are numbered `z1`,
      `z2`, ... in order, each statement going on from the ones before;
      the `WITH` list holds one `%s` per expression parameter and the
      outer select one per select parameter, so with the expression
      parameters first the query text holds one `%s` per parameter. */
  lemma QuerifyShape(table: string, tokens: seq<Val>)
    requires Queried(table, tokens).Ok?
    ensures StatementsFrom(table, tokens, 2, Sub([], [], [], [])).Ok?
    ensures var s := StatementsFrom(table, tokens, 2, Sub([], [], [], [])).value;
      && Numbered(s.ctes)
      && Holes(WithPart(s.ctes)) == |s.exprParams|
      && Holes(SelectPart(s.selects)) == |s.getParams|
      && Holes(WithFrag(s.ctes, s.selects)) == |s.params|
      && Queried(table, tokens) == Ok(Query(Render(WithPart(s.ctes) + SelectPart(s.selects)), s.exprParams + s.getParams))
  {
    StatementsKeep(table, tokens, 2, Sub([], [], [], []));
    var s := StatementsFrom(table, tokens, 2, Sub([], [], [], [])).value;
    WithFragHoles(s.ctes, s.selects);
  }

  // ---------------------------------------------------------------------
  // The order of the parameters
  // ---------------------------------------------------------------------

  /** The parameters of the selects of `clauses`, in order. */
  function ClauseParams(table: string, clauses: seq<seq<Val>>, aidOnly: bool): seq<Val> {
    if clauses == [] then []
    else match Selected(table, clauses[0], aidOnly)
      case Ok(s) => s.params + ClauseParams(table, clauses[1..], aidOnly)
      case Err(_) => []
  }

  /** The parameters of the selects of every OR group, in order. */
  function GroupsParams(table: string, groups: seq<Group>): seq<Val> {
    if groups == [] then [] else ClauseParams(table, groups[0].clauses, false) + GroupsParams(table, groups[1..])
  }

  /** The parameters of the first OR group in text order: those of the
      NOT conditions come right after those of its first select, which
      carries the conditions. */
  function FirstParams(table: string, clauses: seq<seq<Val>>, notParams: seq<Val>): seq<Val> {
    if clauses != [] && Selected(table, clauses[0], false).Ok? then
      Selected(table, clauses[0], false).value.params + notParams + ClauseParams(table, clauses[1..], false)
    else ClauseParams(table, clauses, false)
  }

  /** The parameters of the expressions in text order. */
  function ExprParams(table: string, trues: seq<Group>, notParams: seq<Val>): seq<Val> {
    if trues == [] then [] else FirstParams(table, trues[0].clauses, notParams) + GroupsParams(table, trues[1..])
  }

  /** The parameters of the expressions of one statement, in the order
      of their placeholders. */
  function StatementExprParams(table: string, stmt: seq<Val>): seq<Val> {
    match Grouped(stmt)
    case Err(_) => []
    case Ok(g) => ExprParams(table, g.trues, ClauseParams(table, g.falses, true))
  }

  /** The parameters of the GET selects of one statement, in order. */
  function StatementGetParams(table: string, stmt: seq<Val>): seq<Val> {
    match Grouped(stmt)
    case Err(_) => []
    case Ok(g) => ClauseParams(table, g.gets, false)
  }

  /** The parameters of one statement in the order of its placeholders:
      the expressions, then the GET selects; the outputs have none. */
  function StatementParams(table: string, stmt: seq<Val>): seq<Val> {
    StatementExprParams(table, stmt) + StatementGetParams(table, stmt)
  }

  /** The statements from `beg` on, as `nxt` cuts them. */
  function StatementsAt(tokens: seq<Val>, beg: nat): seq<seq<Val>>
    decreases |tokens| - beg
  {
    match Next(tokens, beg)
    case Err(_) => []
    case Ok(end) => if end <= 0 then [] else [tokens[beg..end]] + StatementsAt(tokens, end)
  }

  /** The parameters of `stmts`, statement after statement. */
  function AllParams(table: string, stmts: seq<seq<Val>>): seq<Val> {
    if stmts == [] then [] else StatementParams(table, stmts[0]) + AllParams(table, stmts[1..])
  }

  /** The parameters of the expressions of `stmts`, in the order of the
      `WITH` list. */
  function AllExprParams(table: string, stmts: seq<seq<Val>>): seq<Val> {
    if stmts == [] then [] else StatementExprParams(table, stmts[0]) + AllExprParams(table, stmts[1..])
  }

  /** The parameters of the GET selects of `stmts`, in the order of the
      outer select. */
  function AllGetParams(table: string, stmts: seq<seq<Val>>): seq<Val> {
    if stmts == [] then [] else StatementGetParams(table, stmts[0]) + AllGetParams(table, stmts[1..])
  }

  lemma {:induction false} NotsParams(table: string, falses: seq<seq<Val>>, i: nat, acc: Piece)
    requires i <= |falses| && NotsFrom(table, falses, i, acc).Ok?
    ensures var r := NotsFrom(table, falses, i, acc).value;
      && r.params == acc.params + ClauseParams(table, falses[i..], true)
      && |r.sql| >= |acc.sql| + |falses| - i
    decreases |falses| - i
  {
    if i < |falses| {
      var s := Selected(table, falses[i], true).value;
      assert falses[i..][1..] == falses[i + 1..];
      NotsParams(table, falses, i + 1, Piece(acc.sql + [Text(" AND m0.aid NOT IN (")] + s.sql + [Text(")")], acc.params + s.params));
    } else {
      assert falses[i..] == [];
    }
  }

  lemma {:induction false} GetsParams(table: string, gets: seq<seq<Val>>, i: nat, z: nat, acc: Selects)
    requires i <= |gets| && GetsFrom(table, gets, i, z, acc).Ok?
    ensures GetsFrom(table, gets, i, z, acc).value.params == acc.params + ClauseParams(table, gets[i..], false)
    decreases |gets| - i
  {
    if i < |gets| {
      var q := Selected(table, gets[i], false);
      GetsNext(table, gets, i, z, acc, q);
      assert gets[i..][1..] == gets[i + 1..];
      GetsParams(table, gets, i + 1, z, Selects(acc.sqls + [q.value.sql + GetRestriction(z)], acc.params + q.value.params));
    } else {
      assert gets[i..] == [];
    }
  }

  lemma MemberStepParams(s: Piece, cteBeg: nat, z: nat, acc: Members)
    requires z > cteBeg || acc.pending.sql == []
    ensures MemberStep(s, cteBeg, z, acc).params == acc.params + s.params
    ensures z > cteBeg || MemberStep(s, cteBeg, z, acc).pending.sql == []
  {
  }

  /** Once the NOT conditions are attached, or when there are none to
      attach, a group adds the parameters of its selects in order. */
  lemma {:induction false} MembersParams(table: string, clauses: seq<seq<Val>>, j: nat, cteBeg: nat, z: nat, acc: Members)
    requires j <= |clauses| && MembersFrom(table, clauses, j, cteBeg, z, acc).Ok?
    requires z > cteBeg || acc.pending.sql == []
    ensures MembersFrom(table, clauses, j, cteBeg, z, acc).value.params == acc.params + ClauseParams(table, clauses[j..], false)
    decreases |clauses| - j
  {
    if j < |clauses| {
      var q := Selected(table, clauses[j], false);
      MembersNext(table, clauses, j, cteBeg, z, acc, q);
      MemberStepParams(q.value, cteBeg, z, acc);
      assert clauses[j..][1..] == clauses[j + 1..];
      MembersParams(table, clauses, j + 1, cteBeg, z, MemberStep(q.value, cteBeg, z, acc));
    } else {
      assert clauses[j..] == [];
    }
  }

  /** The groups after the first add the parameters of their selects in
      order. */
  lemma {:induction false} UnionsParams(table: string, groups: seq<Group>, i: nat, cteBeg: nat, acc: Compiled)
    requires 0 < i <= |groups| && UnionsFrom(table, groups, i, cteBeg, acc).Ok?
    ensures UnionsFrom(table, groups, i, cteBeg, acc).value.params == acc.params + GroupsParams(table, groups[i..])
    decreases |groups| - i
  {
    if i < |groups| {
      var q := MembersFrom(table, groups[i].clauses, 0, cteBeg, cteBeg + i, Members([], acc.params, acc.pending));
      UnionsNext(table, groups, i, cteBeg, acc, q);
      MembersParams(table, groups[i].clauses, 0, cteBeg, cteBeg + i, Members([], acc.params, acc.pending));
      assert groups[i].clauses[0..] == groups[i].clauses;
      assert groups[i..][1..] == groups[i + 1..];
      UnionsParams(table, groups, i + 1, cteBeg, Compiled(acc.ctes + [Cte(cteBeg + i + 1, q.value.selects)], q.value.params, q.value.pending));
    } else {
      assert groups[i..] == [];
    }
  }

  /** The first group: the NOT parameters follow those of its first
      select, provided there are NOT conditions. */
  lemma FirstGroupParams(table: string, clauses: seq<seq<Val>>, cteBeg: nat, params: seq<Val>, nots: Piece)
    requires MembersFrom(table, clauses, 0, cteBeg, cteBeg, Members([], params, nots)).Ok?
    requires nots.sql != [] || nots.params == []
    ensures MembersFrom(table, clauses, 0, cteBeg, cteBeg, Members([], params, nots)).value.params
      == params + FirstParams(table, clauses, nots.params)
  {
    var acc := Members([], params, nots);
    if clauses != [] {
      var q := Selected(table, clauses[0], false);
      MembersNext(table, clauses, 0, cteBeg, cteBeg, acc, q);
      var next := MemberStep(q.value, cteBeg, cteBeg, acc);
      MembersParams(table, clauses, 1, cteBeg, cteBeg, next);
      assert next.params == params + q.value.params + nots.params;
    }
  }

  /** The first group, then the others. */
  lemma UnionsHead(table: string, trues: seq<Group>, cteBeg: nat, acc: Compiled)
    requires trues != [] && UnionsFrom(table, trues, 0, cteBeg, acc).Ok?
    ensures MembersFrom(table, trues[0].clauses, 0, cteBeg, cteBeg, Members([], acc.params, acc.pending)).Ok?
    ensures UnionsFrom(table, trues, 0, cteBeg, acc).value.params
      == MembersFrom(table, trues[0].clauses, 0, cteBeg, cteBeg, Members([], acc.params, acc.pending)).value.params
         + GroupsParams(table, trues[1..])
  {
    var q := MembersFrom(table, trues[0].clauses, 0, cteBeg, cteBeg, Members([], acc.params, acc.pending));
    UnionsNext(table, trues, 0, cteBeg, acc, q);
    UnionsParams(table, trues, 1, cteBeg, Compiled(acc.ctes + [Cte(cteBeg + 1, q.value.selects)], q.value.params, q.value.pending));
  }

  lemma UnionsFirstParams(table: string, trues: seq<Group>, cteBeg: nat, nots: Piece)
    requires UnionsFrom(table, trues, 0, cteBeg, Compiled([], [], nots)).Ok?
    requires nots.sql != [] || nots.params == []
    ensures UnionsFrom(table, trues, 0, cteBeg, Compiled([], [], nots)).value.params == ExprParams(table, trues, nots.params)
  {
    if trues != [] {
      UnionsHead(table, trues, cteBeg, Compiled([], [], nots));
      FirstGroupParams(table, trues[0].clauses, cteBeg, [], nots);
    }
  }

  /** The parameters of a statement are those of the selects of its
      expressions, then of its GET selects, in the order of their
      placeholders; the NOT parameters follow those of the first select
      of the first group, whatever the numbering of the expressions. */
  lemma SubqueryParams(table: string, tokens: seq<Val>, cteBeg: nat)
    requires Subquery(table, tokens, cteBeg).Ok?
    ensures Grouped(tokens).Ok? && NotsFrom(table, Grouped(tokens).value.falses, 0, Piece([], [])).Ok?
    ensures var g := Grouped(tokens).value;
      NotsFrom(table, g.falses, 0, Piece([], [])).value.params == ClauseParams(table, g.falses, true)
    ensures var g := Grouped(tokens).value; var s := Subquery(table, tokens, cteBeg).value;
      && s.exprParams == ExprParams(table, g.trues, ClauseParams(table, g.falses, true))
      && s.getParams == ClauseParams(table, g.gets, false)
    ensures Subquery(table, tokens, cteBeg).value.exprParams == StatementExprParams(table, tokens)
    ensures Subquery(table, tokens, cteBeg).value.getParams == StatementGetParams(table, tokens)
    ensures Subquery(table, tokens, cteBeg).value.params == StatementParams(table, tokens)
  {
    var g := Grouped(tokens).value;
    var nots := NotsFrom(table, g.falses, 0, Piece([], [])).value;
    NotsParams(table, g.falses, 0, Piece([], []));
    assert g.falses[0..] == g.falses;
    assert nots.sql == [] ==> nots.params == [];
    var c := UnionsFrom(table, g.trues, 0, cteBeg, Compiled([], [], nots)).value;
    var z := cteBeg + |g.trues|;
    var gs := GetsFrom(table, g.gets, 0, z, Selects([], [])).value;
    GetsParams(table, g.gets, 0, z, Selects([], []));
    assert g.gets[0..] == g.gets;
    assert Subquery(table, tokens, cteBeg) == Composed(table, g, cteBeg, c);
    assert Composed(table, g, cteBeg, c) == Ok(Sub(c.ctes, gs.sqls + Outputs(cteBeg, z), c.params, gs.params));
    UnionsFirstParams(table, g.trues, cteBeg, nots);
  }

  lemma StatementsAtNext(tokens: seq<Val>, beg: nat, end: nat)
    requires Next(tokens, beg) == Ok(end) && end > 0
    ensures StatementsAt(tokens, beg) == [tokens[beg..end]] + StatementsAt(tokens, end)
    ensures StatementsAt(tokens, beg)[0] == tokens[beg..end] && StatementsAt(tokens, beg)[1..] == StatementsAt(tokens, end)
  {
    var rest := StatementsAt(tokens, end);
    assert ([tokens[beg..end]] + rest)[1..] == rest;
  }

  /** One statement of the loop, or its end, with the parameters it
      contributes. */
  lemma StatementStep(table: string, tokens: seq<Val>, beg: nat, acc: Sub) returns (end: int, sub: Sub)
    requires StatementsFrom(table, tokens, beg, acc).Ok?
    ensures end <= 0 ==> StatementsFrom(table, tokens, beg, acc) == Ok(acc) && StatementsAt(tokens, beg) == []
    ensures end > 0 ==> beg < end <= |tokens|
    ensures end > 0 ==> StatementsFrom(table, tokens, beg, acc) == StatementsFrom(table, tokens, end, Extend(acc, sub))
    ensures end > 0 ==>
      AllExprParams(table, StatementsAt(tokens, beg)) == sub.exprParams + AllExprParams(table, StatementsAt(tokens, end))
    ensures end > 0 ==>
      AllGetParams(table, StatementsAt(tokens, beg)) == sub.getParams + AllGetParams(table, StatementsAt(tokens, end))
  {
    StatementsNext(table, tokens, beg, acc, Listed(acc.ctes, [], []));
    end := Next(tokens, beg).value;
    if end > 0 {
      sub := Subquery(table, tokens[beg..end], |acc.ctes|).value;
      SubqueryParams(table, tokens[beg..end], |acc.ctes|);
      StatementsAtNext(tokens, beg, end);
    } else {
      sub := acc;
    }
  }

  /** `x + (y + z)` is `(x + y) + z`. */
  lemma Regroup(x: seq<Val>, y: seq<Val>, z: seq<Val>)
    ensures x + (y + z) == (x + y) + z
  {
  }

  /** The loop gathers the expression parameters of each statement,
      statement after statement. */
  lemma {:induction false} StatementsExprParams(table: string, tokens: seq<Val>, beg: nat, acc: Sub, r: Sub)
    requires StatementsFrom(table, tokens, beg, acc) == Ok(r)
    ensures r.exprParams == acc.exprParams + AllExprParams(table, StatementsAt(tokens, beg))
    decreases |tokens| - beg
  {
    var end, sub := StatementStep(table, tokens, beg, acc);
    if end > 0 {
      StatementsExprParams(table, tokens, end, Extend(acc, sub), r);
      Regroup(acc.exprParams, sub.exprParams, AllExprParams(table, StatementsAt(tokens, end)));
    }
  }

  /** The loop gathers the select parameters of each statement,
      statement after statement. */
  lemma {:induction false} StatementsGetParams(table: string, tokens: seq<Val>, beg: nat, acc: Sub, r: Sub)
    requires StatementsFrom(table, tokens, beg, acc) == Ok(r)
    ensures r.getParams == acc.getParams + AllGetParams(table, StatementsAt(tokens, beg))
    decreases |tokens| - beg
  {
    var end, sub := StatementStep(table, tokens, beg, acc);
    if end > 0 {
      StatementsGetParams(table, tokens, end, Extend(acc, sub), r);
      Regroup(acc.getParams, sub.getParams, AllGetParams(table, StatementsAt(tokens, end)));
    }
  }

  /** `querify`: the parameters are those of every expression, statement
      after statement and each in the order of its placeholders, then
      those of every select, in the same way; together with
      `QuerifyShape`, the k-th parameter is the one of the k-th `%s`. */
  lemma QuerifyParams(table: string, tokens: seq<Val>)
    requires Queried(table, tokens).Ok?
    ensures Queried(table, tokens).value.params
      == AllExprParams(table, StatementsAt(tokens, 2)) + AllGetParams(table, StatementsAt(tokens, 2))
  {
    var start := Sub([], [], [], []);
    var s := StatementsFrom(table, tokens, 2, start).value;
    StatementsExprParams(table, tokens, 2, start, s);
    StatementsGetParams(table, tokens, 2, start, s);
    assert s.exprParams == AllExprParams(table, StatementsAt(tokens, 2));
    assert s.getParams == AllGetParams(table, StatementsAt(tokens, 2));
    assert Queried(table, tokens).value.params == s.exprParams + s.getParams;
  }

  // ---------------------------------------------------------------------
  // The parameter list as written
  // ---------------------------------------------------------------------

  /** The loop as written builds the same expressions and selects, and
      appends each statement's whole parameter list in turn. */
  lemma {:induction false} StatementsAsWrittenParams(table: string, tokens: seq<Val>, beg: nat, acc: Listed, fixed: Sub)
    requires acc.ctes == fixed.ctes && acc.selects == fixed.selects
    requires StatementsAsWritten(table, tokens, beg, acc).Ok?
    ensures StatementsFrom(table, tokens, beg, fixed).Ok?
    ensures var w := StatementsAsWritten(table, tokens, beg, acc).value; var s := StatementsFrom(table, tokens, beg, fixed).value;
      && w.ctes == s.ctes && w.selects == s.selects
      && w.params == acc.params + AllParams(table, StatementsAt(tokens, beg))
    decreases |tokens| - beg
  {
    StatementsNext(table, tokens, beg, fixed, acc);
    var end := Next(tokens, beg).value;
    if end > 0 {
      var stmt := tokens[beg..end];
      var sub := Subquery(table, stmt, |acc.ctes|).value;
      SubqueryParams(table, stmt, |acc.ctes|);
      StatementsAtNext(tokens, beg, end);
      StatementsAsWrittenParams(table, tokens, end, Listed(acc.ctes + sub.ctes, acc.selects + sub.selects, acc.params + sub.params),
                                Extend(fixed, sub));
    }
  }

  /** `querify` as written gives the same text as `Queried` and the
      parameters of each statement in turn, a statement's GET parameters
      before the expression parameters of the next one. */
  lemma QuerifyAsWrittenParams(table: string, tokens: seq<Val>)
    requires QueriedAsWritten(table, tokens).Ok?
    ensures Queried(table, tokens).Ok?
    ensures QueriedAsWritten(table, tokens).value.sql == Queried(table, tokens).value.sql
    ensures QueriedAsWritten(table, tokens).value.params == AllParams(table, StatementsAt(tokens, 2))
  {
    StatementsAsWrittenParams(table, tokens, 2, Listed([], [], []), Sub([], [], [], []));
  }

  // ---------------------------------------------------------------------
  // When a statement compiles
  // ---------------------------------------------------------------------

  /** Every clause of `clauses` compiles to a select. */
  predicate Compiles(table: string, clauses: seq<seq<Val>>, aidOnly: bool) {
    forall k :: 0 <= k < |clauses| ==> Selected(table, clauses[k], aidOnly).Ok?
  }

  lemma {:induction false} NotsOk(table: string, falses: seq<seq<Val>>, i: nat, acc: Piece)
    requires i <= |falses| && Compiles(table, falses, true)
    ensures NotsFrom(table, falses, i, acc).Ok?
    decreases |falses| - i
  {
    if i < |falses| {
      var s := Selected(table, falses[i], true).value;
      NotsOk(table, falses, i + 1, Piece(acc.sql + [Text(" AND m0.aid NOT IN (")] + s.sql + [Text(")")], acc.params + s.params));
    }
  }

  lemma {:induction false} MembersOk(table: string, clauses: seq<seq<Val>>, j: nat, cteBeg: nat, z: nat, acc: Members)
    requires j <= |clauses| && Compiles(table, clauses, false)
    ensures MembersFrom(table, clauses, j, cteBeg, z, acc).Ok?
    decreases |clauses| - j
  {
    if j < |clauses| {
      var q := Selected(table, clauses[j], false);
      MembersNext(table, clauses, j, cteBeg, z, acc, q);
      MembersOk(table, clauses, j + 1, cteBeg, z, MemberStep(q.value, cteBeg, z, acc));
    }
  }

  lemma {:induction false} UnionsOk(table: string, groups: seq<Group>, i: nat, cteBeg: nat, acc: Compiled)
    requires i <= |groups| && forall k :: 0 <= k < |groups| ==> Compiles(table, groups[k].clauses, false)
    ensures UnionsFrom(table, groups, i, cteBeg, acc).Ok?
    decreases |groups| - i
  {
    if i < |groups| {
      var start := Members([], acc.params, acc.pending);
      MembersOk(table, groups[i].clauses, 0, cteBeg, cteBeg + i, start);
      var q := MembersFrom(table, groups[i].clauses, 0, cteBeg, cteBeg + i, start);
      UnionsNext(table, groups, i, cteBeg, acc, q);
      UnionsOk(table, groups, i + 1, cteBeg, Compiled(acc.ctes + [Cte(cteBeg + i + 1, q.value.selects)], q.value.params, q.value.pending));
    }
  }

  lemma {:induction false} GetsOk(table: string, gets: seq<seq<Val>>, i: nat, z: nat, acc: Selects)
    requires i <= |gets| && Compiles(table, gets, false)
    ensures GetsFrom(table, gets, i, z, acc).Ok?
    decreases |gets| - i
  {
    if i < |gets| {
      var q := Selected(table, gets[i], false);
      GetsNext(table, gets, i, z, acc, q);
      GetsOk(table, gets, i + 1, z, Selects(acc.sqls + [q.value.sql + GetRestriction(z)], acc.params + q.value.params));
    }
  }

  /** `subquerify` succeeds when the grouping does, no query marker asks
      for `all`, NOT clauses come with an OR group, and every clause
      compiles to a select. */
  lemma SubqueryOk(table: string, tokens: seq<Val>, cteBeg: nat)
    requires Grouped(tokens).Ok?
    requires var g := Grouped(tokens).value;
      && !g.qryAll && (g.falses != [] ==> g.trues != [])
      && Compiles(table, g.falses, true) && Compiles(table, g.gets, false)
      && forall k :: 0 <= k < |g.trues| ==> Compiles(table, g.trues[k].clauses, false)
    ensures Subquery(table, tokens, cteBeg).Ok?
  {
    var g := Grouped(tokens).value;
    NotsOk(table, g.falses, 0, Piece([], []));
    var nots := NotsFrom(table, g.falses, 0, Piece([], [])).value;
    UnionsOk(table, g.trues, 0, cteBeg, Compiled([], [], nots));
    var c := UnionsFrom(table, g.trues, 0, cteBeg, Compiled([], [], nots)).value;
    GetsOk(table, g.gets, 0, cteBeg + |g.trues|, Selects([], []));
    assert Subquery(table, tokens, cteBeg) == Composed(table, g, cteBeg, c);
  }

  // ---------------------------------------------------------------------
  // A parameter list out of step with its placeholders
  // ---------------------------------------------------------------------

  /** `;1[2 3[4=#g;5[6` behind the header: a statement with an OR clause
      and a GET clause, then a statement with one OR clause. */
  function MisboundSample(): seq<Val> {
    [Int(ID), Int(MIX),
     Int(SEMI), Int(1), Int(LBRACKET), Int(2), Int(SPACE), Int(3), Int(LBRACKET), Int(4), Int(EQ_ID), Int(G_ID),
     Int(SEMI), Int(5), Int(LBRACKET), Int(6)]
  }

  /** The clauses of the sample. */
  const FIRST_OR: seq<Val> := [Int(SEMI), Int(1), Int(LBRACKET), Int(2)]
  const FIRST_GET: seq<Val> := [Int(SPACE), Int(3), Int(LBRACKET), Int(4), Int(EQ_ID), Int(G_ID)]
  const SECOND_OR: seq<Val> := [Int(SEMI), Int(5), Int(LBRACKET), Int(6)]

  lemma SampleStatements()
    ensures var t := MisboundSample();
      && Next(t, 2) == Ok(12) && Next(t, 12) == Ok(16) && Next(t, 16) == Ok(-1)
      && t[2..12] == FIRST_OR + FIRST_GET && t[12..16] == SECOND_OR
  {
    var t := MisboundSample();
    assert ScanStatement(t, 2) == ScanStatement(t, 4) == ScanStatement(t, 6) == ScanStatement(t, 8)
      == ScanStatement(t, 10) == 12;
    assert ScanStatement(t, 12) == 16;
  }

  lemma FirstGrouping()
    ensures Grouped(FIRST_OR + FIRST_GET)
      == Ok(Grouping(false, [Group(Int(1000), [FIRST_OR])], [], [FIRST_GET], false, TrueKey, Int(1008), 10))
  {
    var t := FIRST_OR + FIRST_GET;
    assert Mark(t, 0, OPENING) == Ok(OPENING);
    assert GroupFrom(t, 0, OPENING) == GroupFrom(t, 2, OPENING);
    assert Mark(t, 2, OPENING) == Ok(OPENING);
    assert t[..4] == FIRST_OR;
    var g4 := Close(t, 2, OPENING);
    assert g4 == Grouping(false, [Group(Int(1000), [FIRST_OR])], [], [], false, TrueKey, Int(1002), 4);
    assert GroupFrom(t, 2, OPENING) == GroupFrom(t, 4, g4);
    assert Mark(t, 4, g4) == Ok(g4);
    assert GroupFrom(t, 4, g4) == GroupFrom(t, 6, g4);
    assert Mark(t, 6, g4) == Ok(g4);
    assert GroupFrom(t, 6, g4) == GroupFrom(t, 8, g4);
    var g8 := g4.(num := Int(0), key := GetKey);
    assert Mark(t, 8, g4) == Ok(g8);
    assert t[4..10] == FIRST_GET;
    assert GroupFrom(t, 8, g4) == GroupFrom(t, 10, Close(t, 8, g8));
    var g10 := Close(t, 8, g8);
    assert g10 == Grouping(false, [Group(Int(1000), [FIRST_OR])], [], [FIRST_GET], false, TrueKey, Int(1008), 10);
    assert GroupFrom(t, 10, g10) == Ok(g10);
  }

  lemma SecondGrouping()
    ensures Grouped(SECOND_OR) == Ok(Grouping(false, [Group(Int(1000), [SECOND_OR])], [], [], false, TrueKey, Int(1002), 4))
  {
    var t := SECOND_OR;
    assert Mark(t, 0, OPENING) == Ok(OPENING);
    assert GroupFrom(t, 0, OPENING) == GroupFrom(t, 2, OPENING);
    assert Mark(t, 2, OPENING) == Ok(OPENING);
    assert t[..4] == SECOND_OR;
    assert GroupFrom(t, 2, OPENING) == GroupFrom(t, 4, Close(t, 2, OPENING));
    var g4 := Close(t, 2, OPENING);
    assert g4 == Grouping(false, [Group(Int(1000), [SECOND_OR])], [], [], false, TrueKey, Int(1002), 4);
    assert GroupFrom(t, 4, g4) == Ok(g4);
  }

  /** Each OR clause of the sample selects with its two operands as
      parameters. */
  lemma ClauseSelect(table: string, t: seq<Val>)
    requires t == FIRST_OR || t == SECOND_OR
    ensures Selected(table, t, false).Ok? && Selected(table, t, false).value.params == [t[1], t[3]]
  {
    assert WellFormed(t) by {
      assert forall p :: 0 <= p < |t| && p % 2 == 0 ==> p in {0, 2};
    }
    SelectifyErrors(table, t, false);
    SelectifyShape(table, t, false);
    assert Constrained(t, 0) && Constrained(t, 2);
    assert Conds(t, 2) == [t[1]];
    assert Conds(t, 4) == [t[1], t[3]];
  }

  /** The GET clause of the sample selects with 3 and 4; its `=#g` pair
      gets no condition. */
  lemma GetSelect(table: string)
    ensures Selected(table, FIRST_GET, false).Ok? && Selected(table, FIRST_GET, false).value.params == [Int(3), Int(4)]
  {
    var t := FIRST_GET;
    assert WellFormed(t) by {
      assert forall p :: 0 <= p < |t| && p % 2 == 0 ==> p in {0, 2, 4};
    }
    SelectifyErrors(table, t, false);
    SelectifyShape(table, t, false);
    assert Constrained(t, 0) && Constrained(t, 2) && !Constrained(t, 4);
    assert Conds(t, 2) == [t[1]];
    assert Conds(t, 4) == [t[1], t[3]];
    assert Conds(t, 6) == Conds(t, 4);
  }

  /** The first statement: its expression `z1` takes 1 and 2, its GET
      select 3 and 4. */
  lemma FirstStatementParams(table: string)
    ensures StatementExprParams(table, FIRST_OR + FIRST_GET) == [Int(1), Int(2)]
    ensures StatementGetParams(table, FIRST_OR + FIRST_GET) == [Int(3), Int(4)]
  {
    FirstGrouping();
    ClauseSelect(table, FIRST_OR);
    GetSelect(table);
    assert FirstParams(table, [FIRST_OR], []) == [Int(1), Int(2)] + [] + [];
    assert ClauseParams(table, [FIRST_GET], false) == [Int(3), Int(4)] + [];
  }

  /** The second statement: its expression `z2` takes 5 and 6. */
  lemma SecondStatementParams(table: string)
    ensures StatementExprParams(table, SECOND_OR) == [Int(5), Int(6)]
    ensures StatementGetParams(table, SECOND_OR) == []
  {
    SecondGrouping();
    ClauseSelect(table, SECOND_OR);
    assert FirstParams(table, [SECOND_OR], []) == [Int(5), Int(6)] + [] + [];
  }

  /** The first statement compiles to one expression. */
  lemma FirstCompiles(table: string) returns (a: Sub)
    ensures Subquery(table, FIRST_OR + FIRST_GET, 0) == Ok(a) && |a.ctes| == 1
  {
    var t := FIRST_OR + FIRST_GET;
    FirstGrouping();
    ClauseSelect(table, FIRST_OR);
    GetSelect(table);
    var g := Grouped(t).value;
    assert Compiles(table, g.gets, false);
    assert Compiles(table, g.trues[0].clauses, false);
    SubqueryOk(table, t, 0);
    SubqueryCtes(table, t, 0);
    a := Subquery(table, t, 0).value;
  }

  /** The second statement compiles. */
  lemma SecondCompiles(table: string) returns (b: Sub)
    ensures Subquery(table, SECOND_OR, 1) == Ok(b)
  {
    SecondGrouping();
    ClauseSelect(table, SECOND_OR);
    var g := Grouped(SECOND_OR).value;
    assert Compiles(table, g.trues[0].clauses, false);
    SubqueryOk(table, SECOND_OR, 1);
    b := Subquery(table, SECOND_OR, 1).value;
  }

  /** One statement of the loop as written that compiles. */
  lemma WrittenStep(table: string, tokens: seq<Val>, beg: nat, end: nat, acc: Listed, s: Sub)
    requires 0 < end <= |tokens| && beg <= end && Next(tokens, beg) == Ok(end)
    requires Subquery(table, tokens[beg..end], |acc.ctes|) == Ok(s)
    ensures StatementsAsWritten(table, tokens, beg, acc)
      == StatementsAsWritten(table, tokens, end, Listed(acc.ctes + s.ctes, acc.selects + s.selects, acc.params + s.params))
  {
  }

  /** The loop as written past the last statement. */
  lemma WrittenEnd(table: string, tokens: seq<Val>, beg: nat, acc: Listed)
    requires Next(tokens, beg) == Ok(-1)
    ensures StatementsAsWritten(table, tokens, beg, acc) == Ok(acc)
  {
  }

  /** A list of two statements, the first with one expression: the loop
      as written appends each statement's lists in turn. */
  lemma TwoWritten(table: string, tokens: seq<Val>, mid: nat, a: Sub, b: Sub)
    requires 2 <= mid < |tokens|
    requires Next(tokens, 2) == Ok(mid) && Next(tokens, mid) == Ok(|tokens|) && Next(tokens, |tokens|) == Ok(-1)
    requires Subquery(table, tokens[2..mid], 0) == Ok(a) && Subquery(table, tokens[mid..|tokens|], 1) == Ok(b)
    requires |a.ctes| == 1
    ensures StatementsAsWritten(table, tokens, 2, Listed([], [], []))
      == Ok(Listed([] + a.ctes + b.ctes, [] + a.selects + b.selects, [] + a.params + b.params))
  {
    var w0 := Listed([], [], []);
    var w1 := Listed(w0.ctes + a.ctes, w0.selects + a.selects, w0.params + a.params);
    WrittenStep(table, tokens, 2, mid, w0, a);
    WrittenStep(table, tokens, mid, |tokens|, w1, b);
    WrittenEnd(table, tokens, |tokens|, Listed(w1.ctes + b.ctes, w1.selects + b.selects, w1.params + b.params));
  }

  /** The loop as written gets through the sample. */
  lemma SampleWrittenOk(table: string)
    ensures QueriedAsWritten(table, MisboundSample()).Ok?
  {
    var t := MisboundSample();
    SampleStatements();
    var a := FirstCompiles(table);
    var b := SecondCompiles(table);
    TwoWritten(table, t, 12, a, b);
  }

  /** `nxt` cuts the sample into its two statements. */
  lemma SampleCut()
    ensures StatementsAt(MisboundSample(), 2) == [FIRST_OR + FIRST_GET, SECOND_OR]
  {
    var t := MisboundSample();
    SampleStatements();
    StatementsAtNext(t, 2, 12);
    StatementsAtNext(t, 12, 16);
    assert StatementsAt(t, 16) == [];
  }

  /** The parameter list of the sample, statement by statement. */
  lemma SampleParams(table: string)
    ensures AllParams(table, [FIRST_OR + FIRST_GET, SECOND_OR]) == [Int(1), Int(2)] + [Int(3), Int(4)] + [Int(5), Int(6)]
  {
    FirstStatementParams(table);
    SecondStatementParams(table);
    var stmts := [FIRST_OR + FIRST_GET, SECOND_OR];
    assert stmts[1..] == [SECOND_OR] && [SECOND_OR][1..] == [];
    assert AllParams(table, [SECOND_OR]) == [Int(5), Int(6)] + [] + [];
    assert StatementParams(table, FIRST_OR + FIRST_GET) == [Int(1), Int(2)] + [Int(3), Int(4)];
    assert AllParams(table, stmts) == StatementParams(table, FIRST_OR + FIRST_GET) + AllParams(table, [SECOND_OR]);
  }

  /** The expression parameters of the sample, statement by statement. */
  lemma SampleExprParams(table: string)
    ensures AllExprParams(table, [FIRST_OR + FIRST_GET, SECOND_OR]) == [Int(1), Int(2)] + [Int(5), Int(6)]
  {
    FirstStatementParams(table);
    SecondStatementParams(table);
    var stmts := [FIRST_OR + FIRST_GET, SECOND_OR];
    assert stmts[1..] == [SECOND_OR] && [SECOND_OR][1..] == [];
    assert AllExprParams(table, [SECOND_OR]) == [Int(5), Int(6)] + [];
    assert AllExprParams(table, stmts) == StatementExprParams(table, FIRST_OR + FIRST_GET) + AllExprParams(table, [SECOND_OR]);
  }

  /** The select parameters of the sample, statement by statement. */
  lemma SampleGetParams(table: string)
    ensures AllGetParams(table, [FIRST_OR + FIRST_GET, SECOND_OR]) == [Int(3), Int(4)]
  {
    FirstStatementParams(table);
    SecondStatementParams(table);
    var stmts := [FIRST_OR + FIRST_GET, SECOND_OR];
    assert stmts[1..] == [SECOND_OR] && [SECOND_OR][1..] == [];
    assert AllGetParams(table, [SECOND_OR]) == [] + [];
    assert AllGetParams(table, stmts) == StatementGetParams(table, FIRST_OR + FIRST_GET) + AllGetParams(table, [SECOND_OR]);
  }

  /** In the sample's text the expressions `z1` and `z2` hold the first
      four placeholders. */
  lemma SampleExpressions(table: string)
    ensures StatementsFrom(table, MisboundSample(), 2, Sub([], [], [], [])).Ok?
    ensures Holes(WithPart(StatementsFrom(table, MisboundSample(), 2, Sub([], [], [], [])).value.ctes)) == 4
  {
    var t := MisboundSample();
    SampleWrittenOk(table);
    QuerifyAsWrittenParams(table, t);
    QuerifyShape(table, t);
    var s := StatementsFrom(table, t, 2, Sub([], [], [], [])).value;
    StatementsExprParams(table, t, 2, Sub([], [], [], []), s);
    SampleCut();
    SampleExprParams(table);
  }

  /** `querify` as written passes 1, 2, 3, 4, 5, 6: the third and fourth
      placeholders, in `z2` (`SampleExpressions`), receive the GET
      parameters 3 and 4 of the first statement instead of 5 and 6, those
      of `z2` (`SecondStatementParams`). Gathering the expression
      parameters first passes 1, 2, 5, 6, 3, 4, in the order of the
      text. */
  lemma QuerifyAsWrittenMisbinds(table: string)
    ensures QueriedAsWritten(table, MisboundSample()).Ok? && Queried(table, MisboundSample()).Ok?
    ensures QueriedAsWritten(table, MisboundSample()).value.sql == Queried(table, MisboundSample()).value.sql
    ensures QueriedAsWritten(table, MisboundSample()).value.params
      == [Int(1), Int(2)] + [Int(3), Int(4)] + [Int(5), Int(6)]
    ensures Queried(table, MisboundSample()).value.params
      == [Int(1), Int(2)] + [Int(5), Int(6)] + [Int(3), Int(4)]
  {
    var t := MisboundSample();
    SampleWrittenOk(table);
    QuerifyAsWrittenParams(table, t);
    QuerifyParams(table, t);
    SampleCut();
    SampleParams(table);
    SampleExprParams(table);
    SampleGetParams(table);
  }
}
