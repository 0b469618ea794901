/** Turning keys into ids and back through the caches `I` (key to id) and
    `K` (id to key), filling them from the name table on demand
    (memelang.py lines 320-395). The name table is a sequence of rows that
    stands for the database. */
module Resolver {
  import opened Base

  /** The `mode` argument: which of the two columns of each pair to convert. */
  const MODE_ODD := 1
  const MODE_EVEN := 2
  const MODE_ALL := 4

  /** A row of the name table: `(aid, bid, str)`. */
  datatype Row = Row(aid: int, bid: int, str: string)

  /** The contents of the two caches. */
  datatype Caches = Caches(I: map<string, int>, K: map<int, string>)

  /** What a call returns together with the caches it leaves behind. */
  datatype Outcome = Outcome(result: Result<seq<Val>>, caches: Caches)

  // ---------------------------------------------------------------------------
  // namecache
  // ---------------------------------------------------------------------------

  /** The keys (field `str`) or ids (field `aid`) among the lookups that
      are not cached yet. */
  function Uncached(lookups: seq<Val>, fld: string, c: Caches): set<Val> {
    if fld == "str" then set v | v in lookups && v.Str? && v.s !in c.I
    else set v | v in lookups && v.Int? && v.i !in c.K
  }

  /** The `selectin` filter: a key row whose `fld` column is one of the wanted values. */
  predicate Wanted(row: Row, keyid: int, fld: string, wanted: set<Val>) {
    row.bid == keyid && (if fld == "str" then Str(row.str) in wanted else Int(row.aid) in wanted)
  }

  /** The rows `selectin` returns, in table order. */
  function Select(store: seq<Row>, keyid: int, fld: string, wanted: set<Val>): (r: seq<Row>)
    ensures forall row :: row in r <==> row in store && Wanted(row, keyid, fld, wanted)
  {
    if store == [] then []
    else (if Wanted(store[0], keyid, fld, wanted) then [store[0]] else []) + Select(store[1..], keyid, fld, wanted)
  }

  /** The caches after the rows are written into them one after another. */
  function Record(c: Caches, rows: seq<Row>): Caches
    decreases |rows|
  {
    if rows == [] then c
    else Record(Write(c, rows[0]), rows[1..])
  }

  /** `namecache(lookups, fld)`: the caches afterwards, or what it raises. */
  function NameCached(c: Caches, lookups: seq<Val>, fld: string, store: seq<Row>): Result<Caches> {
    if lookups == [] then Ok(c)
    else if fld != "str" && fld != "aid" then Err(FieldError)
    else
      var wanted := Uncached(lookups, fld, c);
      if wanted == {} then Ok(c)
      else if "key" !in c.I then Err(KeyError)
      else Ok(Record(c, Select(store, c.I["key"], fld, wanted)))
  }

  /** The keys, and the ids, the rows carry. */
  function Strs(rows: seq<Row>): set<string> {
    set row | row in rows :: row.str
  }

  function Aids(rows: seq<Row>): set<int> {
    set row | row in rows :: row.aid
  }

  /** Row `i` is the last row that writes its key. */
  predicate LastKey(rows: seq<Row>, i: int)
    requires 0 <= i < |rows|
  {
    forall j :: i < j < |rows| ==> rows[j].str != rows[i].str
  }

  /** Row `i` is the last row that writes its id. */
  predicate LastId(rows: seq<Row>, i: int)
    requires 0 <= i < |rows|
  {
    forall j :: i < j < |rows| ==> rows[j].aid != rows[i].aid
  }

  lemma RowsCons(rows: seq<Row>)
    requires rows != []
    ensures Strs(rows) == {rows[0].str} + Strs(rows[1..])
    ensures Aids(rows) == {rows[0].aid} + Aids(rows[1..])
  {
    assert forall row :: row in rows <==> row == rows[0] || row in rows[1..];
  }

  /** The caches after one row is written. */
  function Write(c: Caches, row: Row): Caches {
    Caches(c.I[row.str := row.aid], c.K[row.aid := row.str])
  }

  /** Writing rows into the caches adds exactly their keys and ids and
      leaves every other entry as it was. */
  lemma {:induction false} RecordKeeps(c: Caches, rows: seq<Row>)
    ensures Record(c, rows).I.Keys == c.I.Keys + Strs(rows)
    ensures Record(c, rows).K.Keys == c.K.Keys + Aids(rows)
    ensures forall s :: s in c.I && s !in Strs(rows) ==> Record(c, rows).I[s] == c.I[s]
    ensures forall a :: a in c.K && a !in Aids(rows) ==> Record(c, rows).K[a] == c.K[a]
    decreases |rows|
  {
    if rows != [] {
      assert Record(c, rows) == Record(Write(c, rows[0]), rows[1..]);
      RecordKeeps(Write(c, rows[0]), rows[1..]);
      RowsCons(rows);
    }
  }

  /** The last row written for a key, or for an id, is the one that stays. */
  lemma {:induction false} RecordLast(c: Caches, rows: seq<Row>)
    ensures forall i :: 0 <= i < |rows| && LastKey(rows, i) ==> rows[i].str in Record(c, rows).I && Record(c, rows).I[rows[i].str] == rows[i].aid
    ensures forall i :: 0 <= i < |rows| && LastId(rows, i) ==> rows[i].aid in Record(c, rows).K && Record(c, rows).K[rows[i].aid] == rows[i].str
    decreases |rows|
  {
    if rows != [] {
      var c1 := Write(c, rows[0]);
      var tail := rows[1..];
      var d := Record(c, rows);
      assert d == Record(c1, tail);
      RecordLast(c1, tail);
      forall i | 0 <= i < |rows| && LastKey(rows, i) ensures rows[i].str in d.I && d.I[rows[i].str] == rows[i].aid {
        if i == 0 {
          FirstKeyStays(c1, rows);
        } else {
          assert rows[i] == tail[i - 1];
          assert LastKey(tail, i - 1) by {
            forall j | i - 1 < j < |tail| ensures tail[j].str != tail[i - 1].str {
              assert tail[j] == rows[j + 1];
            }
          }
        }
      }
      forall i | 0 <= i < |rows| && LastId(rows, i) ensures rows[i].aid in d.K && d.K[rows[i].aid] == rows[i].str {
        if i == 0 {
          FirstIdStays(c1, rows);
        } else {
          assert rows[i] == tail[i - 1];
          assert LastId(tail, i - 1) by {
            forall j | i - 1 < j < |tail| ensures tail[j].aid != tail[i - 1].aid {
              assert tail[j] == rows[j + 1];
            }
          }
        }
      }
    }
  }

  lemma FirstKeyStays(c1: Caches, rows: seq<Row>)
    requires rows != [] && LastKey(rows, 0) && rows[0].str in c1.I && c1.I[rows[0].str] == rows[0].aid
    ensures rows[0].str in Record(c1, rows[1..]).I && Record(c1, rows[1..]).I[rows[0].str] == rows[0].aid
  {
    var tail := rows[1..];
    forall row | row in tail ensures row.str != rows[0].str {
      var j :| 0 <= j < |tail| && tail[j] == row;
      assert rows[j + 1] == row;
    }
    RecordKeeps(c1, tail);
  }

  lemma FirstIdStays(c1: Caches, rows: seq<Row>)
    requires rows != [] && LastId(rows, 0) && rows[0].aid in c1.K && c1.K[rows[0].aid] == rows[0].str
    ensures rows[0].aid in Record(c1, rows[1..]).K && Record(c1, rows[1..]).K[rows[0].aid] == rows[0].str
  {
    var tail := rows[1..];
    forall row | row in tail ensures row.aid != rows[0].aid {
      var j :| 0 <= j < |tail| && tail[j] == row;
      assert rows[j + 1] == row;
    }
    RecordKeeps(c1, tail);
  }

  /** After a normal return from `namecache`: no cache entry is lost; an
      entry of the kind looked up (a key for `str`, an id for `aid`) that
      was cached keeps its value, since only uncached ones are asked for;
      every new key or id comes from a key row of the name table; and every
      looked-up key or id the table holds is now cached both ways. */
  lemma NameCacheFills(c: Caches, lookups: seq<Val>, fld: string, store: seq<Row>)
    requires NameCached(c, lookups, fld, store).Ok?
    ensures var d := NameCached(c, lookups, fld, store).value;
      && c.I.Keys <= d.I.Keys && c.K.Keys <= d.K.Keys
      && (fld == "str" ==> forall s :: s in c.I ==> d.I[s] == c.I[s])
      && (fld == "aid" ==> forall a :: a in c.K ==> d.K[a] == c.K[a])
      && (forall s :: s in d.I && s !in c.I ==> "key" in c.I && exists row :: row in store && row.str == s && row.bid == c.I["key"])
      && (forall a :: a in d.K && a !in c.K ==> "key" in c.I && exists row :: row in store && row.aid == a && row.bid == c.I["key"])
      && (forall row :: row in store && "key" in c.I && row.bid == c.I["key"] && fld == "str" && Str(row.str) in lookups
            ==> row.str in d.I && (row.str !in c.I ==> row.aid in d.K))
      && (forall row :: row in store && "key" in c.I && row.bid == c.I["key"] && fld == "aid" && Int(row.aid) in lookups
            ==> row.aid in d.K && (row.aid !in c.K ==> row.str in d.I))
  {
    var d := NameCached(c, lookups, fld, store).value;
    if lookups != [] && Uncached(lookups, fld, c) != {} {
      var rows := Select(store, c.I["key"], fld, Uncached(lookups, fld, c));
      RecordKeeps(c, rows);
      assert d == Record(c, rows);
      forall s | s in d.I && s !in c.I ensures "key" in c.I && exists row :: row in store && row.str == s && row.bid == c.I["key"] {
        var row :| row in rows && row.str == s;
      }
      forall a | a in d.K && a !in c.K ensures "key" in c.I && exists row :: row in store && row.aid == a && row.bid == c.I["key"] {
        var row :| row in rows && row.aid == a;
      }
      if fld == "str" {
        forall row | row in rows ensures row.str !in c.I {
          assert Str(row.str) in Uncached(lookups, fld, c);
        }
      } else {
        forall row | row in rows ensures row.aid !in c.K {
          assert Int(row.aid) in Uncached(lookups, fld, c);
        }
      }
    } else if lookups != [] {
      forall row | row in store && fld == "str" && Str(row.str) in lookups ensures row.str in c.I {
        assert Str(row.str) !in Uncached(lookups, fld, c);
      }
      forall row | row in store && fld == "aid" && Int(row.aid) in lookups ensures row.aid in c.K {
        assert Int(row.aid) !in Uncached(lookups, fld, c);
      }
    }
  }

  // ---------------------------------------------------------------------------
  // The two loops of identify and keyify, over the pairs from index 2
  // ---------------------------------------------------------------------------

  /** `I[name]` as a token. */
  function Lookup(I: map<string, int>, name: string): Result<Val> {
    if name in I then Ok(Int(I[name])) else Err(KeyError)
  }

  /** An operator written as its key becomes its id. */
  function ResolveOp(I: map<string, int>, operator: Val): Result<Val> {
    if operator.Str? then Lookup(I, operator.s) else Ok(operator)
  }

  /** A key operand without its leading `-`. */
  function Unsigned(s: string): string {
    if |s| > 0 && s[0] == '-' then s[1..] else s
  }

  /** What is done to one pair: collect the keys (or ids) to look up, or
      convert the pair, with the caches of that moment. */
  datatype Step =
    | IdLookups(I: map<string, int>)
    | IdPairs(I: map<string, int>, mode: int)
    | KeyLookups(I: map<string, int>)
    | KeyPairs(I: map<string, int>, K: map<int, string>, mode: int)

  /** `OPR[operator][FORM] == KEY`, raising when the operator is unknown
      (read off the table by `KeyFormOfTable`). */
  function KeyForm(op: Val): Result<bool> {
    if !(op.Int? && op.i in OPERATORS) then Err(KeyError) else Ok(op.i in KEY_OPERATORS)
  }

  lemma KeyFormOfTable(op: Val)
    ensures KeyForm(op) == if Info(op).None? then Err(KeyError) else Ok(Info(op).value.form == KEYFORM)
  {
  }

  /** The first loop of `identify` on one pair: a key operand of a key-form
      operator is looked up unless `I` has a nonzero id for it. */
  function IdLookup(I: map<string, int>, op: Val, operand: Val): Result<seq<Val>> {
    if !operand.Str? then Ok([])
    else match KeyForm(op)
      case Err(e) => Err(e)
      case Ok(isKey) =>
        var key := Unsigned(operand.s);
        Ok(if isKey && (key !in I || I[key] == 0) then [Str(key)] else [])
  }

  /** The second loop of `identify` on one pair. */
  function IdPair(I: map<string, int>, mode: int, operator: Val, op: Val, operand: Val): Result<seq<Val>> {
    var first := if mode != MODE_ODD then op else operator;
    if operand == Nil then Ok([first, Nil])
    else if mode != MODE_EVEN && operand.Str? then
      match KeyForm(op)
      case Err(e) => Err(e)
      case Ok(isKey) =>
        if !isKey then Ok([first, operand])
        else
          var key := Unsigned(operand.s);
          if key !in I then Err(KeyError)
          else Ok([first, Int(if key == operand.s then I[key] else -I[key])])
    else Ok([first, operand])
  }

  /** The first loop of `keyify` on one pair: the absolute value of an id
      operand of a key-form operator. */
  function KeyLookup(op: Val, operand: Val): Result<seq<Val>> {
    if !operand.Int? then Ok([])
    else match KeyForm(op)
      case Err(e) => Err(e)
      case Ok(isKey) => Ok(if isKey then [Int(if operand.i < 0 then -operand.i else operand.i)] else [])
  }

  /** `K[n]` as a token. */
  function KeyOf(K: map<int, string>, v: Val): Result<Val> {
    if v.Int? && v.i in K then Ok(Str(K[v.i])) else Err(KeyError)
  }

  /** The second loop of `keyify` on one pair. */
  function KeyPair(K: map<int, string>, mode: int, operator: Val, op: Val, operand: Val): Result<seq<Val>> {
    var first := if mode != MODE_ODD then KeyOf(K, op) else Ok(operator);
    if first.Err? then Err(first.error)
    else if operand == Nil then Ok([first.value, Nil])
    else if mode != MODE_EVEN && operand.Int? then
      match KeyForm(op)
      case Err(e) => Err(e)
      case Ok(isKey) =>
        if !isKey then Ok([first.value, operand])
        else if operand.i >= 0 then
          if operand.i in K then Ok([first.value, Str(K[operand.i])]) else Err(KeyError)
        else if -operand.i in K then Ok([first.value, Str("-" + K[-operand.i])])
        else Err(KeyError)
    else Ok([first.value, operand])
  }

  /** One step on the pair `(operator, operand)`. */
  function Apply(step: Step, operator: Val, operand: Val): Result<seq<Val>> {
    match ResolveOp(step.I, operator)
    case Err(e) => Err(e)
    case Ok(op) =>
      match step
      case IdLookups(I) => IdLookup(I, op, operand)
      case IdPairs(I, mode) => IdPair(I, mode, operator, op, operand)
      case KeyLookups(_) => KeyLookup(op, operand)
      case KeyPairs(_, K, mode) => KeyPair(K, mode, operator, op, operand)
  }

  function Prepend(prefix: seq<Val>, r: Result<seq<Val>>): Result<seq<Val>> {
    match r
    case Err(e) => Err(e)
    case Ok(s) => Ok(prefix + s)
  }

  /** A loop `for t in range(THEBEG, len(tokens), 2)` from `t` on: the
      outputs of the step on each pair, in order, or the first error. */
  function Collect(step: Step, tokens: seq<Val>, t: nat): Result<seq<Val>>
    decreases |tokens| - t
  {
    if t >= |tokens| then Ok([])
    else if t + 1 >= |tokens| then Err(IndexError)
    else
      match Apply(step, tokens[t], tokens[t + 1])
      case Err(e) => Err(e)
      case Ok(out) => Prepend(out, Collect(step, tokens, t + 2))
  }

  // ---------------------------------------------------------------------------
  // identify and keyify
  // ---------------------------------------------------------------------------

  /** The first two slots of the result: `I[name]`, or the slot of the
      input that the mode leaves alone. */
  function Header(I: map<string, int>, tokens: seq<Val>, mode: int, name: string): Result<seq<Val>> {
    var first := if mode != MODE_ODD then Lookup(I, name) else if |tokens| >= 1 then Ok(tokens[0]) else Err(IndexError);
    var second := if mode != MODE_EVEN then Lookup(I, name) else if |tokens| >= 2 then Ok(tokens[1]) else Err(IndexError);
    if first.Err? then Err(first.error)
    else if second.Err? then Err(second.error)
    else Ok([first.value, second.value])
  }

  /** The lookup loop and `namecache`: the caches the conversion loop
      works with, or what is raised on the way. */
  function Prepared(c: Caches, tokens: seq<Val>, store: seq<Row>, toIds: bool): Result<Caches> {
    match Collect(if toIds then IdLookups(c.I) else KeyLookups(c.I), tokens, 2)
    case Err(e) => Err(e)
    case Ok(lookups) => NameCached(c, lookups, if toIds then "str" else "aid", store)
  }

  /** The common course of `identify` and `keyify`: the header, the
      lookup loop, `namecache`, and the conversion loop with the caches
      `namecache` leaves. */
  function Resolution(c: Caches, tokens: seq<Val>, mode: int, store: seq<Row>, toIds: bool): Outcome {
    match Header(c.I, tokens, mode, if toIds then "id" else "key")
    case Err(e) => Outcome(Err(e), c)
    case Ok(head) =>
      if tokens == [] then Outcome(Ok(tokens), c)
      else
        match Prepared(c, tokens, store, toIds)
        case Err(e) => Outcome(Err(e), c)
        case Ok(d) => Outcome(Prepend(head, Collect(Conversion(d, mode, toIds), tokens, 2)), d)
  }

  /** The conversion step of `identify` (to ids) or `keyify` (to keys). */
  function Conversion(d: Caches, mode: int, toIds: bool): Step {
    if toIds then IdPairs(d.I, mode) else KeyPairs(d.I, d.K, mode)
  }

  /** `identify(tokens, mode)` */
  function Identification(c: Caches, tokens: seq<Val>, mode: int, store: seq<Row>): Outcome {
    Resolution(c, tokens, mode, store, true)
  }

  /** `keyify(tokens, mode)` */
  function Keyification(c: Caches, tokens: seq<Val>, mode: int, store: seq<Row>): Outcome {
    Resolution(c, tokens, mode, store, false)
  }

  /** The caches `I` and `K`, with the name table they are filled from. */
  class Cache {
    var I: map<string, int>
    var K: map<int, string>

    constructor (I0: map<string, int>, K0: map<int, string>)
      ensures I == I0 && K == K0
    {
      I := I0;
      K := K0;
    }

    function Snapshot(): Caches
      reads this
    {
      Caches(I, K)
    }

    /** `namecache(lookups, fld)`: `raised` is what it raises; the caches
        change only when it returns normally. */
    method NameCache(lookups: seq<Val>, fld: string, store: seq<Row>) returns (raised: Option<Error>)
      modifies this
      ensures raised.None? <==> NameCached(old(Snapshot()), lookups, fld, store).Ok?
      ensures raised.Some? ==> NameCached(old(Snapshot()), lookups, fld, store) == Err(raised.value)
      ensures raised.Some? ==> Snapshot() == old(Snapshot())
      ensures raised.None? ==> Snapshot() == NameCached(old(Snapshot()), lookups, fld, store).value
    {
      if lookups == [] {
        return None;
      }
      if fld != "str" && fld != "aid" {
        return Some(FieldError);
      }
      var wanted := Uncached(lookups, fld, Snapshot());
      if wanted == {} {
        return None;
      }
      if "key" !in I {
        return Some(KeyError);
      }
      ghost var c0 := Snapshot();
      var rows := Select(store, I["key"], fld, wanted);
      for n := 0 to |rows|
        invariant Record(Snapshot(), rows[n..]) == Record(c0, rows)
      {
        assert rows[n..][1..] == rows[n + 1..];
        I := I[rows[n].str := rows[n].aid];
        K := K[rows[n].aid := rows[n].str];
      }
      return None;
    }

    /** `identify(tokens, mode)` */
    method Identify(tokens: seq<Val>, mode: int, store: seq<Row>) returns (r: Result<seq<Val>>)
      modifies this
      ensures Outcome(r, Snapshot()) == Identification(old(Snapshot()), tokens, mode, store)
    {
      r := Resolve(tokens, mode, store, true);
    }

    /** `keyify(tokens, mode)` */
    method Keyify(tokens: seq<Val>, mode: int, store: seq<Row>) returns (r: Result<seq<Val>>)
      modifies this
      ensures Outcome(r, Snapshot()) == Keyification(old(Snapshot()), tokens, mode, store)
    {
      r := Resolve(tokens, mode, store, false);
    }

    method Resolve(tokens: seq<Val>, mode: int, store: seq<Row>, toIds: bool) returns (r: Result<seq<Val>>)
      modifies this
      ensures Outcome(r, Snapshot()) == Resolution(old(Snapshot()), tokens, mode, store, toIds)
    {
      var head := Header(I, tokens, mode, if toIds then "id" else "key");
      if head.Err? {
        return Err(head.error);
      }
      if tokens == [] {
        return Ok(tokens);
      }
      var lookups := ScanPairs(if toIds then IdLookups(I) else KeyLookups(I), tokens);
      if lookups.Err? {
        return Err(lookups.error);
      }
      var raised := NameCache(lookups.value, if toIds then "str" else "aid", store);
      if raised.Some? {
        return Err(raised.value);
      }
      var pairs := ScanPairs(Conversion(Snapshot(), mode, toIds), tokens);
      r := Prepend(head.value, pairs);
    }
  }

  /** The loop `for t in range(THEBEG, len(tokens), 2)` with one step. */
  method ScanPairs(step: Step, tokens: seq<Val>) returns (r: Result<seq<Val>>)
    ensures r == Collect(step, tokens, 2)
  {
    var out: seq<Val> := [];
    var t := 2;
    PrependEmpty(Collect(step, tokens, 2));
    while t < |tokens|
      invariant t >= 2 && t % 2 == 0
      invariant Prepend(out, Collect(step, tokens, t)) == Collect(step, tokens, 2)
      decreases |tokens| - t
    {
      if t + 1 >= |tokens| {
        return Err(IndexError);
      }
      var pair := Apply(step, tokens[t], tokens[t + 1]);
      if pair.Err? {
        return Err(pair.error);
      }
      PrependPrepend(out, pair.value, Collect(step, tokens, t + 2));
      out := out + pair.value;
      t := t + 2;
    }
    assert out + [] == out;
    return Ok(out);
  }

  lemma PrependEmpty(r: Result<seq<Val>>)
    ensures Prepend([], r) == r
  {
    match r
    case Err(_) =>
    case Ok(s) => assert [] + s == s;
  }

  lemma PrependPrepend(a: seq<Val>, b: seq<Val>, r: Result<seq<Val>>)
    ensures Prepend(a, Prepend(b, r)) == Prepend(a + b, r)
  {
    match r
    case Err(_) =>
    case Ok(s) => assert a + (b + s) == (a + b) + s;
  }

  // ---------------------------------------------------------------------------
  // What the loops do, pair by pair
  // ---------------------------------------------------------------------------

  /** A successful `identify` or `keyify` is the header followed by the
      output of the conversion loop, run with the caches `namecache` leaves. */
  lemma ResolvedParts(c: Caches, tokens: seq<Val>, mode: int, store: seq<Row>, toIds: bool, r: seq<Val>, d: Caches)
    requires Resolution(c, tokens, mode, store, toIds) == Outcome(Ok(r), d) && tokens != []
    ensures Header(c.I, tokens, mode, if toIds then "id" else "key").Ok?
    ensures Prepared(c, tokens, store, toIds) == Ok(d)
    ensures Collect(Conversion(d, mode, toIds), tokens, 2).Ok?
    ensures r == Header(c.I, tokens, mode, if toIds then "id" else "key").value + Collect(Conversion(d, mode, toIds), tokens, 2).value
  {
  }

  /** Slot `k` of what `identify` returns, with the `I` it converts with:
      an operator becomes its id unless the mode keeps operators; an
      operand stays as it is unless it is a key of a key-form operator and
      the mode converts operands, when it becomes the key's id, negated
      for a leading `-`. */
  predicate IdSlot(I: map<string, int>, mode: int, tokens: seq<Val>, k: int, v: Val)
    requires 2 <= k < |tokens|
  {
    if k % 2 == 0 then
      (mode == MODE_ODD ==> v == tokens[k]) && (mode != MODE_ODD ==> ResolveOp(I, tokens[k]) == Ok(v))
    else
      var x := tokens[k];
      var op := ResolveOp(I, tokens[k - 1]);
      && (x == Nil ==> v == Nil)
      && (mode == MODE_EVEN || !x.Str? ==> v == x)
      && (mode != MODE_EVEN && x.Str? ==> op.Ok? && KeyForm(op.value).Ok?)
      && (mode != MODE_EVEN && x.Str? && op.Ok? && KeyForm(op.value) == Ok(false) ==> v == x)
      && (mode != MODE_EVEN && x.Str? && op.Ok? && KeyForm(op.value) == Ok(true) ==>
            if |x.s| > 0 && x.s[0] == '-' then x.s[1..] in I && v == Int(-I[x.s[1..]])
            else x.s in I && v == Int(I[x.s]))
  }

  /** Slot `k` of what `keyify` returns, with the caches it converts with:
      an operator becomes the key of its id unless the mode keeps
      operators; an operand stays as it is unless it is an id of a
      key-form operator and the mode converts operands, when it becomes
      the id's key, with a leading `-` for a negative id. */
  predicate KeySlot(I: map<string, int>, K: map<int, string>, mode: int, tokens: seq<Val>, k: int, v: Val)
    requires 2 <= k < |tokens|
  {
    if k % 2 == 0 then
      (mode == MODE_ODD ==> v == tokens[k])
      && (mode != MODE_ODD ==> ResolveOp(I, tokens[k]).Ok? && KeyOf(K, ResolveOp(I, tokens[k]).value) == Ok(v))
    else
      var x := tokens[k];
      var op := ResolveOp(I, tokens[k - 1]);
      && (x == Nil ==> v == Nil)
      && (mode == MODE_EVEN || !x.Int? ==> v == x)
      && (mode != MODE_EVEN && x.Int? ==> op.Ok? && KeyForm(op.value).Ok?)
      && (mode != MODE_EVEN && x.Int? && op.Ok? && KeyForm(op.value) == Ok(false) ==> v == x)
      && (mode != MODE_EVEN && x.Int? && op.Ok? && KeyForm(op.value) == Ok(true) ==>
            if x.i >= 0 then x.i in K && v == Str(K[x.i])
            else -x.i in K && v == Str("-" + K[-x.i]))
  }

  lemma IdPairSlots(I: map<string, int>, mode: int, tokens: seq<Val>, t: nat)
    requires 2 <= t && t + 1 < |tokens| && t % 2 == 0
    requires Apply(IdPairs(I, mode), tokens[t], tokens[t + 1]).Ok?
    ensures var p := Apply(IdPairs(I, mode), tokens[t], tokens[t + 1]).value;
      |p| == 2 && IdSlot(I, mode, tokens, t, p[0]) && IdSlot(I, mode, tokens, t + 1, p[1])
  {
  }

  lemma KeyPairSlots(I: map<string, int>, K: map<int, string>, mode: int, tokens: seq<Val>, t: nat)
    requires 2 <= t && t + 1 < |tokens| && t % 2 == 0
    requires Apply(KeyPairs(I, K, mode), tokens[t], tokens[t + 1]).Ok?
    ensures var p := Apply(KeyPairs(I, K, mode), tokens[t], tokens[t + 1]).value;
      |p| == 2 && KeySlot(I, K, mode, tokens, t, p[0]) && KeySlot(I, K, mode, tokens, t + 1, p[1])
  {
  }

  /** The conversion loop of `identify` fills every slot as `IdSlot` says. */
  lemma {:induction false} IdCollect(I: map<string, int>, mode: int, tokens: seq<Val>, t: nat)
    requires 2 <= t <= |tokens| && t % 2 == 0 && Collect(IdPairs(I, mode), tokens, t).Ok?
    ensures |Collect(IdPairs(I, mode), tokens, t).value| == |tokens| - t && |tokens| % 2 == 0
    ensures forall j :: 0 <= j < |tokens| - t ==> IdSlot(I, mode, tokens, t + j, Collect(IdPairs(I, mode), tokens, t).value[j])
    decreases |tokens| - t
  {
    if t < |tokens| {
      var step := IdPairs(I, mode);
      assert t + 1 < |tokens|;
      var p := Apply(step, tokens[t], tokens[t + 1]).value;
      IdPairSlots(I, mode, tokens, t);
      IdCollect(I, mode, tokens, t + 2);
      var rest := Collect(step, tokens, t + 2).value;
      var out := Collect(step, tokens, t).value;
      assert out == p + rest;
      forall j | 0 <= j < |tokens| - t ensures IdSlot(I, mode, tokens, t + j, out[j]) {
        if j >= 2 {
          assert out[j] == rest[j - 2] && t + j == (t + 2) + (j - 2);
        } else {
          assert out[j] == p[j];
        }
      }
    }
  }

  /** The conversion loop of `keyify` fills every slot as `KeySlot` says. */
  lemma {:induction false} KeyCollect(I: map<string, int>, K: map<int, string>, mode: int, tokens: seq<Val>, t: nat)
    requires 2 <= t <= |tokens| && t % 2 == 0 && Collect(KeyPairs(I, K, mode), tokens, t).Ok?
    ensures |Collect(KeyPairs(I, K, mode), tokens, t).value| == |tokens| - t && |tokens| % 2 == 0
    ensures forall j :: 0 <= j < |tokens| - t ==> KeySlot(I, K, mode, tokens, t + j, Collect(KeyPairs(I, K, mode), tokens, t).value[j])
    decreases |tokens| - t
  {
    if t < |tokens| {
      var step := KeyPairs(I, K, mode);
      assert t + 1 < |tokens|;
      var p := Apply(step, tokens[t], tokens[t + 1]).value;
      KeyPairSlots(I, K, mode, tokens, t);
      KeyCollect(I, K, mode, tokens, t + 2);
      var rest := Collect(step, tokens, t + 2).value;
      var out := Collect(step, tokens, t).value;
      assert out == p + rest;
      forall j | 0 <= j < |tokens| - t ensures KeySlot(I, K, mode, tokens, t + j, out[j]) {
        if j >= 2 {
          assert out[j] == rest[j - 2] && t + j == (t + 2) + (j - 2);
        } else {
          assert out[j] == p[j];
        }
      }
    }
  }

  /** A successful `identify` returns the header, and then every slot
      converted as `IdSlot` says with the `I` that `namecache` leaves; the
      list keeps its length (a one-slot list gets the two-slot header). */
  lemma IdentifyConverts(c: Caches, tokens: seq<Val>, mode: int, store: seq<Row>, r: seq<Val>, d: Caches)
    requires Identification(c, tokens, mode, store) == Outcome(Ok(r), d)
    ensures tokens == [] ==> r == [] && d == c
    ensures tokens != [] ==> |r| == if |tokens| == 1 then 2 else |tokens|
    ensures tokens != [] ==> Header(c.I, tokens, mode, "id") == Ok(r[..2])
    ensures forall k :: 2 <= k < |tokens| ==> IdSlot(d.I, mode, tokens, k, r[k])
  {
    if tokens != [] {
      ResolvedParts(c, tokens, mode, store, true, r, d);
      var head := Header(c.I, tokens, mode, "id").value;
      var out := Collect(IdPairs(d.I, mode), tokens, 2).value;
      if |tokens| >= 2 {
        IdCollect(d.I, mode, tokens, 2);
        forall k | 2 <= k < |tokens| ensures IdSlot(d.I, mode, tokens, k, r[k]) {
          assert r[k] == out[k - 2] && k == 2 + (k - 2);
        }
      }
    }
  }

  /** A successful `keyify`, likewise with `KeySlot` and the `K` that
      `namecache` leaves. */
  lemma KeyifyConverts(c: Caches, tokens: seq<Val>, mode: int, store: seq<Row>, r: seq<Val>, d: Caches)
    requires Keyification(c, tokens, mode, store) == Outcome(Ok(r), d)
    ensures tokens == [] ==> r == [] && d == c
    ensures tokens != [] ==> |r| == if |tokens| == 1 then 2 else |tokens|
    ensures tokens != [] ==> Header(c.I, tokens, mode, "key") == Ok(r[..2])
    ensures forall k :: 2 <= k < |tokens| ==> KeySlot(d.I, d.K, mode, tokens, k, r[k])
  {
    if tokens != [] {
      ResolvedParts(c, tokens, mode, store, false, r, d);
      var head := Header(c.I, tokens, mode, "key").value;
      var out := Collect(KeyPairs(d.I, d.K, mode), tokens, 2).value;
      if |tokens| >= 2 {
        KeyCollect(d.I, d.K, mode, tokens, 2);
        forall k | 2 <= k < |tokens| ensures KeySlot(d.I, d.K, mode, tokens, k, r[k]) {
          assert r[k] == out[k - 2] && k == 2 + (k - 2);
        }
      }
    }
  }
}
