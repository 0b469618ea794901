/** Reading a flat token list one statement at a time, and matching a
    statement against a shape with wildcards (memelang.py lines 243-266). */
module Walker {
  import opened Base

  /** The loop of `nxt`: from `end`, step two slots at a time and stop at
      the first `;` operator, or at the end of the list. */
  function ScanStatement(tokens: seq<Val>, end: nat): (r: nat)
    ensures end < |tokens| - 2 ==> end < r <= |tokens|
    ensures end >= |tokens| - 2 ==> r == |tokens|
    ensures r < |tokens| ==> tokens[r] == Int(SEMI) && (r - end) % 2 == 0
    ensures forall k :: end < k < r && (k - end) % 2 == 0 ==> tokens[k] != Int(SEMI)
    decreases |tokens| - end
  {
    if end < |tokens| - 2 then
      if tokens[end + 2] == Int(SEMI) then end + 2 else ScanStatement(tokens, end + 2)
    else |tokens|
  }

  /** `nxt(tokens, beg)`: -1 when no statement starts at `beg`; an error
      when the slot at `beg` is not `;`; otherwise the start of the next
      statement, the next slot an even distance away that holds `;`, or
      the length of the list when there is none. */
  function Next(tokens: seq<Val>, beg: nat): (r: Result<int>)
    ensures r == Ok(-1) <==> beg > |tokens| - 2
    ensures r.Err? <==> beg <= |tokens| - 2 && tokens[beg] != Int(SEMI)
    ensures r.Err? ==> r.error == OperatorCounting
    ensures r.Ok? && r.value != -1 ==> beg < r.value <= |tokens|
    ensures r.Ok? && r.value != -1 && r.value < |tokens| ==>
      tokens[r.value] == Int(SEMI) && (r.value - beg) % 2 == 0
    ensures r.Ok? && r.value != -1 ==>
      forall k :: beg < k < r.value && (k - beg) % 2 == 0 ==> tokens[k] != Int(SEMI)
  {
    if beg > |tokens| - 2 then Ok(-1)
    else if tokens[beg] != Int(SEMI) then Err(OperatorCounting)
    else Ok(ScanStatement(tokens, beg))
  }

  /** `nxt(tokens, beg)` with its loop. */
  method NextStatement(tokens: seq<Val>, beg: nat) returns (r: Result<int>)
    ensures r == Next(tokens, beg)
  {
    if beg > |tokens| - 2 {
      return Ok(-1);
    }
    if tokens[beg] != Int(SEMI) {
      return Err(OperatorCounting);
    }
    var end := beg;
    while end < |tokens| - 2
      invariant beg <= end <= |tokens|
      invariant ScanStatement(tokens, end) == ScanStatement(tokens, beg)
      decreases |tokens| - end
    {
      end := end + 2;
      if tokens[end] == Int(SEMI) {
        return Ok(end);
      }
    }
    return Ok(|tokens|);
  }

  /** One element of a `tokfit` shape: `False` (a wildcard) or a value to
      compare with. A text at an even (operator) slot names a class
      (`'A'`, `'R'`, `'B'`, `'Q'`, `'OR'`) that the operator must have. */
  datatype Pat = Wild | Exact(v: Val)

  function FuncName(f: Func): string {
    match f
    case A => "A" case R => "R" case B => "B" case Q => "Q" case OR => "OR"
  }

  /** Python compares the shape element with `False`, so `0` is a wildcard too. */
  predicate IsWildcard(p: Pat) {
    p == Wild || p == Exact(Int(0))
  }

  /** At `p` the shape asks for the class of the operator in that slot. */
  predicate ClassTest(b: seq<Pat>, p: int)
    requires 0 <= p < |b|
  {
    !IsWildcard(b[p]) && p % 2 == 0 && b[p].v.Str?
  }

  /** At `p` the shape asks for the class of something that `OPR` lacks. */
  predicate LookupFails(a: seq<Val>, b: seq<Pat>, p: int)
    requires 0 <= p < |a| && p < |b|
  {
    ClassTest(b, p) && Info(a[p]).None?
  }

  /** Slot `p` of the tokens matches element `p` of the shape. */
  predicate Fits(a: seq<Val>, b: seq<Pat>, p: int)
    requires 0 <= p < |a| && p < |b|
  {
    if IsWildcard(b[p]) then true
    else if ClassTest(b, p) then Info(a[p]).Some? && FuncName(Info(a[p]).value.func) == b[p].v.s
    else a[p] == b[p].v
  }

  /** The loop of `tokfit` from position `p` on, returning at the first
      mismatch. */
  function FitFrom(a: seq<Val>, b: seq<Pat>, p: nat): (r: Result<bool>)
    requires |a| == |b| && p <= |b|
    ensures r == Ok(true) <==> forall q :: p <= q < |b| ==> Fits(a, b, q)
    ensures r.Err? ==> r.error == KeyError
    ensures r.Err? <==> exists q :: p <= q < |b| && LookupFails(a, b, q) && forall q' :: p <= q' < q ==> Fits(a, b, q')
    decreases |b| - p
  {
    if p == |b| then Ok(true)
    else if IsWildcard(b[p]) then FitFrom(a, b, p + 1)
    else if LookupFails(a, b, p) then assert !Fits(a, b, p); Err(KeyError)
    else if !Fits(a, b, p) then Ok(false)
    else FitFrom(a, b, p + 1)
  }

  /** `tokfit(atoks, btoks)`: whether the tokens have the shape, raising a
      KeyError when a class is asked of something that is not an operator
      before any mismatch is met. */
  function TokFit(a: seq<Val>, b: seq<Pat>): (r: Result<bool>)
    ensures |a| != |b| ==> r == Ok(false)
    ensures r == Ok(true) <==> |a| == |b| && forall p :: 0 <= p < |b| ==> Fits(a, b, p)
    ensures r.Err? <==> |a| == |b| && exists p :: 0 <= p < |b| && LookupFails(a, b, p) && forall q :: 0 <= q < p ==> Fits(a, b, q)
  {
    if |a| != |b| then Ok(false) else FitFrom(a, b, 0)
  }

  /** `tokfit(atoks, btoks)` with its loop over the shape. */
  method FitShape(a: seq<Val>, b: seq<Pat>) returns (r: Result<bool>)
    ensures r == TokFit(a, b)
  {
    if |a| != |b| {
      return Ok(false);
    }
    for p := 0 to |b|
      invariant FitFrom(a, b, p) == FitFrom(a, b, 0)
    {
      if IsWildcard(b[p]) {
      } else if LookupFails(a, b, p) {
        return Err(KeyError);
      } else if !Fits(a, b, p) {
        return Ok(false);
      }
    }
    return Ok(true);
  }

  /** A text at an operator slot is a class test, never an equality: a
      key there raises KeyError, and the class name of the slot's
      operator fits. */
  lemma TextShapeIsClassTest()
    ensures TokFit([Str("key"), Int(5)], [Exact(Str("key")), Wild]) == Err(KeyError)
    ensures TokFit([Int(SEMI), Nil], [Exact(Str("A")), Wild]) == Ok(true)
  {
    assert LookupFails([Str("key"), Int(5)], [Exact(Str("key")), Wild], 0);
  }
}
