/** Packing a token list into one big integer and back (memelang.py lines
    268-309). Each `[operator, operand]` pair after the two-slot header
    becomes one 64-bit chunk: the operator in the top seven bits, the
    operand as a 57-bit two's-complement field; the first pair sits in the
    lowest chunk, and the bit 2^63 above the last chunk marks version 1. */
module Codec {
  import opened Base

  const SENTINEL: nat := 0x8000_0000_0000_0000      // 1 << 63
  const CHUNK: nat := 0x1_0000_0000_0000_0000       // 1 << 64
  const SPAN: nat := 0x200_0000_0000_0000           // 1 << 57, the operand field
  const LIMIT: nat := 0x100_0000_0000_0000          // 1 << 56
  const SCALE: nat := 1_000_000_000                 // decimals are stored times 10^9

  /** The operand as `compress` stores it: 0 for a missing one, an
      integer times 10^9 under a decimal comparator, otherwise the
      integer itself. */
  function Scaled(operator: Val, operand: Val): Result<int> {
    if operand.Nil? then Ok(0)
    else if Info(operator).None? then Err(KeyError)
    else if Info(operator).value.form == FLOAT then
      (if operand.Int? then Ok(operand.i * SCALE) else Err(Unsupported))
    else if operand.Int? then Ok(operand.i)
    else if operand.Str? then Err(TypeError)
    else Err(Unsupported)
  }

  /** `compress` rejects an operator outside [0,127) with OperatorRange, and
      then an operand outside [-2^56, 2^56) with OperandRange; a pair whose
      operator is an integer and whose operand converts packs iff both
      are in range. */
  lemma PackPairRanges(operator: Val, operand: Val)
    requires operator.Int? && Scaled(operator, operand).Ok?
    ensures var x := Scaled(operator, operand).value;
      && (PackPair(operator, operand) == Err(OperatorRange) <==> !(0 <= operator.i < 127))
      && (PackPair(operator, operand) == Err(OperandRange) <==> 0 <= operator.i < 127 && !(-(LIMIT as int) <= x < LIMIT))
      && (PackPair(operator, operand).Ok? <==> 0 <= operator.i < 127 && -(LIMIT as int) <= x < LIMIT)
  {
  }

  /** The operand is refused before either range is looked at: a missing
      operand is 0; an operand of an id outside `OPR` raises KeyError, a
      text operand TypeError. */
  lemma ScaledErrors(operator: Val, operand: Val)
    ensures Scaled(operator, operand).Ok? <==>
      operand.Nil? || (Info(operator).Some? && operand.Int?)
    ensures Scaled(operator, operand) == Err(KeyError) <==> !operand.Nil? && Info(operator).None?
    ensures Scaled(operator, Nil) == Ok(0)
    ensures PackPair(operator, operand).Err? && Scaled(operator, operand).Err? ==>
      PackPair(operator, operand) == Scaled(operator, operand)
  {
  }

  /** The chunk `compress` builds for one pair, or the exception it raises,
      checked in the source's order: the operand (a missing one counts as 0,
      under a decimal comparator an integer is scaled), then the operator's
      range, then the operand's. With the operator in [0,127),
      `((operator & 127) << 57) | (operand & (2^57 - 1))` is
      `operator * 2^57 + operand mod 2^57`. */
  function PackPair(operator: Val, operand: Val): (r: Result<int>)
    ensures r.Ok? ==> 0 <= r.value < CHUNK
  {
    var scaled := Scaled(operator, operand);
    if scaled.Err? then Err(scaled.error)
    else if operator.Dec? then Err(Unsupported)
    else if !operator.Int? then Err(TypeError)
    else if !(0 <= operator.i < 127) then Err(OperatorRange)
    else if !(-(LIMIT as int) <= scaled.value < LIMIT) then Err(OperandRange)
    else Ok(operator.i * SPAN + scaled.value % SPAN)
  }

  /** The pairs `ps` packed above the sentinel, first pair lowest. The
      source works from the last pair down, so the error it raises is that
      of the last pair that fails. */
  function PackPairs(ps: seq<Val>): (r: Result<int>)
    requires |ps| % 2 == 0
    ensures r.Ok? ==> r.value >= SENTINEL
    decreases |ps|
  {
    if ps == [] then Ok(SENTINEL)
    else match PackPairs(ps[2..])
      case Err(e) => Err(e)
      case Ok(rest) =>
        match PackPair(ps[0], ps[1])
        case Err(e) => Err(e)
        case Ok(c) => Ok(rest * CHUNK + c)
  }

  /** What `compress` returns or raises; the header pair is not stored. */
  function Packed(tokens: seq<Val>): Result<int> {
    if |tokens| % 2 == 1 then Err(OddTokenCount)
    else if |tokens| == 0 then Ok(SENTINEL)
    else PackPairs(tokens[2..])
  }

  /** `compress(tokens)` */
  method Compress(tokens: seq<Val>) returns (r: Result<int>)
    ensures r == Packed(tokens)
  {
    var tlen := |tokens|;
    if tlen % 2 == 1 {
      return Err(OddTokenCount);
    }
    var bigint := SENTINEL;
    var t := tlen - 1;
    while t > 2
      invariant -1 <= t <= tlen - 1 && t % 2 == 1
      invariant tlen >= 2 ==> t >= 1 && PackPairs(tokens[t + 1..]) == Ok(bigint)
      invariant tlen == 0 ==> bigint == SENTINEL
      decreases t
    {
      var operand, operator := tokens[t], tokens[t - 1];
      var chunk := PackPair(operator, operand);
      PackStep(tokens, t);
      if chunk.Err? {
        return Err(chunk.error);
      }
      bigint := bigint * CHUNK + chunk.value;
      t := t - 2;
    }
    return Ok(bigint);
  }

  /** One step of the loop of `compress`, from the pairs after `t` to the
      pairs from `t - 1`. */
  lemma PackStep(tokens: seq<Val>, t: int)
    requires |tokens| % 2 == 0 && 3 <= t < |tokens| && t % 2 == 1
    ensures PackPairs(tokens[t - 1..]) == match PackPairs(tokens[t + 1..])
      case Err(e) => Err(e)
      case Ok(rest) => (match PackPair(tokens[t - 1], tokens[t])
        case Err(e) => Err(e)
        case Ok(c) => Ok(rest * CHUNK + c))
    ensures PackPairs(tokens[t - 1..]).Err? ==> Packed(tokens) == PackPairs(tokens[t - 1..])
  {
    assert tokens[t - 1..][2..] == tokens[t + 1..];
    if PackPairs(tokens[t - 1..]).Err? {
      PackErrorSpreads(tokens[2..], t - 3);
      assert tokens[2..][t - 3..] == tokens[t - 1..];
    }
  }

  /** An error in the pairs from `j` on is the error of all of them. */
  lemma {:induction false} PackErrorSpreads(ps: seq<Val>, j: nat)
    requires |ps| % 2 == 0 && j <= |ps| && j % 2 == 0
    requires PackPairs(ps[j..]).Err?
    ensures PackPairs(ps) == PackPairs(ps[j..])
    decreases j
  {
    if j > 0 {
      assert ps[2..][j - 2..] == ps[j..];
      PackErrorSpreads(ps[2..], j - 2);
    } else {
      assert ps[0..] == ps;
    }
  }

  /** One `[operator, operand]` pair of a token list. */
  datatype Pair = Pair(operator: Val, operand: Val)

  /** One chunk read back by `decompress`: the operator from the top seven
      bits, the operand sign-extended from 57 bits; zero means no operand,
      and a decimal comparator's operand would become a float. */
  function UnpackChunk(chunk: int): Result<Pair>
    requires 0 <= chunk < CHUNK
  {
    var operator := chunk / SPAN;
    var raw := chunk % SPAN;
    var operand := if raw >= LIMIT then raw - SPAN else raw;
    if operand == 0 then Ok(Pair(Int(operator), Nil))
    else if Opr(operator).None? then Err(KeyError)
    else if Opr(operator).value.form == FLOAT then Err(Unsupported)
    else Ok(Pair(Int(operator), Int(operand)))
  }

  /** The pairs above the low chunks of `b`, lowest first, until the
      sentinel is all that is left. */
  function UnpackFrom(b: nat): (r: Result<seq<Val>>)
    ensures r.Ok? ==> |r.value| % 2 == 0
    decreases b
  {
    if b > SENTINEL then
      match UnpackChunk(b % CHUNK)
      case Err(e) => Err(e)
      case Ok(pair) =>
        match UnpackFrom(b / CHUNK)
        case Err(e) => Err(e)
        case Ok(rest) => Ok([pair.operator, pair.operand] + rest)
    else if b == SENTINEL then Ok([])
    else Err(VersionError)
  }

  /** What `decompress` returns or raises; the header comes back as
      `[id, id]`. */
  function Unpacked(b: int): Result<seq<Val>> {
    if b < SENTINEL then Err(BelowSentinel)
    else Prefixed([Int(ID), Int(ID)], UnpackFrom(b))
  }

  function Prefixed(pre: seq<Val>, r: Result<seq<Val>>): Result<seq<Val>> {
    match r
    case Err(e) => Err(e)
    case Ok(s) => Ok(pre + s)
  }

  /** What is left of `b` once the loop of `decompress` has shifted out
      every chunk above the sentinel. */
  function Leftover(b: nat): (r: nat)
    ensures r <= SENTINEL
    decreases b
  {
    if b > SENTINEL then Leftover(b / CHUNK) else b
  }

  /** Every chunk the loop of `decompress` reads converts. */
  predicate ChunksConvert(b: nat)
    decreases b
  {
    b > SENTINEL ==> UnpackChunk(b % CHUNK).Ok? && ChunksConvert(b / CHUNK)
  }

  /** The loop fails iff a chunk does not convert, or what is left is not
      the sentinel, and then with VersionError; a chunk that does not
      convert raises KeyError or Unsupported. */
  lemma {:induction false} UnpackFromErrors(b: nat)
    ensures UnpackFrom(b).Ok? <==> ChunksConvert(b) && Leftover(b) == SENTINEL
    ensures UnpackFrom(b) == Err(VersionError) <==> ChunksConvert(b) && Leftover(b) != SENTINEL
    ensures UnpackFrom(b).Err? ==> UnpackFrom(b).error in {VersionError, KeyError, Unsupported}
    decreases b
  {
    if b > SENTINEL {
      UnpackFromErrors(b / CHUNK);
    }
  }

  /** `decompress` raises BelowSentinel iff its input is below 2^63, and
      VersionError iff every chunk converts but what is left after them is
      not 2^63. */
  lemma DecompressErrors(b: int)
    ensures Unpacked(b) == Err(BelowSentinel) <==> b < SENTINEL
    ensures b >= SENTINEL ==>
      (Unpacked(b) == Err(VersionError) <==> ChunksConvert(b) && Leftover(b) != SENTINEL)
    ensures b >= SENTINEL ==>
      (Unpacked(b).Ok? <==> ChunksConvert(b) && Leftover(b) == SENTINEL)
  {
    if b >= SENTINEL {
      UnpackFromErrors(b);
    }
  }

  /** `decompress(bigint)` */
  method Decompress(b: int) returns (r: Result<seq<Val>>)
    ensures r == Unpacked(b)
  {
    if b < SENTINEL {
      return Err(BelowSentinel);
    }
    var pairs := [Int(ID), Int(ID)];
    var bigint: nat := b;
    while bigint > SENTINEL
      invariant Unpacked(b) == Prefixed(pairs, UnpackFrom(bigint))
      decreases bigint
    {
      var chunk := bigint % CHUNK;
      var next := bigint / CHUNK;
      var pair := UnpackChunk(chunk);
      if pair.Err? {
        return Err(pair.error);
      }
      assert UnpackFrom(bigint) == Prefixed([pair.value.operator, pair.value.operand], UnpackFrom(next));
      if UnpackFrom(next).Ok? {
        assert pairs + ([pair.value.operator, pair.value.operand] + UnpackFrom(next).value)
          == (pairs + [pair.value.operator, pair.value.operand]) + UnpackFrom(next).value;
      }
      pairs := pairs + [pair.value.operator, pair.value.operand];
      bigint := next;
    }
    if bigint != SENTINEL {
      return Err(VersionError);
    }
    assert pairs + [] == pairs;
    return Ok(pairs);
  }

  /** A pair `compress` accepts and `decompress` gives back: an operator in
      range, and either no operand or an integer operand of an operator of
      `OPR`, in range, and zero under a decimal comparator (a non-zero one
      would come back as a float). */
  predicate Packable(operator: Val, operand: Val) {
    && operator.Int? && 0 <= operator.i < 127
    && (operand.Nil? ||
        (&& Info(operator).Some? && operand.Int? && -(LIMIT as int) <= operand.i < LIMIT
         && (Info(operator).value.form == FLOAT ==> operand.i == 0)))
  }

  predicate AllPackable(ps: seq<Val>)
    requires |ps| % 2 == 0
  {
    forall j :: 0 <= j < |ps| - 1 && j % 2 == 0 ==> Packable(ps[j], ps[j + 1])
  }

  /** A zero operand comes back as no operand. */
  function Restore(ps: seq<Val>): (r: seq<Val>)
    requires |ps| % 2 == 0
    ensures |r| == |ps|
    decreases |ps|
  {
    if ps == [] then [] else [ps[0], if ps[1] == Int(0) then Nil else ps[1]] + Restore(ps[2..])
  }

  lemma PairRoundTrip(operator: Val, operand: Val)
    requires Packable(operator, operand)
    ensures PackPair(operator, operand).Ok?
    ensures UnpackChunk(PackPair(operator, operand).value)
      == Ok(Pair(operator, if operand == Int(0) then Nil else operand))
  {
    var n := if operand.Nil? then 0 else operand.i;
    var x := n % SPAN;
    var c := operator.i * SPAN + x;
    assert PackPair(operator, operand) == Ok(c);
    assert c / SPAN == operator.i && c % SPAN == x;
    assert (if x >= LIMIT then x - SPAN else x) == n;
  }

  lemma {:induction false} PackPairsRoundTrip(ps: seq<Val>)
    requires |ps| % 2 == 0 && AllPackable(ps)
    ensures PackPairs(ps).Ok?
    ensures UnpackFrom(PackPairs(ps).value) == Ok(Restore(ps))
    decreases |ps|
  {
    if ps != [] {
      TailPackable(ps);
      PackPairsRoundTrip(ps[2..]);
      PairRoundTrip(ps[0], ps[1]);
      var rest := PackPairs(ps[2..]).value;
      var c := PackPair(ps[0], ps[1]).value;
      var b := rest * CHUNK + c;
      assert PackPairs(ps) == Ok(b);
      ChunkSplit(rest, c);
      UnpackStep(b);
      var pair := Pair(ps[0], if ps[1] == Int(0) then Nil else ps[1]);
      assert UnpackFrom(b) == Prefixed([pair.operator, pair.operand], Ok(Restore(ps[2..])));
    }
  }

  lemma TailPackable(ps: seq<Val>)
    requires |ps| % 2 == 0 && |ps| >= 2 && AllPackable(ps)
    ensures Packable(ps[0], ps[1]) && AllPackable(ps[2..])
  {
    assert PairAt(ps, 0);
    forall j | 0 <= j < |ps| - 3 && j % 2 == 0 ensures Packable(ps[2..][j], ps[2..][j + 1]) {
      assert PairAt(ps, j + 2);
    }
  }

  /** The low chunk and the rest of a packed number. */
  lemma ChunkSplit(rest: int, c: int)
    requires 0 <= c < CHUNK
    ensures (rest * CHUNK + c) % CHUNK == c && (rest * CHUNK + c) / CHUNK == rest
  {
  }

  lemma UnpackStep(b: nat)
    requires b > SENTINEL
    ensures UnpackFrom(b) == (match UnpackChunk(b % CHUNK)
      case Err(e) => Err(e)
      case Ok(pair) => Prefixed([pair.operator, pair.operand], UnpackFrom(b / CHUNK)))
  {
  }

  /** `decompress(compress(tokens))` gives back the pairs after the header,
      with zero operands turned into `None`, behind an `[id, id]` header. */
  lemma CompressRoundTrip(tokens: seq<Val>)
    requires |tokens| % 2 == 0 && |tokens| >= 2 && AllPackable(tokens[2..])
    ensures Packed(tokens).Ok?
    ensures Unpacked(Packed(tokens).value) == Ok([Int(ID), Int(ID)] + Restore(tokens[2..]))
  {
    PackPairsRoundTrip(tokens[2..]);
  }

  /** Pair `j` of `ps` counted from `k`. */
  predicate PairAt(ps: seq<Val>, j: int) {
    0 <= j < |ps| - 1 && j % 2 == 0
  }

  /** Every pair of `ps` past index `j` packs. */
  ghost predicate PackAfter(ps: seq<Val>, j: int) {
    forall k :: PairAt(ps, k) && k > j ==> PackPair(ps[k], ps[k + 1]).Ok?
  }

  /** Dropping the first pair moves the indices down by two. */
  lemma PackAfterTail(ps: seq<Val>, j: int)
    requires |ps| >= 2 && |ps| % 2 == 0 && j >= -2
    ensures PackAfter(ps, j + 2) <==> PackAfter(ps[2..], j)
  {
    var tail := ps[2..];
    if PackAfter(ps, j + 2) {
      forall k | PairAt(tail, k) && k > j ensures PackPair(tail[k], tail[k + 1]).Ok? {
        assert PairAt(ps, k + 2);
      }
    }
    if PackAfter(tail, j) {
      forall k | PairAt(ps, k) && k > j + 2 ensures PackPair(ps[k], ps[k + 1]).Ok? {
        assert PairAt(tail, k - 2);
      }
    }
  }

  /** The first pair and the rest. */
  lemma PackAfterHead(ps: seq<Val>)
    requires |ps| >= 2 && |ps| % 2 == 0
    ensures PackAfter(ps, -1) <==> PackPair(ps[0], ps[1]).Ok? && PackAfter(ps[2..], -1)
  {
    assert PairAt(ps, 0);
    PackAfterTail(ps, -2);
    assert PackAfter(ps[2..], -1) == PackAfter(ps[2..], -2);
  }

  /** `compress` succeeds exactly when every pair packs. */
  lemma {:induction false} PackPairsOk(ps: seq<Val>)
    requires |ps| % 2 == 0
    ensures PackPairs(ps).Ok? <==> PackAfter(ps, -1)
    decreases |ps|
  {
    if ps != [] {
      PackPairsOk(ps[2..]);
      PackAfterHead(ps);
    }
  }

  /** When `compress` fails, it fails with the error of the last pair that
      fails, whose index is `j`. */
  lemma {:induction false} PackPairsLastError(ps: seq<Val>) returns (j: int)
    requires |ps| % 2 == 0 && PackPairs(ps).Err?
    ensures PairAt(ps, j) && PackPairs(ps) == PackPair(ps[j], ps[j + 1]) && PackAfter(ps, j)
    decreases |ps|
  {
    var tail := ps[2..];
    if PackPairs(tail).Err? {
      var i := PackPairsLastError(tail);
      j := i + 2;
      assert PairAt(tail, i);
      assert PackPairs(ps) == PackPairs(tail);
      assert tail[i] == ps[j] && tail[i + 1] == ps[j + 1];
      PackAfterTail(ps, i);
    } else {
      j := 0;
      PackPairsOk(tail);
      PackAfterTail(ps, -2);
      assert PackAfter(tail, -1) == PackAfter(tail, -2);
    }
  }

  /** `compress` fails exactly when a pair fails, and then with the error of
      the last pair that fails, whose index is `j`. */
  lemma PackPairsErrors(ps: seq<Val>) returns (j: int)
    requires |ps| % 2 == 0
    ensures PackPairs(ps).Ok? <==> forall k :: PairAt(ps, k) ==> PackPair(ps[k], ps[k + 1]).Ok?
    ensures PackPairs(ps).Err? ==> PairAt(ps, j) && PackPairs(ps) == PackPair(ps[j], ps[j + 1])
    ensures PackPairs(ps).Err? ==> forall k :: PairAt(ps, k) && k > j ==> PackPair(ps[k], ps[k + 1]).Ok?
  {
    PackPairsOk(ps);
    j := 0;
    if PackPairs(ps).Err? {
      j := PackPairsLastError(ps);
    }
  }

  /** `compress` rejects an odd token count first of all. */
  lemma CompressOddCount(tokens: seq<Val>)
    requires |tokens| % 2 == 1
    ensures Packed(tokens) == Err(OddTokenCount)
  {
  }

  /** `decompress` returns only lists whose operators are below 128, and
      every one of them except those with operator field 127 and no
      operand is what `compress` makes of it. */
  lemma {:induction false} DecompressRoundTrip(b: nat)
    requires UnpackFrom(b).Ok?
    requires forall j :: PairAt(UnpackFrom(b).value, j) ==> UnpackFrom(b).value[j] != Int(127)
    ensures PackPairs(UnpackFrom(b).value) == Ok(b)
    decreases b
  {
    var ps := UnpackFrom(b).value;
    if b > SENTINEL {
      var c := b % CHUNK;
      var pair := UnpackChunk(c).value;
      var rest := UnpackFrom(b / CHUNK).value;
      assert ps == [pair.operator, pair.operand] + rest;
      assert ps[2..] == rest;
      forall j | PairAt(rest, j) ensures rest[j] != Int(127) {
        assert PairAt(ps, j + 2);
      }
      DecompressRoundTrip(b / CHUNK);
      assert PairAt(ps, 0);
      ChunkRoundTrip(c);
      assert b == (b / CHUNK) * CHUNK + c;
    }
  }

  /** The operator and operand fields of a chunk. */
  lemma OperatorField(o: int, x: int)
    requires 0 <= o < 128 && 0 <= x < SPAN
    ensures (o * SPAN + x) / SPAN == o && (o * SPAN + x) % SPAN == x
  {
  }

  lemma ChunkRoundTrip(c: int)
    requires 0 <= c < CHUNK && UnpackChunk(c).Ok? && UnpackChunk(c).value.operator != Int(127)
    ensures PackPair(UnpackChunk(c).value.operator, UnpackChunk(c).value.operand) == Ok(c)
  {
    var o := c / SPAN;
    var raw := c % SPAN;
    assert c == o * SPAN + raw;
    assert o < 128;
    var n := if raw >= LIMIT then raw - SPAN else raw;
    assert n % SPAN == raw;
  }

  /** An operator field of 127 with no operand decompresses, but `compress`
      refuses to write that operator back. */
  lemma DecompressAcceptsUncompressible()
    ensures Unpacked(SENTINEL * CHUNK + 127 * SPAN) == Ok([Int(ID), Int(ID), Int(127), Nil])
    ensures Packed([Int(ID), Int(ID), Int(127), Nil]) == Err(OperatorRange)
  {
    var b := SENTINEL * CHUNK + 127 * SPAN;
    ChunkSplit(SENTINEL, 127 * SPAN);
    OperatorField(127, 0);
    UnpackStep(b);
    assert b % CHUNK == 127 * SPAN + 0;
    assert UnpackChunk(b % CHUNK) == Ok(Pair(Int(127), Nil));
    assert UnpackFrom(b / CHUNK) == Ok([]);
    assert [Int(127), Nil] + [] == [Int(127), Nil];
    assert UnpackFrom(b) == Ok([Int(127), Nil]);
    assert b >= SENTINEL;
    assert [Int(ID), Int(ID)] + [Int(127), Nil] == [Int(ID), Int(ID), Int(127), Nil];
    var ps := [Int(127), Nil];
    assert ps[2..] == [];
    assert PackPair(Int(127), Nil) == Err(OperatorRange);
    assert [Int(ID), Int(ID), Int(127), Nil][2..] == [Int(127), Nil];
  }
}
