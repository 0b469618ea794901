/** The two small string helpers of memelang.py: `morfigy`, which writes the
    parameters of a query into its `%s` placeholders for display, and
    `slugify`, which turns a name into a lower-case underscored key
    (memelang.py lines 118-129). */
module Helpers {
  import opened Base
  import opened Strings

  /** The text a parameter is written as: a string with its single quotes
      doubled, anything else through `str()`. A decimal is written as the
      literal it was read from; Python's `str()` of the float (`1.50` gives
      `1.5`, `1e3` gives `1000.0`) is not modelled. */
  function ParamText(v: Val): string {
    match v
    case Str(s) => Replace(s, "'", "''")
    case Int(i) => IntToString(i)
    case Nil => "None"
    case Dec(t) => t
  }

  /** The specification of `morfigy`: each parameter in turn replaces the
      first `%s` of the text built so far. */
  function Substitute(sql: string, params: seq<Val>): string
    decreases |params|
  {
    if params == [] then sql
    else Substitute(ReplaceFirst(sql, "%s", ParamText(params[0])), params[1..])
  }

  /** `morfigy(sql, params)`. */
  method Morfigy(sql: string, params: seq<Val>) returns (r: string)
    ensures r == Substitute(sql, params)
  {
    r := sql;
    for k := 0 to |params|
      invariant Substitute(r, params[k..]) == Substitute(sql, params)
    {
      assert params[k..][1..] == params[k + 1..];
      r := ReplaceFirst(r, "%s", ParamText(params[k]));
    }
  }

  /** Pieces of text with the given fillers between consecutive pieces. */
  function Fill(pieces: seq<string>, fillers: seq<string>): string
    requires |pieces| == |fillers| + 1
  {
    if fillers == [] then pieces[0] else pieces[0] + fillers[0] + Fill(pieces[1..], fillers[1..])
  }

  function Texts(params: seq<Val>): (r: seq<string>)
    ensures |r| == |params| && forall k :: 0 <= k < |params| ==> r[k] == ParamText(params[k])
  {
    if params == [] then [] else [ParamText(params[0])] + Texts(params[1..])
  }

  /** When neither the text nor any parameter contains `%`, `morfigy` puts
      the k-th parameter in the k-th placeholder. */
  lemma MorfigyFillsPlaceholders(pieces: seq<string>, params: seq<Val>)
    requires |pieces| == |params| + 1
    requires forall k :: 0 <= k < |pieces| ==> '%' !in pieces[k]
    requires forall k :: 0 <= k < |params| ==> '%' !in ParamText(params[k])
    ensures Substitute(Join(pieces, "%s"), params) == Fill(pieces, Texts(params))
  {
    SubstituteAfter("", pieces, params);
    assert "" + Join(pieces, "%s") == Join(pieces, "%s");
  }

  lemma {:induction false} SubstituteAfter(prefix: string, pieces: seq<string>, params: seq<Val>)
    requires '%' !in prefix
    requires |pieces| == |params| + 1
    requires forall k :: 0 <= k < |pieces| ==> '%' !in pieces[k]
    requires forall k :: 0 <= k < |params| ==> '%' !in ParamText(params[k])
    ensures Substitute(prefix + Join(pieces, "%s"), params) == prefix + Fill(pieces, Texts(params))
    decreases |params|
  {
    if params != [] {
      var rest := Join(pieces[1..], "%s");
      var head := prefix + pieces[0];
      var rep := ParamText(params[0]);
      var tail := params[1..];
      var filled := Fill(pieces[1..], Texts(tail));
      assert Join(pieces, "%s") == pieces[0] + "%s" + rest;
      Regroup(prefix, pieces[0], "%s", rest);
      ReplaceFirstAfter(head, "%s", rest, rep);
      assert Substitute(prefix + Join(pieces, "%s"), params) == Substitute(head + rep + rest, tail);
      SubstituteAfter(head + rep, pieces[1..], tail);
      assert Texts(params) == [rep] + Texts(tail);
      assert Fill(pieces, Texts(params)) == pieces[0] + rep + filled;
      Regroup(prefix, pieces[0], rep, filled);
    }
  }

  /** Characters that `slugify` keeps as they are. */
  predicate IsSlugChar(c: char) {
    IsLowerAlnum(c) || c == '_'
  }

  /** `re.sub(r'[^a-z0-9]', '_', s)` */
  function Underscore(s: string): (r: string)
    ensures |r| == |s|
    ensures forall i :: 0 <= i < |s| ==> r[i] == if IsLowerAlnum(s[i]) then s[i] else '_'
  {
    if s == [] then [] else [if IsLowerAlnum(s[0]) then s[0] else '_'] + Underscore(s[1..])
  }

  /** `re.sub(r'__+', '_', s)`: each run of two or more underscores becomes one. */
  function Collapse(s: string): string {
    if |s| < 2 then s
    else if s[0] == '_' && s[1] == '_' then Collapse(s[1..])
    else [s[0]] + Collapse(s[1..])
  }

  function StripLeft(s: string): string {
    if s != [] && s[0] == '_' then StripLeft(s[1..]) else s
  }

  function StripRight(s: string): string {
    if s != [] && s[|s| - 1] == '_' then StripRight(s[..|s| - 1]) else s
  }

  /** `s.strip('_')` */
  function Strip(s: string): string {
    StripRight(StripLeft(s))
  }

  /** `slugify(s)` */
  function Slugify(s: string): string {
    Strip(Collapse(Underscore(Lower(s))))
  }

  /** The letter-and-digit content of a text, in order. */
  function Kept(s: string): string {
    if s == [] then [] else (if IsLowerAlnum(s[0]) then [s[0]] else []) + Kept(s[1..])
  }

  /** A slug: letters, digits and single underscores, none at either end. */
  predicate IsSlug(s: string) {
    && (forall i :: 0 <= i < |s| ==> IsSlugChar(s[i]))
    && (forall i :: 0 <= i < |s| - 1 ==> !(s[i] == '_' && s[i + 1] == '_'))
    && (s != [] ==> s[0] != '_' && s[|s| - 1] != '_')
  }

  predicate SlugChars(s: string) {
    forall i :: 0 <= i < |s| ==> IsSlugChar(s[i])
  }

  predicate NoDoubleUnderscore(s: string) {
    forall i :: 0 <= i < |s| - 1 ==> !(s[i] == '_' && s[i + 1] == '_')
  }

  lemma {:induction false} KeptConcat(a: string, b: string)
    ensures Kept(a + b) == Kept(a) + Kept(b)
  {
    if a != [] {
      assert (a + b)[1..] == a[1..] + b;
      KeptConcat(a[1..], b);
    } else {
      assert a + b == b;
    }
  }

  lemma {:induction false} UnderscoreKept(s: string)
    ensures Kept(Underscore(s)) == Kept(s)
  {
    if s != [] {
      assert Underscore(s)[1..] == Underscore(s[1..]);
      UnderscoreKept(s[1..]);
    }
  }

  lemma {:induction false} CollapseFacts(s: string)
    ensures s != [] ==> Collapse(s) != [] && Collapse(s)[0] == s[0]
    ensures SlugChars(s) ==> SlugChars(Collapse(s))
    ensures NoDoubleUnderscore(Collapse(s))
    ensures Kept(Collapse(s)) == Kept(s)
    decreases |s|
  {
    if |s| >= 2 {
      CollapseFacts(s[1..]);
      if !(s[0] == '_' && s[1] == '_') {
        var r := [s[0]] + Collapse(s[1..]);
        assert r[1..] == Collapse(s[1..]);
        assert r[1] == s[1];
        forall i | 0 <= i < |r| - 1 ensures !(r[i] == '_' && r[i + 1] == '_') {
          if i > 0 {
            assert r[i] == Collapse(s[1..])[i - 1] && r[i + 1] == Collapse(s[1..])[i];
          }
        }
        assert SlugChars(s) ==> SlugChars(s[1..]);
        assert s == [s[0]] + s[1..];
      } else {
        assert Kept(s) == Kept(s[1..]);
        assert SlugChars(s) ==> SlugChars(s[1..]);
      }
    }
  }

  lemma StripLeftFacts(s: string)
    ensures StripLeft(s) != [] ==> StripLeft(s)[0] != '_'
    ensures SlugChars(s) ==> SlugChars(StripLeft(s))
    ensures NoDoubleUnderscore(s) ==> NoDoubleUnderscore(StripLeft(s))
    ensures Kept(StripLeft(s)) == Kept(s)
    ensures exists k :: 0 <= k <= |s| && StripLeft(s) == s[k..]
  {
    var k := StripLeftSuffix(s);
    StripLeftKept(s);
  }

  /** `StripLeft` keeps a suffix. */
  lemma {:induction false} StripLeftSuffix(s: string) returns (k: nat)
    ensures k <= |s| && StripLeft(s) == s[k..]
    ensures StripLeft(s) != [] ==> StripLeft(s)[0] != '_'
    decreases |s|
  {
    if s != [] && s[0] == '_' {
      var j := StripLeftSuffix(s[1..]);
      assert StripLeft(s) == StripLeft(s[1..]);
      assert s[1..][j..] == s[j + 1..];
      k := j + 1;
    } else {
      k := 0;
      assert s[0..] == s;
    }
  }

  lemma {:induction false} StripLeftKept(s: string)
    ensures Kept(StripLeft(s)) == Kept(s)
    decreases |s|
  {
    if s != [] && s[0] == '_' {
      StripLeftKept(s[1..]);
      assert Kept(s) == [] + Kept(s[1..]) == Kept(s[1..]);
    }
  }

  lemma {:induction false} StripRightFacts(s: string)
    ensures StripRight(s) != [] ==> StripRight(s)[|StripRight(s)| - 1] != '_'
    ensures SlugChars(s) ==> SlugChars(StripRight(s))
    ensures NoDoubleUnderscore(s) ==> NoDoubleUnderscore(StripRight(s))
    ensures Kept(StripRight(s)) == Kept(s)
  {
    var k := StripRightPrefix(s);
    StripRightKept(s);
  }

  /** `StripRight` keeps a prefix. */
  lemma {:induction false} StripRightPrefix(s: string) returns (k: nat)
    ensures k <= |s| && StripRight(s) == s[..k]
    ensures StripRight(s) != [] ==> StripRight(s)[|StripRight(s)| - 1] != '_'
    decreases |s|
  {
    if s != [] && s[|s| - 1] == '_' {
      var t := s[..|s| - 1];
      k := StripRightPrefix(t);
      assert t[..k] == s[..k];
    } else {
      k := |s|;
      assert s[..|s|] == s;
    }
  }

  lemma {:induction false} StripRightKept(s: string)
    ensures Kept(StripRight(s)) == Kept(s)
    decreases |s|
  {
    if s != [] && s[|s| - 1] == '_' {
      var t := s[..|s| - 1];
      StripRightKept(t);
      assert s == t + ['_'];
      KeptConcat(t, ['_']);
    }
  }

  lemma StripKeepsFirst(s: string)
    requires s != [] && s[0] != '_'
    ensures StripLeft(s) == s
  {
  }

  /** `slugify` yields a slug whose letters and digits are those of the
      lower-cased input, in order. */
  lemma SlugifyIsSlug(s: string)
    ensures IsSlug(Slugify(s))
    ensures Kept(Slugify(s)) == Kept(Lower(s))
  {
    var u := Underscore(Lower(s));
    assert SlugChars(u);
    CollapseFacts(u);
    var c := Collapse(u);
    StripLeftFacts(c);
    var l := StripLeft(c);
    StripRightFacts(l);
    var r := StripRight(l);
    var k :| 0 <= k <= |l| && r == l[..k];
    if r != [] {
      assert r[0] == l[0];
    }
    UnderscoreKept(Lower(s));
  }

  lemma {:induction false} UnderscoreOfSlugChars(s: string)
    requires SlugChars(s)
    ensures Underscore(Lower(s)) == s
  {
    LowerOfLowerAscii(s);
  }

  /** Lower-casing goes beyond ASCII: the Kelvin sign becomes `k`, and the
      capital I with a dot becomes `i` and a combining dot, which is no
      slug character. */
  lemma SlugifyUnicodeCapitals()
    ensures Slugify("\U{212a}") == "k"
    ensures Slugify("\U{130}x") == "i_x"
  {
    assert Lower("\U{212a}") == "k";
    assert Lower("\U{130}x") == "i\U{307}x";
    assert Underscore("i\U{307}x") == "i_x";
    assert Collapse("i_x") == "i_x";
  }

  lemma {:induction false} CollapseOfSingle(s: string)
    requires NoDoubleUnderscore(s)
    ensures Collapse(s) == s
    decreases |s|
  {
    if |s| >= 2 {
      assert NoDoubleUnderscore(s[1..]);
      CollapseOfSingle(s[1..]);
    }
  }

  lemma StripRightKeepsLast(s: string)
    requires s != [] && s[|s| - 1] != '_'
    ensures StripRight(s) == s
  {
  }

  /** A slug is left as it is, so `slugify` is idempotent. */
  lemma SlugifyIdempotent(s: string)
    ensures IsSlug(s) ==> Slugify(s) == s
    ensures Slugify(Slugify(s)) == Slugify(s)
  {
    forall t | IsSlug(t) ensures Slugify(t) == t {
      UnderscoreOfSlugChars(t);
      CollapseOfSingle(t);
      if t != [] {
        StripKeepsFirst(t);
        StripRightKeepsLast(t);
      }
    }
    SlugifyIsSlug(s);
  }
}
