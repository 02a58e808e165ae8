/**
 * The expansion algebra: every construct of a rule body denotes a set of
 * productions (symbol-name sequences).  Elements in an alternative combine by
 * cross product, alternatives by union, an optional group adds the empty
 * production, a mandatory group is its alternatives, and a repetition stands
 * for one reference to a synthetic `..._list` nonterminal per repeated unit.
 */
module Expansion {

  import opened Syntax

  /** A right-hand side as it is printed: symbol names in source order. */
  type Production = seq<string>

  /** A set of right-hand sides; equal productions collapse. */
  type Alternatives = set<Production>

  predicate Separator(c: char) {
    c == ' ' || c == '-'
  }

  /** Nonterminal display name: every space and hyphen becomes `_`. */
  function Normalize(name: string): (r: string)
    ensures |r| == |name|
    ensures forall k | 0 <= k < |name| :: r[k] == (if Separator(name[k]) then '_' else name[k])
  {
    seq(|name|, k requires 0 <= k < |name| => if Separator(name[k]) then '_' else name[k])
  }

  /** Nonterminals are normalised; terminals keep their spelling, quotes and escapes included. */
  function SymbolName(s: Symbol): string {
    match s
    case Nonterminal(n) => Normalize(n)
    case Terminal(w) => w
  }

  /** Symbol names joined by `_`. */
  function Join(p: Production): string {
    if p == [] then ""
    else if |p| == 1 then p[0]
    else p[0] + "_" + Join(p[1..])
  }

  /** Name of the synthetic nonterminal for one or more repetitions of `unit`. */
  function ListName(unit: Production): string {
    Join(unit) + "_list"
  }

  /** Right-hand sides of that nonterminal: the unit, and the list followed by the unit. */
  function ListRule(unit: Production): (r: Alternatives)
    ensures |r| == 2
  {
    var left := [ListName(unit)] + unit;
    assert |left| != |unit|;
    {unit, left}
  }

  /** Every production of `a` followed by every production of `b`. */
  function Concat(a: Alternatives, b: Alternatives): Alternatives {
    set x, y | x in a && y in b :: x + y
  }

  /** `[ ... ]`: the alternatives plus the empty production. */
  function Optional(a: Alternatives): Alternatives {
    a + {[]}
  }

  /** `u...`: each unit production is replaced by one reference to its list. */
  function RepeatRefs(units: Alternatives): Alternatives {
    set u | u in units :: [ListName(u)]
  }

  function Expand(e: Element): Alternatives {
    match e
    case Sym(s) => {[SymbolName(s)]}
    case Opt(body) => Optional(ExpandBody(body))
    case Group(body) => ExpandBody(body)
    case Repeat(u) => RepeatRefs(Expand(u))
  }

  /** Elements in source order, folded left to right with Concat. */
  function ExpandSequence(es: seq<Element>): Alternatives {
    if es == [] then {[]}
    else Concat(ExpandSequence(es[..|es| - 1]), Expand(es[|es| - 1]))
  }

  function ExpandAlternative(a: Alternative): Alternatives {
    ExpandSequence(a.elements)
  }

  /** Alternatives folded left to right with union; no alternatives, no productions. */
  function ExpandBody(body: seq<Alternative>): Alternatives {
    if body == [] then {}
    else ExpandBody(body[..|body| - 1]) + ExpandAlternative(body[|body| - 1])
  }

  /** The units of every repetition inside an element: each gets its list nonterminal. */
  function ElementUnits(e: Element): Alternatives {
    match e
    case Sym(_) => {}
    case Opt(body) => BodyUnits(body)
    case Group(body) => BodyUnits(body)
    case Repeat(u) => ElementUnits(u) + Expand(u)
  }

  function SequenceUnits(es: seq<Element>): Alternatives {
    if es == [] then {}
    else SequenceUnits(es[..|es| - 1]) + ElementUnits(es[|es| - 1])
  }

  function AlternativeUnits(a: Alternative): Alternatives {
    SequenceUnits(a.elements)
  }

  function BodyUnits(body: seq<Alternative>): Alternatives {
    if body == [] then {}
    else BodyUnits(body[..|body| - 1]) + AlternativeUnits(body[|body| - 1])
  }

  // ---------------------------------------------------------------------------
  // Laws of the algebra
  // ---------------------------------------------------------------------------

  /** A name is normalised once: normalising again changes nothing. */
  lemma {:induction false} NormalizeIdempotent(name: string)
    ensures Normalize(Normalize(name)) == Normalize(name)
    ensures forall k | 0 <= k < |name| :: !Separator(Normalize(name)[k])
  {
  }

  lemma {:induction false} ConcatSingletons(x: Production, y: Production)
    ensures Concat({x}, {y}) == {x + y}
  {
  }

  /** The empty production is the unit of Concat on both sides. */
  lemma {:induction false} ConcatUnit(a: Alternatives)
    ensures Concat({[]}, a) == a
    ensures Concat(a, {[]}) == a
  {
    ConcatUnitLeft(a);
    ConcatUnitRight(a);
  }

  lemma {:induction false} ConcatUnitLeft(a: Alternatives)
    ensures Concat({[]}, a) == a
  {
    forall p | p in a ensures p in Concat({[]}, a) {
      assert [] + p == p;
    }
    forall p | p in Concat({[]}, a) ensures p in a {
      var x, y :| x in {[]} && y in a && p == x + y;
      assert |x| == 0;
      assert p == y;
    }
  }

  lemma {:induction false} ConcatUnitRight(a: Alternatives)
    ensures Concat(a, {[]}) == a
  {
    forall p | p in a ensures p in Concat(a, {[]}) {
      assert p + [] == p;
    }
    forall p | p in Concat(a, {[]}) ensures p in a {
      var x, y :| x in a && y in {[]} && p == x + y;
      assert |y| == 0;
      assert p == x;
    }
  }

  /** An empty set of alternatives absorbs every Concat. */
  lemma {:induction false} ConcatZero(a: Alternatives)
    ensures Concat({}, a) == {} && Concat(a, {}) == {}
  {
  }

  lemma {:induction false} ConcatAssociative(a: Alternatives, b: Alternatives, c: Alternatives)
    ensures Concat(Concat(a, b), c) == Concat(a, Concat(b, c))
  {
    forall p | p in Concat(Concat(a, b), c) ensures p in Concat(a, Concat(b, c)) {
      var xy, z :| xy in Concat(a, b) && z in c && p == xy + z;
      var x, y :| x in a && y in b && xy == x + y;
      assert y + z in Concat(b, c);
      assert p == x + (y + z);
    }
    forall p | p in Concat(a, Concat(b, c)) ensures p in Concat(Concat(a, b), c) {
      var x, yz :| x in a && yz in Concat(b, c) && p == x + yz;
      var y, z :| y in b && z in c && yz == y + z;
      assert x + y in Concat(a, b);
      assert p == (x + y) + z;
    }
  }

  lemma {:induction false} ConcatDistributes(a: Alternatives, b: Alternatives, c: Alternatives)
    ensures Concat(a + b, c) == Concat(a, c) + Concat(b, c)
    ensures Concat(c, a + b) == Concat(c, a) + Concat(c, b)
  {
  }

  /** The cross product has at most |a| * |b| productions; fewer when
      different pairs append to the same production (ConcatCollapse). */
  lemma {:induction false} ConcatSize(a: Alternatives, b: Alternatives)
    ensures |Concat(a, b)| <= |a| * |b|
    decreases |a|
  {
    if a == {} {
      ConcatZero(b);
    } else {
      var x :| x in a;
      var rest := a - {x};
      assert a == rest + {x};
      ConcatDistributes(rest, {x}, b);
      ConcatSize(rest, b);
      PrefixSize(x, b);
      assert |Concat(a, b)| <= |Concat(rest, b)| + |Concat({x}, b)|;
    }
  }

  /** Appending every production of `b` to one prefix gives exactly |b| productions. */
  lemma {:induction false} PrefixSize(x: Production, b: Alternatives)
    ensures |Concat({x}, b)| == |b|
    decreases |b|
  {
    if b == {} {
      ConcatZero({x});
    } else {
      var y :| y in b;
      var rest := b - {y};
      assert b == rest + {y};
      ConcatDistributes(rest, {y}, {x});
      ConcatSingletons(x, y);
      PrefixSize(x, rest);
      forall y' | y' in rest ensures x + y != x + y' {
        SplitPoints(x, y, x, y');
      }
      assert |Concat({x}, b)| == |Concat({x}, rest)| + 1;
    }
  }

  /** No production of `a` is a proper prefix of another one. */
  predicate PrefixFree(a: Alternatives) {
    forall x, y | x in a && y in a && |x| <= |y| && y[..|x|] == x :: x == y
  }

  /** No production of `b` is a proper suffix of another one. */
  predicate SuffixFree(b: Alternatives) {
    forall x, y | x in b && y in b && |x| <= |y| && y[|y| - |x|..] == x :: x == y
  }

  /** Where two ways of writing one production as a concatenation agree. */
  lemma {:induction false} SplitPoints(x: Production, y: Production, x': Production, y': Production)
    ensures x + y == x' + y' && |x| <= |x'| ==> x'[..|x|] == x
    ensures x + y == x' + y' && |y| <= |y'| ==> y'[|y'| - |y|..] == y
    ensures x + y == x' + y' ==> x == (x' + y')[..|x|] && y == (x' + y')[|x|..]
  {
    var p := x + y;
    assert x == p[..|x|] && y == p[|x|..];
    if p == x' + y' && |x| <= |x'| {
      assert x'[..|x|] == p[..|x|];
    }
    if p == x' + y' && |y| <= |y'| {
      assert y'[|y'| - |y|..] == p[|p| - |y|..];
    }
  }

  /** When `a` is prefix-free or `b` suffix-free, a production of the cross
      product comes from one pair only. */
  lemma {:induction false} ConcatSplitUnique(a: Alternatives, b: Alternatives, x: Production, y: Production, x': Production, y': Production)
    requires PrefixFree(a) || SuffixFree(b)
    requires x in a && x' in a && y in b && y' in b
    ensures x + y == x' + y' ==> x == x' && y == y'
  {
    SplitPoints(x, y, x', y');
    SplitPoints(x', y', x, y);
  }

  /** When no production splits two ways, the cross product has exactly
      |a| * |b| productions. */
  lemma {:induction false} ConcatSizeExact(a: Alternatives, b: Alternatives)
    requires PrefixFree(a) || SuffixFree(b)
    ensures |Concat(a, b)| == |a| * |b|
    decreases |a|
  {
    if a == {} {
      ConcatZero(b);
    } else {
      var x :| x in a;
      var rest := a - {x};
      assert a == rest + {x};
      PrefixFreeSubset(a, rest);
      ConcatDistributes(rest, {x}, b);
      ConcatSizeExact(rest, b);
      PrefixSize(x, b);
      ConcatDisjoint(a, b, x);
      DisjointUnionSize(Concat(rest, b), Concat({x}, b));
      assert Concat(a, b) == Concat(rest, b) + Concat({x}, b);
      assert |a| == |rest| + 1;
      MultiplySucc(|rest|, |b|);
    }
  }

  lemma {:induction false} PrefixFreeSubset(a: Alternatives, c: Alternatives)
    requires c <= a
    ensures PrefixFree(a) ==> PrefixFree(c)
  {
  }

  lemma {:induction false} MultiplySucc(n: nat, m: nat)
    ensures (n + 1) * m == n * m + m
  {
  }

  lemma {:induction false} DisjointUnionSize(s: Alternatives, t: Alternatives)
    requires s * t == {}
    ensures |s + t| == |s| + |t|
  {
  }

  /** Productions from one prefix of `a` and from the others are distinct. */
  lemma {:induction false} ConcatDisjoint(a: Alternatives, b: Alternatives, x: Production)
    requires PrefixFree(a) || SuffixFree(b)
    requires x in a
    ensures Concat(a - {x}, b) * Concat({x}, b) == {}
  {
    forall p | p in Concat(a - {x}, b) ensures p !in Concat({x}, b) {
      var x1, y1 :| x1 in a - {x} && y1 in b && p == x1 + y1;
      forall y2 | y2 in b ensures p != x + y2 {
        ConcatSplitUnique(a, b, x1, y1, x, y2);
      }
    }
  }

  /** Every production of `a` followed by one production: exactly |a| productions. */
  lemma {:induction false} SuffixSize(a: Alternatives, y: Production)
    ensures |Concat(a, {y})| == |a|
  {
    ConcatSizeExact(a, {y});
  }

  /** The bound of ConcatSize is not always reached: `a` then `a b` against
      `b` then nothing gives `a b` twice. */
  lemma {:induction false} ConcatCollapse()
    ensures |Concat({["a"], ["a", "b"]}, {["b"], []})| == 3
  {
    var a: Alternatives := {["a"], ["a", "b"]};
    var b: Alternatives := {["b"], []};
    assert ["a"] + ["b"] == ["a", "b"] == ["a", "b"] + [];
    assert ["a"] + [] == ["a"];
    assert ["a", "b"] + ["b"] == ["a", "b", "b"];
    forall p | p in Concat(a, b) ensures p in {["a", "b"], ["a"], ["a", "b", "b"]} {
      var x, y :| x in a && y in b && p == x + y;
    }
    assert Concat(a, b) == {["a", "b"], ["a"], ["a", "b", "b"]};
  }

  /** An optional group contributes its alternatives plus one absent choice:
      what follows it appears after each alternative and once on its own. */
  lemma {:induction false} OptionalThenConcat(a: Alternatives, b: Alternatives)
    ensures Concat(Optional(a), b) == Concat(a, b) + b
    ensures Concat(b, Optional(a)) == Concat(b, a) + b
  {
    ConcatDistributes(a, {[]}, b);
    ConcatUnit(b);
  }

  /** A production belongs to a body exactly when one of its alternatives yields it. */
  lemma {:induction false} ExpandBodyMembers(body: seq<Alternative>, p: Production)
    ensures p in ExpandBody(body) <==> exists k | 0 <= k < |body| :: p in ExpandAlternative(body[k])
  {
    if body != [] {
      var front := body[..|body| - 1];
      ExpandBodyMembers(front, p);
      if p in ExpandBody(front) {
        var k :| 0 <= k < |front| && p in ExpandAlternative(front[k]);
        assert body[k] == front[k];
      }
      forall k | 0 <= k < |body| - 1 ensures body[k] == front[k] { }
    }
  }

  /** Writing an alternative twice in a body adds nothing: duplicates collapse. */
  lemma {:induction false} DuplicateAlternative(body: seq<Alternative>, a: Alternative)
    requires a in body
    ensures ExpandBody(body + [a]) == ExpandBody(body)
  {
    var k :| 0 <= k < |body| && body[k] == a;
    assert (body + [a])[..|body|] == body;
    forall p | p in ExpandAlternative(a) ensures p in ExpandBody(body) {
      ExpandBodyMembers(body, p);
    }
  }

  /** The names of a list of symbols, in order. */
  function Names(ss: seq<Symbol>): (r: Production)
    ensures |r| == |ss|
    ensures forall k | 0 <= k < |ss| :: r[k] == SymbolName(ss[k])
  {
    if ss == [] then [] else Names(ss[..|ss| - 1]) + [SymbolName(ss[|ss| - 1])]
  }

  function Syms(ss: seq<Symbol>): (r: seq<Element>)
    ensures |r| == |ss|
    ensures forall k | 0 <= k < |ss| :: r[k] == Sym(ss[k])
  {
    if ss == [] then [] else Syms(ss[..|ss| - 1]) + [Sym(ss[|ss| - 1])]
  }

  /** An alternative of plain symbols yields exactly one production: the
      symbols' names in source order. */
  lemma {:induction false} PlainSequence(ss: seq<Symbol>)
    ensures ExpandSequence(Syms(ss)) == {Names(ss)}
  {
    if ss == [] {
    } else {
      var front := ss[..|ss| - 1];
      assert Syms(ss)[..|ss| - 1] == Syms(front);
      PlainSequence(front);
      ConcatSingletons(Names(front), [SymbolName(ss[|ss| - 1])]);
    }
  }

  /** Repeating a unit with a single production refers to exactly one list. */
  lemma {:induction false} RepeatSingle(u: Element, p: Production)
    requires Expand(u) == {p}
    ensures Expand(Repeat(u)) == {[ListName(p)]}
    ensures p in ElementUnits(Repeat(u))
  {
  }
}
