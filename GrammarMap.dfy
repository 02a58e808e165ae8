/**
 * The converter's output, `BisonParam.result`: a map from nonterminal name to
 * its set of right-hand sides.  Rule blocks and synthetic list nonterminals
 * are merged into it by union, so a name defined twice keeps every
 * right-hand side and a list defined twice is defined once.
 */
module GrammarMap {

  import opened Syntax
  import opened Expansion

  type Grammar = map<string, Alternatives>

  /** The right-hand sides stored for `k`; none when `k` is absent. */
  function Lookup(g: Grammar, k: string): Alternatives {
    if k in g then g[k] else {}
  }

  /** `result[k]` gains `alts`; the entry is created even when `alts` is empty. */
  function Merge(g: Grammar, k: string, alts: Alternatives): Grammar {
    g[k := Lookup(g, k) + alts]
  }

  function ListNames(units: Alternatives): set<string> {
    set u | u in units :: ListName(u)
  }

  /** Right-hand sides the lists of `units` give to the name `k`. */
  function ListAlternatives(units: Alternatives, k: string): Alternatives {
    (set u | u in units && ListName(u) == k :: u) + (set u | u in units && ListName(u) == k :: [k] + u)
  }

  /** `g` with the list nonterminal of every unit in `units` merged in. */
  function WithLists(g: Grammar, units: Alternatives): Grammar {
    map k | k in g.Keys + ListNames(units) :: Lookup(g, k) + ListAlternatives(units, k)
  }

  /** One rule block: its lists are defined, then its alternatives merged under its normalised name. */
  function ApplyRule(g: Grammar, r: Rule): Grammar {
    Merge(WithLists(g, BodyUnits(r.body)), Normalize(r.lhs), ExpandBody(r.body))
  }

  /** Rule blocks in source order. */
  function ApplyRules(g: Grammar, rules: seq<Rule>): Grammar {
    if rules == [] then g
    else ApplyRule(ApplyRules(g, rules[..|rules| - 1]), rules[|rules| - 1])
  }

  /** The fold takes the blocks one at a time, in order. */
  lemma {:induction false} ApplyRulesPrefix(g: Grammar, rules: seq<Rule>, i: nat)
    requires i < |rules|
    ensures ApplyRules(g, rules[..i + 1]) == ApplyRule(ApplyRules(g, rules[..i]), rules[i])
  {
    assert rules[..i + 1][..i] == rules[..i];
  }

  /** The converter's result for a parsed grammar text. */
  function Canonical(rules: seq<Rule>): Grammar {
    ApplyRules(map[], rules)
  }

  // ---------------------------------------------------------------------------
  // Synthetic list nonterminals
  // ---------------------------------------------------------------------------

  lemma {:induction false} WithNoLists(g: Grammar)
    ensures WithLists(g, {}) == g
  {
    var r := WithLists(g, {});
    assert ListNames({}) == {};
    forall k | k in g ensures r[k] == g[k] {
      assert ListAlternatives({}, k) == {};
    }
  }

  /** The right-hand sides that lists give to `k` after one more unit `u`. */
  lemma {:induction false} ListAlternativesAdd(units: Alternatives, u: Production, k: string)
    ensures ListAlternatives(units + {u}, k)
         == ListAlternatives(units, k) + (if ListName(u) == k then ListRule(u) else {})
  {
    var l := ListAlternatives(units + {u}, k);
    var r := ListAlternatives(units, k) + (if ListName(u) == k then ListRule(u) else {});
    forall p | p in l ensures p in r {
    }
    forall p | p in r ensures p in l {
      if p !in ListAlternatives(units, k) {
        assert ListName(u) == k;
        assert p == u || p == [k] + u;
      }
    }
  }

  /** Entry `k` of WithLists, by membership. */
  lemma {:induction false} WithListsAt(g: Grammar, units: Alternatives, k: string)
    ensures k in WithLists(g, units) <==> k in g || k in ListNames(units)
    ensures forall p :: p in Lookup(WithLists(g, units), k) <==> p in Lookup(g, k) || p in ListAlternatives(units, k)
  {
    if k !in ListNames(units) {
      forall u | u in units ensures ListName(u) != k {
        assert ListName(u) in ListNames(units);
      }
      assert ListAlternatives(units, k) == {};
    }
  }

  /** Defining one more list extends the set of defined units by that unit. */
  lemma {:induction false} DefineOneMore(g: Grammar, done: Alternatives, u: Production)
    ensures Merge(WithLists(g, done), ListName(u), ListRule(u)) == WithLists(g, done + {u})
  {
    var l := Merge(WithLists(g, done), ListName(u), ListRule(u));
    var r := WithLists(g, done + {u});
    assert ListNames(done + {u}) == ListNames(done) + {ListName(u)};
    forall k ensures k in l <==> k in r {
      WithListsAt(g, done, k);
      WithListsAt(g, done + {u}, k);
    }
    forall k | k in l ensures l[k] == r[k] {
      DefineOneMoreAt(g, done, u, k);
    }
    SameEntries(l, r);
  }

  lemma {:induction false} DefineOneMoreAt(g: Grammar, done: Alternatives, u: Production, k: string)
    ensures Lookup(Merge(WithLists(g, done), ListName(u), ListRule(u)), k) == Lookup(WithLists(g, done + {u}), k)
  {
    if k == ListName(u) {
      AtList(g, done, u);
    } else {
      AtOther(g, done, u, k);
    }
  }

  lemma {:induction false} AtList(g: Grammar, done: Alternatives, u: Production)
    ensures Lookup(Merge(WithLists(g, done), ListName(u), ListRule(u)), ListName(u)) == Lookup(WithLists(g, done + {u}), ListName(u))
  {
    var k := ListName(u);
    var w := WithLists(g, done);
    var l := Merge(w, k, ListRule(u));
    var r := WithLists(g, done + {u});
    ListAlternativesAdd(done, u, k);
    WithListsAt(g, done, k);
    WithListsAt(g, done + {u}, k);
    assert Lookup(l, k) == Lookup(w, k) + ListRule(u);
  }

  lemma {:induction false} AtOther(g: Grammar, done: Alternatives, u: Production, k: string)
    requires k != ListName(u)
    ensures Lookup(Merge(WithLists(g, done), ListName(u), ListRule(u)), k) == Lookup(WithLists(g, done + {u}), k)
  {
    var w := WithLists(g, done);
    var l := Merge(w, ListName(u), ListRule(u));
    var r := WithLists(g, done + {u});
    ListAlternativesAdd(done, u, k);
    WithListsAt(g, done, k);
    WithListsAt(g, done + {u}, k);
    assert Lookup(l, k) == Lookup(w, k);
  }

  /** Two maps with the same keys and the same entries are equal. */
  lemma {:induction false} SameEntries(l: Grammar, r: Grammar)
    requires forall k :: k in l <==> k in r
    requires forall k | k in l :: l[k] == r[k]
    ensures l == r
  {
  }

  lemma {:induction false} ListAlternativesUnion(a: Alternatives, b: Alternatives, k: string)
    ensures ListAlternatives(a + b, k) == ListAlternatives(a, k) + ListAlternatives(b, k)
  {
  }

  /** Lists defined from `a` and then from `b` are the lists of `a + b`. */
  lemma {:induction false} WithListsTwice(g: Grammar, a: Alternatives, b: Alternatives)
    ensures WithLists(WithLists(g, a), b) == WithLists(g, a + b)
  {
    var l := WithLists(WithLists(g, a), b);
    var r := WithLists(g, a + b);
    assert ListNames(a + b) == ListNames(a) + ListNames(b);
    forall k ensures k in l <==> k in r {
      WithListsAt(g, a, k);
      WithListsAt(WithLists(g, a), b, k);
      WithListsAt(g, a + b, k);
    }
    forall k | k in l ensures l[k] == r[k] {
      WithListsTwiceAt(g, a, b, k);
    }
    SameEntries(l, r);
  }

  lemma {:induction false} WithListsTwiceAt(g: Grammar, a: Alternatives, b: Alternatives, k: string)
    ensures Lookup(WithLists(WithLists(g, a), b), k) == Lookup(WithLists(g, a + b), k)
  {
    var w := WithLists(g, a);
    WithListsAt(g, a, k);
    WithListsAt(w, b, k);
    WithListsAt(g, a + b, k);
    ListAlternativesUnion(a, b, k);
    forall p ensures p in Lookup(WithLists(w, b), k) <==> p in Lookup(WithLists(g, a + b), k) {
    }
  }

  /** Creating lists is idempotent: a unit repeated anywhere yields its list once. */
  lemma {:induction false} WithListsIdempotent(g: Grammar, units: Alternatives)
    ensures WithLists(WithLists(g, units), units) == WithLists(g, units)
  {
    WithListsTwice(g, units, units);
    assert units + units == units;
  }

  /** A single repeated unit, on its own, defines exactly `L ::= u | L u`. */
  lemma {:induction false} OneList(u: Production)
    ensures WithLists(map[], {u}) == map[ListName(u) := {u, [ListName(u)] + u}]
  {
    DefineOneMore(map[], {}, u);
    WithNoLists(map[]);
  }

  // ---------------------------------------------------------------------------
  // The whole map, independent of the order of the blocks
  // ---------------------------------------------------------------------------

  /** Normalised left-hand sides of the blocks. */
  function LhsNames(rules: seq<Rule>): set<string> {
    set r | r in rules :: Normalize(r.lhs)
  }

  /** Every unit repeated anywhere in the blocks. */
  function AllUnits(rules: seq<Rule>): Alternatives {
    set r, u | r in rules && u in BodyUnits(r.body) :: u
  }

  /** Right-hand sides the blocks named `k` give to `k`. */
  function RuleAlternatives(rules: seq<Rule>, k: string): Alternatives {
    set r, p | r in rules && Normalize(r.lhs) == k && p in ExpandBody(r.body) :: p
  }

  lemma {:induction false} MergeAt(g: Grammar, n: string, alts: Alternatives, k: string)
    ensures k in Merge(g, n, alts) <==> k in g || k == n
    ensures forall p :: p in Lookup(Merge(g, n, alts), k) <==> p in Lookup(g, k) || (k == n && p in alts)
  {
  }

  /** Splitting the last block off the closed-form ingredients. */
  lemma {:induction false} LastRule(rules: seq<Rule>, k: string)
    requires rules != []
    ensures var front, last := rules[..|rules| - 1], rules[|rules| - 1];
      && LhsNames(rules) == LhsNames(front) + {Normalize(last.lhs)}
      && AllUnits(rules) == AllUnits(front) + BodyUnits(last.body)
      && RuleAlternatives(rules, k)
         == RuleAlternatives(front, k) + (if Normalize(last.lhs) == k then ExpandBody(last.body) else {})
  {
    var front, last := rules[..|rules| - 1], rules[|rules| - 1];
    assert rules == front + [last];
    assert forall r :: r in rules <==> r in front || r == last;
  }

  /** Entry `k` of the result: present when the initial map, a block or a
      repetition names it, and holding exactly what those contribute. */
  lemma {:induction false} ApplyRulesAt(g: Grammar, rules: seq<Rule>, k: string)
    ensures k in ApplyRules(g, rules) <==> k in g || k in LhsNames(rules) || k in ListNames(AllUnits(rules))
    ensures forall p :: p in Lookup(ApplyRules(g, rules), k)
                    <==> p in Lookup(g, k) || p in RuleAlternatives(rules, k) || p in ListAlternatives(AllUnits(rules), k)
  {
    if rules == [] {
      assert LhsNames(rules) == {};
      assert AllUnits(rules) == {};
      assert ListNames(AllUnits(rules)) == {};
      assert RuleAlternatives(rules, k) == {};
      assert ListAlternatives(AllUnits(rules), k) == {};
    } else {
      var front, last := rules[..|rules| - 1], rules[|rules| - 1];
      var before := ApplyRules(g, front);
      var units := BodyUnits(last.body);
      ApplyRulesAt(g, front, k);
      LastRule(rules, k);
      WithListsAt(before, units, k);
      MergeAt(WithLists(before, units), Normalize(last.lhs), ExpandBody(last.body), k);
      ListAlternativesUnion(AllUnits(front), units, k);
      assert ListNames(AllUnits(front) + units) == ListNames(AllUnits(front)) + ListNames(units);
    }
  }

  /** The converter's map has an entry for every block's name and every
      list name, and for nothing else. */
  lemma {:induction false} CanonicalKeys(rules: seq<Rule>)
    ensures forall k :: k in Canonical(rules) <==> k in LhsNames(rules) || k in ListNames(AllUnits(rules))
  {
    forall k ensures k in Canonical(rules) <==> k in LhsNames(rules) || k in ListNames(AllUnits(rules)) {
      ApplyRulesAt(map[], rules, k);
    }
  }

  /** Reordering or repeating blocks does not change the map. */
  lemma {:induction false} OrderIndependent(rules1: seq<Rule>, rules2: seq<Rule>)
    requires forall r :: r in rules1 <==> r in rules2
    ensures Canonical(rules1) == Canonical(rules2)
  {
    var l, r := Canonical(rules1), Canonical(rules2);
    assert LhsNames(rules1) == LhsNames(rules2);
    assert AllUnits(rules1) == AllUnits(rules2);
    forall k ensures k in l <==> k in r {
      ApplyRulesAt(map[], rules1, k);
      ApplyRulesAt(map[], rules2, k);
    }
    forall k | k in l ensures l[k] == r[k] {
      ApplyRulesAt(map[], rules1, k);
      ApplyRulesAt(map[], rules2, k);
      assert RuleAlternatives(rules1, k) == RuleAlternatives(rules2, k);
      assert Lookup(l, k) == Lookup(r, k);
    }
    SameEntries(l, r);
  }

  /** A block whose name no other block and no list uses maps to exactly its
      expansion, which may be empty. */
  lemma {:induction false} BlockEntry(rules: seq<Rule>, r: Rule)
    requires r in rules
    requires forall s | s in rules && Normalize(s.lhs) == Normalize(r.lhs) :: s == r
    requires Normalize(r.lhs) !in ListNames(AllUnits(rules))
    ensures Normalize(r.lhs) in Canonical(rules)
    ensures Canonical(rules)[Normalize(r.lhs)] == ExpandBody(r.body)
  {
    var k := Normalize(r.lhs);
    ApplyRulesAt(map[], rules, k);
    assert RuleAlternatives(rules, k) == ExpandBody(r.body);
    assert ListAlternatives(AllUnits(rules), k) == {} by {
      forall u | u in AllUnits(rules) ensures ListName(u) != k {
        assert ListName(u) in ListNames(AllUnits(rules));
      }
    }
  }

  /** A repeated unit whose list name no block and no other unit uses maps to
      exactly its two right-hand sides, however often it is repeated. */
  lemma {:induction false} ListEntry(rules: seq<Rule>, u: Production)
    requires u in AllUnits(rules)
    requires ListName(u) !in LhsNames(rules)
    requires forall v | v in AllUnits(rules) && ListName(v) == ListName(u) :: v == u
    ensures ListName(u) in Canonical(rules)
    ensures Canonical(rules)[ListName(u)] == {u, [ListName(u)] + u}
  {
    var k := ListName(u);
    ApplyRulesAt(map[], rules, k);
    assert RuleAlternatives(rules, k) == {};
    assert ListAlternatives(AllUnits(rules), k) == {u, [k] + u};
  }
}
