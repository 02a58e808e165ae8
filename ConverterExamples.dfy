/**
 * The converter on the grammar texts of its unit tests
 * (src/bnftobison/parser/bnftobison_parser.gtest.cpp): each text, written as
 * its token sequence, is parsed into rule blocks and converted to the exact
 * map the test expects; the malformed texts produce no map.
 */
module BnfToBisonExamples {

  import opened Wrappers
  import opened Tokens
  import opened Syntax
  import opened Expansion
  import opened GrammarMap
  import opened BnfToBisonParser
  import opened BnfToBison

  // A sequence followed by one more element, for small numbers of productions.

  lemma Sequence1x1(es: seq<Element>, a1: Production, b1: Production, ua: Alternatives, ub: Alternatives)
    requires es != []
    requires ExpandSequence(es[..|es| - 1]) == {a1} && Expand(es[|es| - 1]) == {b1}
    requires SequenceUnits(es[..|es| - 1]) == ua && ElementUnits(es[|es| - 1]) == ub
    ensures ExpandSequence(es) == {a1 + b1} && SequenceUnits(es) == ua + ub
  {
    ConcatSingletons(a1, b1);
  }

  lemma Cross1x2(a1: Production, b1: Production, b2: Production)
    ensures Concat({a1}, {b1, b2}) == {a1 + b1, a1 + b2}
  {
  }

  lemma Sequence1x2(es: seq<Element>, a1: Production, b1: Production, b2: Production, ua: Alternatives, ub: Alternatives)
    requires es != []
    requires ExpandSequence(es[..|es| - 1]) == {a1} && Expand(es[|es| - 1]) == {b1, b2}
    requires SequenceUnits(es[..|es| - 1]) == ua && ElementUnits(es[|es| - 1]) == ub
    ensures ExpandSequence(es) == {a1 + b1, a1 + b2} && SequenceUnits(es) == ua + ub
  {
    Cross1x2(a1, b1, b2);
  }

  lemma Cross1x3(a1: Production, b1: Production, b2: Production, b3: Production)
    ensures Concat({a1}, {b1, b2, b3}) == {a1 + b1, a1 + b2, a1 + b3}
  {
  }

  lemma Sequence1x3(es: seq<Element>, a1: Production, b1: Production, b2: Production, b3: Production, ua: Alternatives, ub: Alternatives)
    requires es != []
    requires ExpandSequence(es[..|es| - 1]) == {a1} && Expand(es[|es| - 1]) == {b1, b2, b3}
    requires SequenceUnits(es[..|es| - 1]) == ua && ElementUnits(es[|es| - 1]) == ub
    ensures ExpandSequence(es) == {a1 + b1, a1 + b2, a1 + b3} && SequenceUnits(es) == ua + ub
  {
    Cross1x3(a1, b1, b2, b3);
  }

  lemma Cross1x4(a1: Production, b1: Production, b2: Production, b3: Production, b4: Production)
    ensures Concat({a1}, {b1, b2, b3, b4}) == {a1 + b1, a1 + b2, a1 + b3, a1 + b4}
  {
  }

  lemma Sequence1x4(es: seq<Element>, a1: Production, b1: Production, b2: Production, b3: Production, b4: Production, ua: Alternatives, ub: Alternatives)
    requires es != []
    requires ExpandSequence(es[..|es| - 1]) == {a1} && Expand(es[|es| - 1]) == {b1, b2, b3, b4}
    requires SequenceUnits(es[..|es| - 1]) == ua && ElementUnits(es[|es| - 1]) == ub
    ensures ExpandSequence(es) == {a1 + b1, a1 + b2, a1 + b3, a1 + b4} && SequenceUnits(es) == ua + ub
  {
    Cross1x4(a1, b1, b2, b3, b4);
  }

  lemma Cross1x5(a1: Production, b1: Production, b2: Production, b3: Production, b4: Production, b5: Production)
    ensures Concat({a1}, {b1, b2, b3, b4, b5}) == {a1 + b1, a1 + b2, a1 + b3, a1 + b4, a1 + b5}
  {
  }

  lemma Sequence1x5(es: seq<Element>, a1: Production, b1: Production, b2: Production, b3: Production, b4: Production, b5: Production, ua: Alternatives, ub: Alternatives)
    requires es != []
    requires ExpandSequence(es[..|es| - 1]) == {a1} && Expand(es[|es| - 1]) == {b1, b2, b3, b4, b5}
    requires SequenceUnits(es[..|es| - 1]) == ua && ElementUnits(es[|es| - 1]) == ub
    ensures ExpandSequence(es) == {a1 + b1, a1 + b2, a1 + b3, a1 + b4, a1 + b5} && SequenceUnits(es) == ua + ub
  {
    Cross1x5(a1, b1, b2, b3, b4, b5);
  }

  lemma Cross1x6(a1: Production, b1: Production, b2: Production, b3: Production, b4: Production, b5: Production, b6: Production)
    ensures Concat({a1}, {b1, b2, b3, b4, b5, b6}) == {a1 + b1, a1 + b2, a1 + b3, a1 + b4, a1 + b5, a1 + b6}
  {
  }

  lemma Sequence1x6(es: seq<Element>, a1: Production, b1: Production, b2: Production, b3: Production, b4: Production, b5: Production, b6: Production, ua: Alternatives, ub: Alternatives)
    requires es != []
    requires ExpandSequence(es[..|es| - 1]) == {a1} && Expand(es[|es| - 1]) == {b1, b2, b3, b4, b5, b6}
    requires SequenceUnits(es[..|es| - 1]) == ua && ElementUnits(es[|es| - 1]) == ub
    ensures ExpandSequence(es) == {a1 + b1, a1 + b2, a1 + b3, a1 + b4, a1 + b5, a1 + b6} && SequenceUnits(es) == ua + ub
  {
    Cross1x6(a1, b1, b2, b3, b4, b5, b6);
  }

  lemma Cross2x1(a1: Production, a2: Production, b1: Production)
    ensures Concat({a1, a2}, {b1}) == {a1 + b1, a2 + b1}
  {
  }

  lemma Sequence2x1(es: seq<Element>, a1: Production, a2: Production, b1: Production, ua: Alternatives, ub: Alternatives)
    requires es != []
    requires ExpandSequence(es[..|es| - 1]) == {a1, a2} && Expand(es[|es| - 1]) == {b1}
    requires SequenceUnits(es[..|es| - 1]) == ua && ElementUnits(es[|es| - 1]) == ub
    ensures ExpandSequence(es) == {a1 + b1, a2 + b1} && SequenceUnits(es) == ua + ub
  {
    Cross2x1(a1, a2, b1);
  }

  lemma Cross2x2(a1: Production, a2: Production, b1: Production, b2: Production)
    ensures Concat({a1, a2}, {b1, b2}) == {a1 + b1, a1 + b2, a2 + b1, a2 + b2}
  {
  }

  lemma Sequence2x2(es: seq<Element>, a1: Production, a2: Production, b1: Production, b2: Production, ua: Alternatives, ub: Alternatives)
    requires es != []
    requires ExpandSequence(es[..|es| - 1]) == {a1, a2} && Expand(es[|es| - 1]) == {b1, b2}
    requires SequenceUnits(es[..|es| - 1]) == ua && ElementUnits(es[|es| - 1]) == ub
    ensures ExpandSequence(es) == {a1 + b1, a1 + b2, a2 + b1, a2 + b2} && SequenceUnits(es) == ua + ub
  {
    Cross2x2(a1, a2, b1, b2);
  }

  lemma Cross3x1(a1: Production, a2: Production, a3: Production, b1: Production)
    ensures Concat({a1, a2, a3}, {b1}) == {a1 + b1, a2 + b1, a3 + b1}
  {
  }

  lemma Sequence3x1(es: seq<Element>, a1: Production, a2: Production, a3: Production, b1: Production, ua: Alternatives, ub: Alternatives)
    requires es != []
    requires ExpandSequence(es[..|es| - 1]) == {a1, a2, a3} && Expand(es[|es| - 1]) == {b1}
    requires SequenceUnits(es[..|es| - 1]) == ua && ElementUnits(es[|es| - 1]) == ub
    ensures ExpandSequence(es) == {a1 + b1, a2 + b1, a3 + b1} && SequenceUnits(es) == ua + ub
  {
    Cross3x1(a1, a2, a3, b1);
  }

  lemma Cross6x1(a1: Production, a2: Production, a3: Production, a4: Production, a5: Production, a6: Production, b1: Production)
    ensures Concat({a1, a2, a3, a4, a5, a6}, {b1}) == {a1 + b1, a2 + b1, a3 + b1, a4 + b1, a5 + b1, a6 + b1}
  {
  }

  lemma Sequence6x1(es: seq<Element>, a1: Production, a2: Production, a3: Production, a4: Production, a5: Production, a6: Production, b1: Production, ua: Alternatives, ub: Alternatives)
    requires es != []
    requires ExpandSequence(es[..|es| - 1]) == {a1, a2, a3, a4, a5, a6} && Expand(es[|es| - 1]) == {b1}
    requires SequenceUnits(es[..|es| - 1]) == ua && ElementUnits(es[|es| - 1]) == ub
    ensures ExpandSequence(es) == {a1 + b1, a2 + b1, a3 + b1, a4 + b1, a5 + b1, a6 + b1} && SequenceUnits(es) == ua + ub
  {
    Cross6x1(a1, a2, a3, a4, a5, a6, b1);
  }

  lemma Cross6x2(a1: Production, a2: Production, a3: Production, a4: Production, a5: Production, a6: Production, b1: Production, b2: Production)
    ensures Concat({a1, a2, a3, a4, a5, a6}, {b1, b2}) == {a1 + b1, a1 + b2, a2 + b1, a2 + b2, a3 + b1, a3 + b2, a4 + b1, a4 + b2, a5 + b1, a5 + b2, a6 + b1, a6 + b2}
  {
  }

  lemma Sequence6x2(es: seq<Element>, a1: Production, a2: Production, a3: Production, a4: Production, a5: Production, a6: Production, b1: Production, b2: Production, ua: Alternatives, ub: Alternatives)
    requires es != []
    requires ExpandSequence(es[..|es| - 1]) == {a1, a2, a3, a4, a5, a6} && Expand(es[|es| - 1]) == {b1, b2}
    requires SequenceUnits(es[..|es| - 1]) == ua && ElementUnits(es[|es| - 1]) == ub
    ensures ExpandSequence(es) == {a1 + b1, a1 + b2, a2 + b1, a2 + b2, a3 + b1, a3 + b2, a4 + b1, a4 + b2, a5 + b1, a5 + b2, a6 + b1, a6 + b2} && SequenceUnits(es) == ua + ub
  {
    Cross6x2(a1, a2, a3, a4, a5, a6, b1, b2);
  }

  lemma Cross12x2(a1: Production, a2: Production, a3: Production, a4: Production, a5: Production, a6: Production, a7: Production, a8: Production, a9: Production, a10: Production, a11: Production, a12: Production, b1: Production, b2: Production)
    ensures Concat({a1, a2, a3, a4, a5, a6, a7, a8, a9, a10, a11, a12}, {b1, b2}) == {a1 + b1, a1 + b2, a2 + b1, a2 + b2, a3 + b1, a3 + b2, a4 + b1, a4 + b2, a5 + b1, a5 + b2, a6 + b1, a6 + b2, a7 + b1, a7 + b2, a8 + b1, a8 + b2, a9 + b1, a9 + b2, a10 + b1, a10 + b2, a11 + b1, a11 + b2, a12 + b1, a12 + b2}
  {
  }

  lemma Sequence12x2(es: seq<Element>, a1: Production, a2: Production, a3: Production, a4: Production, a5: Production, a6: Production, a7: Production, a8: Production, a9: Production, a10: Production, a11: Production, a12: Production, b1: Production, b2: Production, ua: Alternatives, ub: Alternatives)
    requires es != []
    requires ExpandSequence(es[..|es| - 1]) == {a1, a2, a3, a4, a5, a6, a7, a8, a9, a10, a11, a12} && Expand(es[|es| - 1]) == {b1, b2}
    requires SequenceUnits(es[..|es| - 1]) == ua && ElementUnits(es[|es| - 1]) == ub
    ensures ExpandSequence(es) == {a1 + b1, a1 + b2, a2 + b1, a2 + b2, a3 + b1, a3 + b2, a4 + b1, a4 + b2, a5 + b1, a5 + b2, a6 + b1, a6 + b2, a7 + b1, a7 + b2, a8 + b1, a8 + b2, a9 + b1, a9 + b2, a10 + b1, a10 + b2, a11 + b1, a11 + b2, a12 + b1, a12 + b2} && SequenceUnits(es) == ua + ub
  {
    Cross12x2(a1, a2, a3, a4, a5, a6, a7, a8, a9, a10, a11, a12, b1, b2);
  }

  /** One more element after a sequence that only yields the empty production. */
  lemma SequenceUnitLeft(es: seq<Element>, b: Alternatives, ua: Alternatives, ub: Alternatives)
    requires es != []
    requires ExpandSequence(es[..|es| - 1]) == {[]} && Expand(es[|es| - 1]) == b
    requires SequenceUnits(es[..|es| - 1]) == ua && ElementUnits(es[|es| - 1]) == ub
    ensures ExpandSequence(es) == b && SequenceUnits(es) == ua + ub
  {
    ConcatUnitLeft(b);
  }

  /** One more element that only yields the empty production. */
  lemma SequenceUnitRight(es: seq<Element>, a: Alternatives, ua: Alternatives, ub: Alternatives)
    requires es != []
    requires ExpandSequence(es[..|es| - 1]) == a && Expand(es[|es| - 1]) == {[]}
    requires SequenceUnits(es[..|es| - 1]) == ua && ElementUnits(es[|es| - 1]) == ub
    ensures ExpandSequence(es) == a && SequenceUnits(es) == ua + ub
  {
    ConcatUnitRight(a);
  }

  /** The list of one more unit joins the map. */
  lemma ListStep(g: Grammar, done: Alternatives, u: Production, w0: Grammar, l: string, lr: Alternatives, w1: Grammar)
    requires WithLists(g, done) == w0 && ListName(u) == l && ListRule(u) == lr
    requires w0[l := Lookup(w0, l) + lr] == w1
    ensures WithLists(g, done + {u}) == w1
  {
    DefineOneMore(g, done, u);
  }

  /** One more rule block: its lists join the map, then its alternatives join its entry. */
  lemma BlockStep(rules: seq<Rule>, g: Grammar, done: Alternatives, w: Grammar, n: string, e: Alternatives, r: Grammar)
    requires rules != [] && ApplyRules(map[], rules[..|rules| - 1]) == g
    requires BodyUnits(rules[|rules| - 1].body) == done && WithLists(g, done) == w
    requires Normalize(rules[|rules| - 1].lhs) == n && ExpandBody(rules[|rules| - 1].body) == e
    requires w[n := Lookup(w, n) + e] == r
    ensures ApplyRules(map[], rules) == r
  {
  }

  // Expansions of the right-hand sides that occur in the texts below, one
  // construct at a time.

  /** Expansion and repeated units of the element `TRUE`; used by test_0, test_1. */
  lemma Step1()
    ensures Expand(Sym(Symbol.Terminal("TRUE"))) == {["TRUE"]}
    ensures ElementUnits(Sym(Symbol.Terminal("TRUE"))) == {}
  {
  }

  /** Expansion and repeated units of the elements `TRUE`; used by test_0, test_1. */
  lemma Step2()
    ensures ExpandSequence([Sym(Symbol.Terminal("TRUE"))]) == {["TRUE"]}
    ensures SequenceUnits([Sym(Symbol.Terminal("TRUE"))]) == {}
  {
    Step1();
    assert [Sym(Symbol.Terminal("TRUE"))][..0] == [];
    SequenceUnitLeft([Sym(Symbol.Terminal("TRUE"))], {["TRUE"]}, {}, {});
  }

  /** Expansion and repeated units of the alternatives `TRUE`; used by test_0, test_1. */
  lemma Step3()
    ensures ExpandBody([Alternative([Sym(Symbol.Terminal("TRUE"))])]) == {["TRUE"]}
    ensures BodyUnits([Alternative([Sym(Symbol.Terminal("TRUE"))])]) == {}
  {
    Step2();
    assert [Alternative([Sym(Symbol.Terminal("TRUE"))])][..0] == [];
  }

  /** Display name of `<true literal>`; used by test_0, test_1. */
  lemma Step4()
    ensures Normalize("true literal") == "true_literal"
  {
  }

  /** Expansion and repeated units of the element `FALSE`; used by test_1. */
  lemma Step5()
    ensures Expand(Sym(Symbol.Terminal("FALSE"))) == {["FALSE"]}
    ensures ElementUnits(Sym(Symbol.Terminal("FALSE"))) == {}
  {
  }

  /** Expansion and repeated units of the elements `FALSE`; used by test_1. */
  lemma Step6()
    ensures ExpandSequence([Sym(Symbol.Terminal("FALSE"))]) == {["FALSE"]}
    ensures SequenceUnits([Sym(Symbol.Terminal("FALSE"))]) == {}
  {
    Step5();
    assert [Sym(Symbol.Terminal("FALSE"))][..0] == [];
    SequenceUnitLeft([Sym(Symbol.Terminal("FALSE"))], {["FALSE"]}, {}, {});
  }

  /** Expansion and repeated units of the alternatives `TRUE | FALSE`; used by test_1. */
  lemma Step7()
    ensures ExpandBody([Alternative([Sym(Symbol.Terminal("TRUE"))]), Alternative([Sym(Symbol.Terminal("FALSE"))])]) == {["TRUE"], ["FALSE"]}
    ensures BodyUnits([Alternative([Sym(Symbol.Terminal("TRUE"))]), Alternative([Sym(Symbol.Terminal("FALSE"))])]) == {}
  {
    Step3();
    Step6();
    assert [Alternative([Sym(Symbol.Terminal("TRUE"))]), Alternative([Sym(Symbol.Terminal("FALSE"))])][..1] == [Alternative([Sym(Symbol.Terminal("TRUE"))])];
  }

  /** Expansion and repeated units of the element `UNKNOWN`; used by test_1. */
  lemma Step8()
    ensures Expand(Sym(Symbol.Terminal("UNKNOWN"))) == {["UNKNOWN"]}
    ensures ElementUnits(Sym(Symbol.Terminal("UNKNOWN"))) == {}
  {
  }

  /** Expansion and repeated units of the elements `UNKNOWN`; used by test_1. */
  lemma Step9()
    ensures ExpandSequence([Sym(Symbol.Terminal("UNKNOWN"))]) == {["UNKNOWN"]}
    ensures SequenceUnits([Sym(Symbol.Terminal("UNKNOWN"))]) == {}
  {
    Step8();
    assert [Sym(Symbol.Terminal("UNKNOWN"))][..0] == [];
    SequenceUnitLeft([Sym(Symbol.Terminal("UNKNOWN"))], {["UNKNOWN"]}, {}, {});
  }

  /** Expansion and repeated units of the alternatives `TRUE | FALSE | UNKNOWN`; used by test_1. */
  lemma Step10()
    ensures ExpandBody([Alternative([Sym(Symbol.Terminal("TRUE"))]), Alternative([Sym(Symbol.Terminal("FALSE"))]), Alternative([Sym(Symbol.Terminal("UNKNOWN"))])]) == {["TRUE"], ["FALSE"], ["UNKNOWN"]}
    ensures BodyUnits([Alternative([Sym(Symbol.Terminal("TRUE"))]), Alternative([Sym(Symbol.Terminal("FALSE"))]), Alternative([Sym(Symbol.Terminal("UNKNOWN"))])]) == {}
  {
    Step7();
    Step9();
    assert [Alternative([Sym(Symbol.Terminal("TRUE"))]), Alternative([Sym(Symbol.Terminal("FALSE"))]), Alternative([Sym(Symbol.Terminal("UNKNOWN"))])][..2] == [Alternative([Sym(Symbol.Terminal("TRUE"))]), Alternative([Sym(Symbol.Terminal("FALSE"))])];
  }

  /** Expansion and repeated units of the element `<left brace>`; used by test_2, test_17. */
  lemma Step11()
    ensures Expand(Sym(Symbol.Nonterminal("left brace"))) == {["left_brace"]}
    ensures ElementUnits(Sym(Symbol.Nonterminal("left brace"))) == {}
  {
    assert Normalize("left brace") == "left_brace";
  }

  /** Expansion and repeated units of the elements `<left brace>`; used by test_2, test_17. */
  lemma Step12()
    ensures ExpandSequence([Sym(Symbol.Nonterminal("left brace"))]) == {["left_brace"]}
    ensures SequenceUnits([Sym(Symbol.Nonterminal("left brace"))]) == {}
  {
    Step11();
    assert [Sym(Symbol.Nonterminal("left brace"))][..0] == [];
    SequenceUnitLeft([Sym(Symbol.Nonterminal("left brace"))], {["left_brace"]}, {}, {});
  }

  /** Expansion and repeated units of the element `<query specification>`; used by test_2. */
  lemma Step13()
    ensures Expand(Sym(Symbol.Nonterminal("query specification"))) == {["query_specification"]}
    ensures ElementUnits(Sym(Symbol.Nonterminal("query specification"))) == {}
  {
    assert Normalize("query specification") == "query_specification";
  }

  /** One cross-product production: `left_brace` then `query_specification`; used by test_2. */
  lemma Step14()
    ensures ["left_brace"] + ["query_specification"] == ["left_brace", "query_specification"]
  {
  }

  /** Expansion and repeated units of the elements `<left brace> <query specification>`; used by test_2. */
  lemma Step15()
    ensures ExpandSequence([Sym(Symbol.Nonterminal("left brace")), Sym(Symbol.Nonterminal("query specification"))]) == {["left_brace", "query_specification"]}
    ensures SequenceUnits([Sym(Symbol.Nonterminal("left brace")), Sym(Symbol.Nonterminal("query specification"))]) == {}
  {
    Step12();
    Step13();
    Step14();
    assert [Sym(Symbol.Nonterminal("left brace")), Sym(Symbol.Nonterminal("query specification"))][..1] == [Sym(Symbol.Nonterminal("left brace"))];
    Sequence1x1([Sym(Symbol.Nonterminal("left brace")), Sym(Symbol.Nonterminal("query specification"))], ["left_brace"], ["query_specification"], {}, {});
  }

  /** Expansion and repeated units of the element `<right brace>`; used by test_2, test_17. */
  lemma Step16()
    ensures Expand(Sym(Symbol.Nonterminal("right brace"))) == {["right_brace"]}
    ensures ElementUnits(Sym(Symbol.Nonterminal("right brace"))) == {}
  {
    assert Normalize("right brace") == "right_brace";
  }

  /** One cross-product production: `left_brace query_specification` then `right_brace`; used by test_2. */
  lemma Step17()
    ensures ["left_brace", "query_specification"] + ["right_brace"] == ["left_brace", "query_specification", "right_brace"]
  {
  }

  /** Expansion and repeated units of the elements `<left brace> <query specification> <right brace>`; used by test_2. */
  lemma Step18()
    ensures ExpandSequence([Sym(Symbol.Nonterminal("left brace")), Sym(Symbol.Nonterminal("query specification")), Sym(Symbol.Nonterminal("right brace"))]) == {["left_brace", "query_specification", "right_brace"]}
    ensures SequenceUnits([Sym(Symbol.Nonterminal("left brace")), Sym(Symbol.Nonterminal("query specification")), Sym(Symbol.Nonterminal("right brace"))]) == {}
  {
    Step15();
    Step16();
    Step17();
    assert [Sym(Symbol.Nonterminal("left brace")), Sym(Symbol.Nonterminal("query specification")), Sym(Symbol.Nonterminal("right brace"))][..2] == [Sym(Symbol.Nonterminal("left brace")), Sym(Symbol.Nonterminal("query specification"))];
    Sequence1x1([Sym(Symbol.Nonterminal("left brace")), Sym(Symbol.Nonterminal("query specification")), Sym(Symbol.Nonterminal("right brace"))], ["left_brace", "query_specification"], ["right_brace"], {}, {});
  }

  /** Expansion and repeated units of the alternatives `<left brace> <query specification> <right brace>`; used by test_2. */
  lemma Step19()
    ensures ExpandBody([Alternative([Sym(Symbol.Nonterminal("left brace")), Sym(Symbol.Nonterminal("query specification")), Sym(Symbol.Nonterminal("right brace"))])]) == {["left_brace", "query_specification", "right_brace"]}
    ensures BodyUnits([Alternative([Sym(Symbol.Nonterminal("left brace")), Sym(Symbol.Nonterminal("query specification")), Sym(Symbol.Nonterminal("right brace"))])]) == {}
  {
    Step18();
    assert [Alternative([Sym(Symbol.Nonterminal("left brace")), Sym(Symbol.Nonterminal("query specification")), Sym(Symbol.Nonterminal("right brace"))])][..0] == [];
  }

  /** Display name of `<nested query specification>`; used by test_2. */
  lemma Step20()
    ensures Normalize("nested query specification") == "nested_query_specification"
  {
  }

  /** Expansion and repeated units of the element `<program activity>`; used by test_3, test_22, test_23. */
  lemma Step21()
    ensures Expand(Sym(Symbol.Nonterminal("program activity"))) == {["program_activity"]}
    ensures ElementUnits(Sym(Symbol.Nonterminal("program activity"))) == {}
  {
    assert Normalize("program activity") == "program_activity";
  }

  /** Expansion and repeated units of the elements `<program activity>`; used by test_3, test_22, test_23. */
  lemma Step22()
    ensures ExpandSequence([Sym(Symbol.Nonterminal("program activity"))]) == {["program_activity"]}
    ensures SequenceUnits([Sym(Symbol.Nonterminal("program activity"))]) == {}
  {
    Step21();
    assert [Sym(Symbol.Nonterminal("program activity"))][..0] == [];
    SequenceUnitLeft([Sym(Symbol.Nonterminal("program activity"))], {["program_activity"]}, {}, {});
  }

  /** Expansion and repeated units of the element `<session close command>`; used by test_3, test_22, test_23. */
  lemma Step23()
    ensures Expand(Sym(Symbol.Nonterminal("session close command"))) == {["session_close_command"]}
    ensures ElementUnits(Sym(Symbol.Nonterminal("session close command"))) == {}
  {
    assert Normalize("session close command") == "session_close_command";
  }

  /** Expansion and repeated units of the elements `<session close command>`; used by test_3, test_22, test_23. */
  lemma Step24()
    ensures ExpandSequence([Sym(Symbol.Nonterminal("session close command"))]) == {["session_close_command"]}
    ensures SequenceUnits([Sym(Symbol.Nonterminal("session close command"))]) == {}
  {
    Step23();
    assert [Sym(Symbol.Nonterminal("session close command"))][..0] == [];
    SequenceUnitLeft([Sym(Symbol.Nonterminal("session close command"))], {["session_close_command"]}, {}, {});
  }

  /** Expansion and repeated units of the alternatives `<session close command>`; used by test_3, test_22, test_23. */
  lemma Step25()
    ensures ExpandBody([Alternative([Sym(Symbol.Nonterminal("session close command"))])]) == {["session_close_command"]}
    ensures BodyUnits([Alternative([Sym(Symbol.Nonterminal("session close command"))])]) == {}
  {
    Step24();
    assert [Alternative([Sym(Symbol.Nonterminal("session close command"))])][..0] == [];
  }

  /** Expansion and repeated units of the element `[ <session close command> ]`; used by test_3, test_22, test_23. */
  lemma Step26()
    ensures Expand(Opt([Alternative([Sym(Symbol.Nonterminal("session close command"))])])) == {["session_close_command"], []}
    ensures ElementUnits(Opt([Alternative([Sym(Symbol.Nonterminal("session close command"))])])) == {}
  {
    Step25();
  }

  /** One cross-product production: `program_activity` then `session_close_command`; used by test_3, test_22, test_23. */
  lemma Step27()
    ensures ["program_activity"] + ["session_close_command"] == ["program_activity", "session_close_command"]
  {
  }

  /** One cross-product production: `program_activity` then `the empty production`; used by test_3, test_22, test_23. */
  lemma Step28()
    ensures ["program_activity"] + [] == ["program_activity"]
  {
  }

  /** Expansion and repeated units of the elements `<program activity> [ <session close command> ]`; used by test_3, test_22, test_23. */
  lemma Step29()
    ensures ExpandSequence([Sym(Symbol.Nonterminal("program activity")), Opt([Alternative([Sym(Symbol.Nonterminal("session close command"))])])]) == {["program_activity", "session_close_command"], ["program_activity"]}
    ensures SequenceUnits([Sym(Symbol.Nonterminal("program activity")), Opt([Alternative([Sym(Symbol.Nonterminal("session close command"))])])]) == {}
  {
    Step22();
    Step26();
    Step27();
    Step28();
    assert [Sym(Symbol.Nonterminal("program activity")), Opt([Alternative([Sym(Symbol.Nonterminal("session close command"))])])][..1] == [Sym(Symbol.Nonterminal("program activity"))];
    Sequence1x2([Sym(Symbol.Nonterminal("program activity")), Opt([Alternative([Sym(Symbol.Nonterminal("session close command"))])])], ["program_activity"], ["session_close_command"], [], {}, {});
  }

  /** Expansion and repeated units of the alternatives `<program activity> [ <session close command> ]`; used by test_3, test_22, test_23. */
  lemma Step30()
    ensures ExpandBody([Alternative([Sym(Symbol.Nonterminal("program activity")), Opt([Alternative([Sym(Symbol.Nonterminal("session close command"))])])])]) == {["program_activity", "session_close_command"], ["program_activity"]}
    ensures BodyUnits([Alternative([Sym(Symbol.Nonterminal("program activity")), Opt([Alternative([Sym(Symbol.Nonterminal("session close command"))])])])]) == {}
  {
    Step29();
    assert [Alternative([Sym(Symbol.Nonterminal("program activity")), Opt([Alternative([Sym(Symbol.Nonterminal("session close command"))])])])][..0] == [];
  }

  /** Expansion and repeated units of the alternatives `<program activity> [ <session close command> ] | <session close command>`; used by test_3, test_22, test_23. */
  lemma Step31()
    ensures ExpandBody([Alternative([Sym(Symbol.Nonterminal("program activity")), Opt([Alternative([Sym(Symbol.Nonterminal("session close command"))])])]), Alternative([Sym(Symbol.Nonterminal("session close command"))])]) == {["program_activity", "session_close_command"], ["program_activity"], ["session_close_command"]}
    ensures BodyUnits([Alternative([Sym(Symbol.Nonterminal("program activity")), Opt([Alternative([Sym(Symbol.Nonterminal("session close command"))])])]), Alternative([Sym(Symbol.Nonterminal("session close command"))])]) == {}
  {
    Step30();
    Step24();
    assert [Alternative([Sym(Symbol.Nonterminal("program activity")), Opt([Alternative([Sym(Symbol.Nonterminal("session close command"))])])]), Alternative([Sym(Symbol.Nonterminal("session close command"))])][..1] == [Alternative([Sym(Symbol.Nonterminal("program activity")), Opt([Alternative([Sym(Symbol.Nonterminal("session close command"))])])])];
  }

  /** Display name of `<GQL-program>`; used by test_3, test_22, test_23. */
  lemma Step32()
    ensures Normalize("GQL-program") == "GQL_program"
  {
  }

  /** Expansion and repeated units of the element `<session reset command>`; used by test_4, test_5, test_6, test_7. */
  lemma Step33()
    ensures Expand(Sym(Symbol.Nonterminal("session reset command"))) == {["session_reset_command"]}
    ensures ElementUnits(Sym(Symbol.Nonterminal("session reset command"))) == {}
  {
    assert Normalize("session reset command") == "session_reset_command";
  }

  /** Name of the list for the unit `session_reset_command`; used by test_4, test_5, test_6, test_7. */
  lemma Step34()
    ensures ListName(["session_reset_command"]) == "session_reset_command_list"
  {
    assert Join(["session_reset_command"]) == "session_reset_command";
  }

  /** Expansion and repeated units of the element `<session reset command>...`; used by test_4, test_5, test_6, test_7. */
  lemma Step35()
    ensures Expand(Repeat(Sym(Symbol.Nonterminal("session reset command")))) == {["session_reset_command_list"]}
    ensures ElementUnits(Repeat(Sym(Symbol.Nonterminal("session reset command")))) == {["session_reset_command"]}
  {
    Step33();
    Step34();
    RepeatSingle(Sym(Symbol.Nonterminal("session reset command")), ["session_reset_command"]);
  }

  /** Expansion and repeated units of the elements `<session reset command>...`; used by test_4, test_5, test_6, test_7. */
  lemma Step36()
    ensures ExpandSequence([Repeat(Sym(Symbol.Nonterminal("session reset command")))]) == {["session_reset_command_list"]}
    ensures SequenceUnits([Repeat(Sym(Symbol.Nonterminal("session reset command")))]) == {["session_reset_command"]}
  {
    Step35();
    assert [Repeat(Sym(Symbol.Nonterminal("session reset command")))][..0] == [];
    SequenceUnitLeft([Repeat(Sym(Symbol.Nonterminal("session reset command")))], {["session_reset_command_list"]}, {}, {["session_reset_command"]});
  }

  /** Expansion and repeated units of the alternatives `<session reset command>...`; used by test_4, test_5, test_6, test_7. */
  lemma Step37()
    ensures ExpandBody([Alternative([Repeat(Sym(Symbol.Nonterminal("session reset command")))])]) == {["session_reset_command_list"]}
    ensures BodyUnits([Alternative([Repeat(Sym(Symbol.Nonterminal("session reset command")))])]) == {["session_reset_command"]}
  {
    Step36();
    assert [Alternative([Repeat(Sym(Symbol.Nonterminal("session reset command")))])][..0] == [];
  }

  /** Alternatives of the list for the unit `session_reset_command`; used by test_4, test_5, test_6, test_7. */
  lemma Step38()
    ensures ListRule(["session_reset_command"]) == {["session_reset_command"], ["session_reset_command_list", "session_reset_command"]}
  {
    Step34();
    assert ["session_reset_command_list"] + ["session_reset_command"] == ["session_reset_command_list", "session_reset_command"];
  }

  /** Display name of `<session activity>`; used by test_4, test_5, test_6, test_7. */
  lemma Step39()
    ensures Normalize("session activity") == "session_activity"
  {
  }

  /** Expansion and repeated units of the element `<session set command>`; used by test_5, test_6, test_7. */
  lemma Step40()
    ensures Expand(Sym(Symbol.Nonterminal("session set command"))) == {["session_set_command"]}
    ensures ElementUnits(Sym(Symbol.Nonterminal("session set command"))) == {}
  {
    assert Normalize("session set command") == "session_set_command";
  }

  /** Name of the list for the unit `session_set_command`; used by test_5, test_6, test_7. */
  lemma Step41()
    ensures ListName(["session_set_command"]) == "session_set_command_list"
  {
    assert Join(["session_set_command"]) == "session_set_command";
  }

  /** Expansion and repeated units of the element `<session set command>...`; used by test_5, test_6, test_7. */
  lemma Step42()
    ensures Expand(Repeat(Sym(Symbol.Nonterminal("session set command")))) == {["session_set_command_list"]}
    ensures ElementUnits(Repeat(Sym(Symbol.Nonterminal("session set command")))) == {["session_set_command"]}
  {
    Step40();
    Step41();
    RepeatSingle(Sym(Symbol.Nonterminal("session set command")), ["session_set_command"]);
  }

  /** Expansion and repeated units of the elements `<session set command>...`; used by test_5, test_6, test_7. */
  lemma Step43()
    ensures ExpandSequence([Repeat(Sym(Symbol.Nonterminal("session set command")))]) == {["session_set_command_list"]}
    ensures SequenceUnits([Repeat(Sym(Symbol.Nonterminal("session set command")))]) == {["session_set_command"]}
  {
    Step42();
    assert [Repeat(Sym(Symbol.Nonterminal("session set command")))][..0] == [];
    SequenceUnitLeft([Repeat(Sym(Symbol.Nonterminal("session set command")))], {["session_set_command_list"]}, {}, {["session_set_command"]});
  }

  /** Expansion and repeated units of the alternatives `<session reset command>... | <session set command>...`; used by test_5. */
  lemma Step44()
    ensures ExpandBody([Alternative([Repeat(Sym(Symbol.Nonterminal("session reset command")))]), Alternative([Repeat(Sym(Symbol.Nonterminal("session set command")))])]) == {["session_reset_command_list"], ["session_set_command_list"]}
    ensures BodyUnits([Alternative([Repeat(Sym(Symbol.Nonterminal("session reset command")))]), Alternative([Repeat(Sym(Symbol.Nonterminal("session set command")))])]) == {["session_reset_command"], ["session_set_command"]}
  {
    Step37();
    Step43();
    assert [Alternative([Repeat(Sym(Symbol.Nonterminal("session reset command")))]), Alternative([Repeat(Sym(Symbol.Nonterminal("session set command")))])][..1] == [Alternative([Repeat(Sym(Symbol.Nonterminal("session reset command")))])];
  }

  /** Alternatives of the list for the unit `session_set_command`; used by test_5, test_6, test_7. */
  lemma Step45()
    ensures ListRule(["session_set_command"]) == {["session_set_command"], ["session_set_command_list", "session_set_command"]}
  {
    Step41();
    assert ["session_set_command_list"] + ["session_set_command"] == ["session_set_command_list", "session_set_command"];
  }

  /** Expansion and repeated units of the element `[ <session reset command>... ]`; used by test_6, test_7. */
  lemma Step46()
    ensures Expand(Opt([Alternative([Repeat(Sym(Symbol.Nonterminal("session reset command")))])])) == {["session_reset_command_list"], []}
    ensures ElementUnits(Opt([Alternative([Repeat(Sym(Symbol.Nonterminal("session reset command")))])])) == {["session_reset_command"]}
  {
    Step37();
  }

  /** One cross-product production: `session_set_command_list` then `session_reset_command_list`; used by test_6, test_7. */
  lemma Step47()
    ensures ["session_set_command_list"] + ["session_reset_command_list"] == ["session_set_command_list", "session_reset_command_list"]
  {
  }

  /** One cross-product production: `session_set_command_list` then `the empty production`; used by test_6, test_7. */
  lemma Step48()
    ensures ["session_set_command_list"] + [] == ["session_set_command_list"]
  {
  }

  /** Expansion and repeated units of the elements `<session set command>... [ <session reset command>... ]`; used by test_6, test_7. */
  lemma Step49()
    ensures ExpandSequence([Repeat(Sym(Symbol.Nonterminal("session set command"))), Opt([Alternative([Repeat(Sym(Symbol.Nonterminal("session reset command")))])])]) == {["session_set_command_list", "session_reset_command_list"], ["session_set_command_list"]}
    ensures SequenceUnits([Repeat(Sym(Symbol.Nonterminal("session set command"))), Opt([Alternative([Repeat(Sym(Symbol.Nonterminal("session reset command")))])])]) == {["session_reset_command"], ["session_set_command"]}
  {
    Step43();
    Step46();
    Step47();
    Step48();
    assert [Repeat(Sym(Symbol.Nonterminal("session set command"))), Opt([Alternative([Repeat(Sym(Symbol.Nonterminal("session reset command")))])])][..1] == [Repeat(Sym(Symbol.Nonterminal("session set command")))];
    Sequence1x2([Repeat(Sym(Symbol.Nonterminal("session set command"))), Opt([Alternative([Repeat(Sym(Symbol.Nonterminal("session reset command")))])])], ["session_set_command_list"], ["session_reset_command_list"], [], {["session_set_command"]}, {["session_reset_command"]});
  }

  /** Expansion and repeated units of the alternatives `<session set command>... [ <session reset command>... ]`; used by test_6. */
  lemma Step50()
    ensures ExpandBody([Alternative([Repeat(Sym(Symbol.Nonterminal("session set command"))), Opt([Alternative([Repeat(Sym(Symbol.Nonterminal("session reset command")))])])])]) == {["session_set_command_list", "session_reset_command_list"], ["session_set_command_list"]}
    ensures BodyUnits([Alternative([Repeat(Sym(Symbol.Nonterminal("session set command"))), Opt([Alternative([Repeat(Sym(Symbol.Nonterminal("session reset command")))])])])]) == {["session_reset_command"], ["session_set_command"]}
  {
    Step49();
    assert [Alternative([Repeat(Sym(Symbol.Nonterminal("session set command"))), Opt([Alternative([Repeat(Sym(Symbol.Nonterminal("session reset command")))])])])][..0] == [];
  }

  /** Expansion and repeated units of the alternatives `<session reset command>... | <session set command>... [ <session reset command>... ]`; used by test_7. */
  lemma Step51()
    ensures ExpandBody([Alternative([Repeat(Sym(Symbol.Nonterminal("session reset command")))]), Alternative([Repeat(Sym(Symbol.Nonterminal("session set command"))), Opt([Alternative([Repeat(Sym(Symbol.Nonterminal("session reset command")))])])])]) == {["session_reset_command_list"], ["session_set_command_list", "session_reset_command_list"], ["session_set_command_list"]}
    ensures BodyUnits([Alternative([Repeat(Sym(Symbol.Nonterminal("session reset command")))]), Alternative([Repeat(Sym(Symbol.Nonterminal("session set command"))), Opt([Alternative([Repeat(Sym(Symbol.Nonterminal("session reset command")))])])])]) == {["session_reset_command"], ["session_set_command"]}
  {
    Step37();
    Step49();
    assert [Alternative([Repeat(Sym(Symbol.Nonterminal("session reset command")))]), Alternative([Repeat(Sym(Symbol.Nonterminal("session set command"))), Opt([Alternative([Repeat(Sym(Symbol.Nonterminal("session reset command")))])])])][..1] == [Alternative([Repeat(Sym(Symbol.Nonterminal("session reset command")))])];
  }

  /** Expansion and repeated units of the element `<transaction mode 1>`; used by test_8, test_9, test_10. */
  lemma Step52()
    ensures Expand(Sym(Symbol.Nonterminal("transaction mode 1"))) == {["transaction_mode_1"]}
    ensures ElementUnits(Sym(Symbol.Nonterminal("transaction mode 1"))) == {}
  {
    assert Normalize("transaction mode 1") == "transaction_mode_1";
  }

  /** Expansion and repeated units of the elements `<transaction mode 1>`; used by test_8, test_9, test_10. */
  lemma Step53()
    ensures ExpandSequence([Sym(Symbol.Nonterminal("transaction mode 1"))]) == {["transaction_mode_1"]}
    ensures SequenceUnits([Sym(Symbol.Nonterminal("transaction mode 1"))]) == {}
  {
    Step52();
    assert [Sym(Symbol.Nonterminal("transaction mode 1"))][..0] == [];
    SequenceUnitLeft([Sym(Symbol.Nonterminal("transaction mode 1"))], {["transaction_mode_1"]}, {}, {});
  }

  /** Expansion and repeated units of the element `<comma>`; used by test_8, test_9, test_10. */
  lemma Step54()
    ensures Expand(Sym(Symbol.Nonterminal("comma"))) == {["comma"]}
    ensures ElementUnits(Sym(Symbol.Nonterminal("comma"))) == {}
  {
    assert Normalize("comma") == "comma";
  }

  /** Expansion and repeated units of the elements `<comma>`; used by test_8, test_9, test_10. */
  lemma Step55()
    ensures ExpandSequence([Sym(Symbol.Nonterminal("comma"))]) == {["comma"]}
    ensures SequenceUnits([Sym(Symbol.Nonterminal("comma"))]) == {}
  {
    Step54();
    assert [Sym(Symbol.Nonterminal("comma"))][..0] == [];
    SequenceUnitLeft([Sym(Symbol.Nonterminal("comma"))], {["comma"]}, {}, {});
  }

  /** Expansion and repeated units of the element `<transaction mode 2>`; used by test_8, test_9, test_10. */
  lemma Step56()
    ensures Expand(Sym(Symbol.Nonterminal("transaction mode 2"))) == {["transaction_mode_2"]}
    ensures ElementUnits(Sym(Symbol.Nonterminal("transaction mode 2"))) == {}
  {
    assert Normalize("transaction mode 2") == "transaction_mode_2";
  }

  /** One cross-product production: `comma` then `transaction_mode_2`; used by test_8, test_9, test_10. */
  lemma Step57()
    ensures ["comma"] + ["transaction_mode_2"] == ["comma", "transaction_mode_2"]
  {
  }

  /** Expansion and repeated units of the elements `<comma> <transaction mode 2>`; used by test_8, test_9, test_10. */
  lemma Step58()
    ensures ExpandSequence([Sym(Symbol.Nonterminal("comma")), Sym(Symbol.Nonterminal("transaction mode 2"))]) == {["comma", "transaction_mode_2"]}
    ensures SequenceUnits([Sym(Symbol.Nonterminal("comma")), Sym(Symbol.Nonterminal("transaction mode 2"))]) == {}
  {
    Step55();
    Step56();
    Step57();
    assert [Sym(Symbol.Nonterminal("comma")), Sym(Symbol.Nonterminal("transaction mode 2"))][..1] == [Sym(Symbol.Nonterminal("comma"))];
    Sequence1x1([Sym(Symbol.Nonterminal("comma")), Sym(Symbol.Nonterminal("transaction mode 2"))], ["comma"], ["transaction_mode_2"], {}, {});
  }

  /** Expansion and repeated units of the alternatives `<comma> <transaction mode 2>`; used by test_8, test_9, test_10. */
  lemma Step59()
    ensures ExpandBody([Alternative([Sym(Symbol.Nonterminal("comma")), Sym(Symbol.Nonterminal("transaction mode 2"))])]) == {["comma", "transaction_mode_2"]}
    ensures BodyUnits([Alternative([Sym(Symbol.Nonterminal("comma")), Sym(Symbol.Nonterminal("transaction mode 2"))])]) == {}
  {
    Step58();
    assert [Alternative([Sym(Symbol.Nonterminal("comma")), Sym(Symbol.Nonterminal("transaction mode 2"))])][..0] == [];
  }

  /** Expansion and repeated units of the element `{ <comma> <transaction mode 2> }`; used by test_8, test_9, test_10. */
  lemma Step60()
    ensures Expand(Group([Alternative([Sym(Symbol.Nonterminal("comma")), Sym(Symbol.Nonterminal("transaction mode 2"))])])) == {["comma", "transaction_mode_2"]}
    ensures ElementUnits(Group([Alternative([Sym(Symbol.Nonterminal("comma")), Sym(Symbol.Nonterminal("transaction mode 2"))])])) == {}
  {
    Step59();
  }

  /** One cross-product production: `transaction_mode_1` then `comma transaction_mode_2`; used by test_8. */
  lemma Step61()
    ensures ["transaction_mode_1"] + ["comma", "transaction_mode_2"] == ["transaction_mode_1", "comma", "transaction_mode_2"]
  {
  }

  /** Expansion and repeated units of the elements `<transaction mode 1> { <comma> <transaction mode 2> }`; used by test_8. */
  lemma Step62()
    ensures ExpandSequence([Sym(Symbol.Nonterminal("transaction mode 1")), Group([Alternative([Sym(Symbol.Nonterminal("comma")), Sym(Symbol.Nonterminal("transaction mode 2"))])])]) == {["transaction_mode_1", "comma", "transaction_mode_2"]}
    ensures SequenceUnits([Sym(Symbol.Nonterminal("transaction mode 1")), Group([Alternative([Sym(Symbol.Nonterminal("comma")), Sym(Symbol.Nonterminal("transaction mode 2"))])])]) == {}
  {
    Step53();
    Step60();
    Step61();
    assert [Sym(Symbol.Nonterminal("transaction mode 1")), Group([Alternative([Sym(Symbol.Nonterminal("comma")), Sym(Symbol.Nonterminal("transaction mode 2"))])])][..1] == [Sym(Symbol.Nonterminal("transaction mode 1"))];
    Sequence1x1([Sym(Symbol.Nonterminal("transaction mode 1")), Group([Alternative([Sym(Symbol.Nonterminal("comma")), Sym(Symbol.Nonterminal("transaction mode 2"))])])], ["transaction_mode_1"], ["comma", "transaction_mode_2"], {}, {});
  }

  /** Expansion and repeated units of the alternatives `<transaction mode 1> { <comma> <transaction mode 2> }`; used by test_8. */
  lemma Step63()
    ensures ExpandBody([Alternative([Sym(Symbol.Nonterminal("transaction mode 1")), Group([Alternative([Sym(Symbol.Nonterminal("comma")), Sym(Symbol.Nonterminal("transaction mode 2"))])])])]) == {["transaction_mode_1", "comma", "transaction_mode_2"]}
    ensures BodyUnits([Alternative([Sym(Symbol.Nonterminal("transaction mode 1")), Group([Alternative([Sym(Symbol.Nonterminal("comma")), Sym(Symbol.Nonterminal("transaction mode 2"))])])])]) == {}
  {
    Step62();
    assert [Alternative([Sym(Symbol.Nonterminal("transaction mode 1")), Group([Alternative([Sym(Symbol.Nonterminal("comma")), Sym(Symbol.Nonterminal("transaction mode 2"))])])])][..0] == [];
  }

  /** Display name of `<transaction characteristics>`; used by test_8, test_9, test_10. */
  lemma Step64()
    ensures Normalize("transaction characteristics") == "transaction_characteristics"
  {
  }

  /** Name of the list for the unit `comma transaction_mode_2`; used by test_9, test_10. */
  lemma Step65()
    ensures ListName(["comma", "transaction_mode_2"]) == "comma_transaction_mode_2_list"
  {
    assert Join(["transaction_mode_2"]) == "transaction_mode_2";
    assert Join(["comma", "transaction_mode_2"]) == "comma_transaction_mode_2";
  }

  /** Expansion and repeated units of the element `{ <comma> <transaction mode 2> }...`; used by test_9, test_10. */
  lemma Step66()
    ensures Expand(Repeat(Group([Alternative([Sym(Symbol.Nonterminal("comma")), Sym(Symbol.Nonterminal("transaction mode 2"))])]))) == {["comma_transaction_mode_2_list"]}
    ensures ElementUnits(Repeat(Group([Alternative([Sym(Symbol.Nonterminal("comma")), Sym(Symbol.Nonterminal("transaction mode 2"))])]))) == {["comma", "transaction_mode_2"]}
  {
    Step60();
    Step65();
    RepeatSingle(Group([Alternative([Sym(Symbol.Nonterminal("comma")), Sym(Symbol.Nonterminal("transaction mode 2"))])]), ["comma", "transaction_mode_2"]);
  }

  /** One cross-product production: `transaction_mode_1` then `comma_transaction_mode_2_list`; used by test_9, test_10. */
  lemma Step67()
    ensures ["transaction_mode_1"] + ["comma_transaction_mode_2_list"] == ["transaction_mode_1", "comma_transaction_mode_2_list"]
  {
  }

  /** Expansion and repeated units of the elements `<transaction mode 1> { <comma> <transaction mode 2> }...`; used by test_9. */
  lemma Step68()
    ensures ExpandSequence([Sym(Symbol.Nonterminal("transaction mode 1")), Repeat(Group([Alternative([Sym(Symbol.Nonterminal("comma")), Sym(Symbol.Nonterminal("transaction mode 2"))])]))]) == {["transaction_mode_1", "comma_transaction_mode_2_list"]}
    ensures SequenceUnits([Sym(Symbol.Nonterminal("transaction mode 1")), Repeat(Group([Alternative([Sym(Symbol.Nonterminal("comma")), Sym(Symbol.Nonterminal("transaction mode 2"))])]))]) == {["comma", "transaction_mode_2"]}
  {
    Step53();
    Step66();
    Step67();
    assert [Sym(Symbol.Nonterminal("transaction mode 1")), Repeat(Group([Alternative([Sym(Symbol.Nonterminal("comma")), Sym(Symbol.Nonterminal("transaction mode 2"))])]))][..1] == [Sym(Symbol.Nonterminal("transaction mode 1"))];
    Sequence1x1([Sym(Symbol.Nonterminal("transaction mode 1")), Repeat(Group([Alternative([Sym(Symbol.Nonterminal("comma")), Sym(Symbol.Nonterminal("transaction mode 2"))])]))], ["transaction_mode_1"], ["comma_transaction_mode_2_list"], {}, {["comma", "transaction_mode_2"]});
  }

  /** Expansion and repeated units of the alternatives `<transaction mode 1> { <comma> <transaction mode 2> }...`; used by test_9. */
  lemma Step69()
    ensures ExpandBody([Alternative([Sym(Symbol.Nonterminal("transaction mode 1")), Repeat(Group([Alternative([Sym(Symbol.Nonterminal("comma")), Sym(Symbol.Nonterminal("transaction mode 2"))])]))])]) == {["transaction_mode_1", "comma_transaction_mode_2_list"]}
    ensures BodyUnits([Alternative([Sym(Symbol.Nonterminal("transaction mode 1")), Repeat(Group([Alternative([Sym(Symbol.Nonterminal("comma")), Sym(Symbol.Nonterminal("transaction mode 2"))])]))])]) == {["comma", "transaction_mode_2"]}
  {
    Step68();
    assert [Alternative([Sym(Symbol.Nonterminal("transaction mode 1")), Repeat(Group([Alternative([Sym(Symbol.Nonterminal("comma")), Sym(Symbol.Nonterminal("transaction mode 2"))])]))])][..0] == [];
  }

  /** Alternatives of the list for the unit `comma transaction_mode_2`; used by test_9, test_10. */
  lemma Step70()
    ensures ListRule(["comma", "transaction_mode_2"]) == {["comma", "transaction_mode_2"], ["comma_transaction_mode_2_list", "comma", "transaction_mode_2"]}
  {
    Step65();
    assert ["comma_transaction_mode_2_list"] + ["comma", "transaction_mode_2"] == ["comma_transaction_mode_2_list", "comma", "transaction_mode_2"];
  }

  /** Expansion and repeated units of the elements `{ <comma> <transaction mode 2> }...`; used by test_10. */
  lemma Step71()
    ensures ExpandSequence([Repeat(Group([Alternative([Sym(Symbol.Nonterminal("comma")), Sym(Symbol.Nonterminal("transaction mode 2"))])]))]) == {["comma_transaction_mode_2_list"]}
    ensures SequenceUnits([Repeat(Group([Alternative([Sym(Symbol.Nonterminal("comma")), Sym(Symbol.Nonterminal("transaction mode 2"))])]))]) == {["comma", "transaction_mode_2"]}
  {
    Step66();
    assert [Repeat(Group([Alternative([Sym(Symbol.Nonterminal("comma")), Sym(Symbol.Nonterminal("transaction mode 2"))])]))][..0] == [];
    SequenceUnitLeft([Repeat(Group([Alternative([Sym(Symbol.Nonterminal("comma")), Sym(Symbol.Nonterminal("transaction mode 2"))])]))], {["comma_transaction_mode_2_list"]}, {}, {["comma", "transaction_mode_2"]});
  }

  /** Expansion and repeated units of the alternatives `{ <comma> <transaction mode 2> }...`; used by test_10. */
  lemma Step72()
    ensures ExpandBody([Alternative([Repeat(Group([Alternative([Sym(Symbol.Nonterminal("comma")), Sym(Symbol.Nonterminal("transaction mode 2"))])]))])]) == {["comma_transaction_mode_2_list"]}
    ensures BodyUnits([Alternative([Repeat(Group([Alternative([Sym(Symbol.Nonterminal("comma")), Sym(Symbol.Nonterminal("transaction mode 2"))])]))])]) == {["comma", "transaction_mode_2"]}
  {
    Step71();
    assert [Alternative([Repeat(Group([Alternative([Sym(Symbol.Nonterminal("comma")), Sym(Symbol.Nonterminal("transaction mode 2"))])]))])][..0] == [];
  }

  /** Expansion and repeated units of the element `[ { <comma> <transaction mode 2> }... ]`; used by test_10. */
  lemma Step73()
    ensures Expand(Opt([Alternative([Repeat(Group([Alternative([Sym(Symbol.Nonterminal("comma")), Sym(Symbol.Nonterminal("transaction mode 2"))])]))])])) == {["comma_transaction_mode_2_list"], []}
    ensures ElementUnits(Opt([Alternative([Repeat(Group([Alternative([Sym(Symbol.Nonterminal("comma")), Sym(Symbol.Nonterminal("transaction mode 2"))])]))])])) == {["comma", "transaction_mode_2"]}
  {
    Step72();
  }

  /** One cross-product production: `transaction_mode_1` then `the empty production`; used by test_10. */
  lemma Step74()
    ensures ["transaction_mode_1"] + [] == ["transaction_mode_1"]
  {
  }

  /** Expansion and repeated units of the elements `<transaction mode 1> [ { <comma> <transaction mode 2> }... ]`; used by test_10. */
  lemma Step75()
    ensures ExpandSequence([Sym(Symbol.Nonterminal("transaction mode 1")), Opt([Alternative([Repeat(Group([Alternative([Sym(Symbol.Nonterminal("comma")), Sym(Symbol.Nonterminal("transaction mode 2"))])]))])])]) == {["transaction_mode_1", "comma_transaction_mode_2_list"], ["transaction_mode_1"]}
    ensures SequenceUnits([Sym(Symbol.Nonterminal("transaction mode 1")), Opt([Alternative([Repeat(Group([Alternative([Sym(Symbol.Nonterminal("comma")), Sym(Symbol.Nonterminal("transaction mode 2"))])]))])])]) == {["comma", "transaction_mode_2"]}
  {
    Step53();
    Step73();
    Step67();
    Step74();
    assert [Sym(Symbol.Nonterminal("transaction mode 1")), Opt([Alternative([Repeat(Group([Alternative([Sym(Symbol.Nonterminal("comma")), Sym(Symbol.Nonterminal("transaction mode 2"))])]))])])][..1] == [Sym(Symbol.Nonterminal("transaction mode 1"))];
    Sequence1x2([Sym(Symbol.Nonterminal("transaction mode 1")), Opt([Alternative([Repeat(Group([Alternative([Sym(Symbol.Nonterminal("comma")), Sym(Symbol.Nonterminal("transaction mode 2"))])]))])])], ["transaction_mode_1"], ["comma_transaction_mode_2_list"], [], {}, {["comma", "transaction_mode_2"]});
  }

  /** Expansion and repeated units of the alternatives `<transaction mode 1> [ { <comma> <transaction mode 2> }... ]`; used by test_10. */
  lemma Step76()
    ensures ExpandBody([Alternative([Sym(Symbol.Nonterminal("transaction mode 1")), Opt([Alternative([Repeat(Group([Alternative([Sym(Symbol.Nonterminal("comma")), Sym(Symbol.Nonterminal("transaction mode 2"))])]))])])])]) == {["transaction_mode_1", "comma_transaction_mode_2_list"], ["transaction_mode_1"]}
    ensures BodyUnits([Alternative([Sym(Symbol.Nonterminal("transaction mode 1")), Opt([Alternative([Repeat(Group([Alternative([Sym(Symbol.Nonterminal("comma")), Sym(Symbol.Nonterminal("transaction mode 2"))])]))])])])]) == {["comma", "transaction_mode_2"]}
  {
    Step75();
    assert [Alternative([Sym(Symbol.Nonterminal("transaction mode 1")), Opt([Alternative([Repeat(Group([Alternative([Sym(Symbol.Nonterminal("comma")), Sym(Symbol.Nonterminal("transaction mode 2"))])]))])])])][..0] == [];
  }

  /** Expansion and repeated units of the element `CREATE`; used by test_11, test_12, test_13, test_14, test_15. */
  lemma Step77()
    ensures Expand(Sym(Symbol.Terminal("CREATE"))) == {["CREATE"]}
    ensures ElementUnits(Sym(Symbol.Terminal("CREATE"))) == {}
  {
  }

  /** Expansion and repeated units of the elements `CREATE`; used by test_11, test_12, test_13, test_14, test_15. */
  lemma Step78()
    ensures ExpandSequence([Sym(Symbol.Terminal("CREATE"))]) == {["CREATE"]}
    ensures SequenceUnits([Sym(Symbol.Terminal("CREATE"))]) == {}
  {
    Step77();
    assert [Sym(Symbol.Terminal("CREATE"))][..0] == [];
    SequenceUnitLeft([Sym(Symbol.Terminal("CREATE"))], {["CREATE"]}, {}, {});
  }

  /** Expansion and repeated units of the element `GRAPH`; used by test_11, test_12, test_13, test_14, test_15. */
  lemma Step79()
    ensures Expand(Sym(Symbol.Terminal("GRAPH"))) == {["GRAPH"]}
    ensures ElementUnits(Sym(Symbol.Terminal("GRAPH"))) == {}
  {
  }

  /** Expansion and repeated units of the elements `GRAPH`; used by test_11. */
  lemma Step80()
    ensures ExpandSequence([Sym(Symbol.Terminal("GRAPH"))]) == {["GRAPH"]}
    ensures SequenceUnits([Sym(Symbol.Terminal("GRAPH"))]) == {}
  {
    Step79();
    assert [Sym(Symbol.Terminal("GRAPH"))][..0] == [];
    SequenceUnitLeft([Sym(Symbol.Terminal("GRAPH"))], {["GRAPH"]}, {}, {});
  }

  /** Expansion and repeated units of the alternatives `GRAPH`; used by test_11. */
  lemma Step81()
    ensures ExpandBody([Alternative([Sym(Symbol.Terminal("GRAPH"))])]) == {["GRAPH"]}
    ensures BodyUnits([Alternative([Sym(Symbol.Terminal("GRAPH"))])]) == {}
  {
    Step80();
    assert [Alternative([Sym(Symbol.Terminal("GRAPH"))])][..0] == [];
  }

  /** Expansion and repeated units of the element `OR`; used by test_11, test_12, test_13, test_14, test_15. */
  lemma Step82()
    ensures Expand(Sym(Symbol.Terminal("OR"))) == {["OR"]}
    ensures ElementUnits(Sym(Symbol.Terminal("OR"))) == {}
  {
  }

  /** Expansion and repeated units of the elements `OR`; used by test_11, test_12, test_13, test_14, test_15. */
  lemma Step83()
    ensures ExpandSequence([Sym(Symbol.Terminal("OR"))]) == {["OR"]}
    ensures SequenceUnits([Sym(Symbol.Terminal("OR"))]) == {}
  {
    Step82();
    assert [Sym(Symbol.Terminal("OR"))][..0] == [];
    SequenceUnitLeft([Sym(Symbol.Terminal("OR"))], {["OR"]}, {}, {});
  }

  /** Expansion and repeated units of the element `REPLACE`; used by test_11, test_12, test_13, test_14, test_15. */
  lemma Step84()
    ensures Expand(Sym(Symbol.Terminal("REPLACE"))) == {["REPLACE"]}
    ensures ElementUnits(Sym(Symbol.Terminal("REPLACE"))) == {}
  {
  }

  /** One cross-product production: `OR` then `REPLACE`; used by test_11, test_12, test_13, test_14, test_15. */
  lemma Step85()
    ensures ["OR"] + ["REPLACE"] == ["OR", "REPLACE"]
  {
  }

  /** Expansion and repeated units of the elements `OR REPLACE`; used by test_11, test_12, test_13, test_14, test_15. */
  lemma Step86()
    ensures ExpandSequence([Sym(Symbol.Terminal("OR")), Sym(Symbol.Terminal("REPLACE"))]) == {["OR", "REPLACE"]}
    ensures SequenceUnits([Sym(Symbol.Terminal("OR")), Sym(Symbol.Terminal("REPLACE"))]) == {}
  {
    Step83();
    Step84();
    Step85();
    assert [Sym(Symbol.Terminal("OR")), Sym(Symbol.Terminal("REPLACE"))][..1] == [Sym(Symbol.Terminal("OR"))];
    Sequence1x1([Sym(Symbol.Terminal("OR")), Sym(Symbol.Terminal("REPLACE"))], ["OR"], ["REPLACE"], {}, {});
  }

  /** One cross-product production: `OR REPLACE` then `GRAPH`; used by test_11, test_12, test_13, test_14, test_15. */
  lemma Step87()
    ensures ["OR", "REPLACE"] + ["GRAPH"] == ["OR", "REPLACE", "GRAPH"]
  {
  }

  /** Expansion and repeated units of the elements `OR REPLACE GRAPH`; used by test_11. */
  lemma Step88()
    ensures ExpandSequence([Sym(Symbol.Terminal("OR")), Sym(Symbol.Terminal("REPLACE")), Sym(Symbol.Terminal("GRAPH"))]) == {["OR", "REPLACE", "GRAPH"]}
    ensures SequenceUnits([Sym(Symbol.Terminal("OR")), Sym(Symbol.Terminal("REPLACE")), Sym(Symbol.Terminal("GRAPH"))]) == {}
  {
    Step86();
    Step79();
    Step87();
    assert [Sym(Symbol.Terminal("OR")), Sym(Symbol.Terminal("REPLACE")), Sym(Symbol.Terminal("GRAPH"))][..2] == [Sym(Symbol.Terminal("OR")), Sym(Symbol.Terminal("REPLACE"))];
    Sequence1x1([Sym(Symbol.Terminal("OR")), Sym(Symbol.Terminal("REPLACE")), Sym(Symbol.Terminal("GRAPH"))], ["OR", "REPLACE"], ["GRAPH"], {}, {});
  }

  /** Expansion and repeated units of the alternatives `GRAPH | OR REPLACE GRAPH`; used by test_11. */
  lemma Step89()
    ensures ExpandBody([Alternative([Sym(Symbol.Terminal("GRAPH"))]), Alternative([Sym(Symbol.Terminal("OR")), Sym(Symbol.Terminal("REPLACE")), Sym(Symbol.Terminal("GRAPH"))])]) == {["GRAPH"], ["OR", "REPLACE", "GRAPH"]}
    ensures BodyUnits([Alternative([Sym(Symbol.Terminal("GRAPH"))]), Alternative([Sym(Symbol.Terminal("OR")), Sym(Symbol.Terminal("REPLACE")), Sym(Symbol.Terminal("GRAPH"))])]) == {}
  {
    Step81();
    Step88();
    assert [Alternative([Sym(Symbol.Terminal("GRAPH"))]), Alternative([Sym(Symbol.Terminal("OR")), Sym(Symbol.Terminal("REPLACE")), Sym(Symbol.Terminal("GRAPH"))])][..1] == [Alternative([Sym(Symbol.Terminal("GRAPH"))])];
  }

  /** Expansion and repeated units of the element `{ GRAPH | OR REPLACE GRAPH }`; used by test_11. */
  lemma Step90()
    ensures Expand(Group([Alternative([Sym(Symbol.Terminal("GRAPH"))]), Alternative([Sym(Symbol.Terminal("OR")), Sym(Symbol.Terminal("REPLACE")), Sym(Symbol.Terminal("GRAPH"))])])) == {["GRAPH"], ["OR", "REPLACE", "GRAPH"]}
    ensures ElementUnits(Group([Alternative([Sym(Symbol.Terminal("GRAPH"))]), Alternative([Sym(Symbol.Terminal("OR")), Sym(Symbol.Terminal("REPLACE")), Sym(Symbol.Terminal("GRAPH"))])])) == {}
  {
    Step89();
  }

  /** One cross-product production: `CREATE` then `GRAPH`; used by test_11, test_12, test_13, test_14, test_15. */
  lemma Step91()
    ensures ["CREATE"] + ["GRAPH"] == ["CREATE", "GRAPH"]
  {
  }

  /** One cross-product production: `CREATE` then `OR REPLACE GRAPH`; used by test_11, test_12, test_13, test_14, test_15. */
  lemma Step92()
    ensures ["CREATE"] + ["OR", "REPLACE", "GRAPH"] == ["CREATE", "OR", "REPLACE", "GRAPH"]
  {
  }

  /** Expansion and repeated units of the elements `CREATE { GRAPH | OR REPLACE GRAPH }`; used by test_11. */
  lemma Step93()
    ensures ExpandSequence([Sym(Symbol.Terminal("CREATE")), Group([Alternative([Sym(Symbol.Terminal("GRAPH"))]), Alternative([Sym(Symbol.Terminal("OR")), Sym(Symbol.Terminal("REPLACE")), Sym(Symbol.Terminal("GRAPH"))])])]) == {["CREATE", "GRAPH"], ["CREATE", "OR", "REPLACE", "GRAPH"]}
    ensures SequenceUnits([Sym(Symbol.Terminal("CREATE")), Group([Alternative([Sym(Symbol.Terminal("GRAPH"))]), Alternative([Sym(Symbol.Terminal("OR")), Sym(Symbol.Terminal("REPLACE")), Sym(Symbol.Terminal("GRAPH"))])])]) == {}
  {
    Step78();
    Step90();
    Step91();
    Step92();
    assert [Sym(Symbol.Terminal("CREATE")), Group([Alternative([Sym(Symbol.Terminal("GRAPH"))]), Alternative([Sym(Symbol.Terminal("OR")), Sym(Symbol.Terminal("REPLACE")), Sym(Symbol.Terminal("GRAPH"))])])][..1] == [Sym(Symbol.Terminal("CREATE"))];
    Sequence1x2([Sym(Symbol.Terminal("CREATE")), Group([Alternative([Sym(Symbol.Terminal("GRAPH"))]), Alternative([Sym(Symbol.Terminal("OR")), Sym(Symbol.Terminal("REPLACE")), Sym(Symbol.Terminal("GRAPH"))])])], ["CREATE"], ["GRAPH"], ["OR", "REPLACE", "GRAPH"], {}, {});
  }

  /** Expansion and repeated units of the alternatives `CREATE { GRAPH | OR REPLACE GRAPH }`; used by test_11. */
  lemma Step94()
    ensures ExpandBody([Alternative([Sym(Symbol.Terminal("CREATE")), Group([Alternative([Sym(Symbol.Terminal("GRAPH"))]), Alternative([Sym(Symbol.Terminal("OR")), Sym(Symbol.Terminal("REPLACE")), Sym(Symbol.Terminal("GRAPH"))])])])]) == {["CREATE", "GRAPH"], ["CREATE", "OR", "REPLACE", "GRAPH"]}
    ensures BodyUnits([Alternative([Sym(Symbol.Terminal("CREATE")), Group([Alternative([Sym(Symbol.Terminal("GRAPH"))]), Alternative([Sym(Symbol.Terminal("OR")), Sym(Symbol.Terminal("REPLACE")), Sym(Symbol.Terminal("GRAPH"))])])])]) == {}
  {
    Step93();
    assert [Alternative([Sym(Symbol.Terminal("CREATE")), Group([Alternative([Sym(Symbol.Terminal("GRAPH"))]), Alternative([Sym(Symbol.Terminal("OR")), Sym(Symbol.Terminal("REPLACE")), Sym(Symbol.Terminal("GRAPH"))])])])][..0] == [];
  }

  /** Display name of `<create graph statement>`; used by test_11, test_12, test_13, test_14, test_15. */
  lemma Step95()
    ensures Normalize("create graph statement") == "create_graph_statement"
  {
  }

  /** Expansion and repeated units of the element `PROPERTY`; used by test_12, test_13, test_14, test_15. */
  lemma Step96()
    ensures Expand(Sym(Symbol.Terminal("PROPERTY"))) == {["PROPERTY"]}
    ensures ElementUnits(Sym(Symbol.Terminal("PROPERTY"))) == {}
  {
  }

  /** Expansion and repeated units of the elements `PROPERTY`; used by test_12, test_13, test_14, test_15. */
  lemma Step97()
    ensures ExpandSequence([Sym(Symbol.Terminal("PROPERTY"))]) == {["PROPERTY"]}
    ensures SequenceUnits([Sym(Symbol.Terminal("PROPERTY"))]) == {}
  {
    Step96();
    assert [Sym(Symbol.Terminal("PROPERTY"))][..0] == [];
    SequenceUnitLeft([Sym(Symbol.Terminal("PROPERTY"))], {["PROPERTY"]}, {}, {});
  }

  /** Expansion and repeated units of the alternatives `PROPERTY`; used by test_12, test_13, test_14, test_15. */
  lemma Step98()
    ensures ExpandBody([Alternative([Sym(Symbol.Terminal("PROPERTY"))])]) == {["PROPERTY"]}
    ensures BodyUnits([Alternative([Sym(Symbol.Terminal("PROPERTY"))])]) == {}
  {
    Step97();
    assert [Alternative([Sym(Symbol.Terminal("PROPERTY"))])][..0] == [];
  }

  /** Expansion and repeated units of the element `[ PROPERTY ]`; used by test_12, test_13, test_14, test_15. */
  lemma Step99()
    ensures Expand(Opt([Alternative([Sym(Symbol.Terminal("PROPERTY"))])])) == {["PROPERTY"], []}
    ensures ElementUnits(Opt([Alternative([Sym(Symbol.Terminal("PROPERTY"))])])) == {}
  {
    Step98();
  }

  /** Expansion and repeated units of the elements `[ PROPERTY ]`; used by test_12, test_13, test_14, test_15. */
  lemma Step100()
    ensures ExpandSequence([Opt([Alternative([Sym(Symbol.Terminal("PROPERTY"))])])]) == {["PROPERTY"], []}
    ensures SequenceUnits([Opt([Alternative([Sym(Symbol.Terminal("PROPERTY"))])])]) == {}
  {
    Step99();
    assert [Opt([Alternative([Sym(Symbol.Terminal("PROPERTY"))])])][..0] == [];
    SequenceUnitLeft([Opt([Alternative([Sym(Symbol.Terminal("PROPERTY"))])])], {["PROPERTY"], []}, {}, {});
  }

  /** One cross-product production: `PROPERTY` then `GRAPH`; used by test_12, test_13, test_14, test_15. */
  lemma Step101()
    ensures ["PROPERTY"] + ["GRAPH"] == ["PROPERTY", "GRAPH"]
  {
  }

  /** One cross-product production: `the empty production` then `GRAPH`; used by test_12, test_13, test_14, test_15. */
  lemma Step102()
    ensures [] + ["GRAPH"] == ["GRAPH"]
  {
  }

  /** Expansion and repeated units of the elements `[ PROPERTY ] GRAPH`; used by test_12, test_13, test_14, test_15. */
  lemma Step103()
    ensures ExpandSequence([Opt([Alternative([Sym(Symbol.Terminal("PROPERTY"))])]), Sym(Symbol.Terminal("GRAPH"))]) == {["PROPERTY", "GRAPH"], ["GRAPH"]}
    ensures SequenceUnits([Opt([Alternative([Sym(Symbol.Terminal("PROPERTY"))])]), Sym(Symbol.Terminal("GRAPH"))]) == {}
  {
    Step100();
    Step79();
    Step101();
    Step102();
    assert [Opt([Alternative([Sym(Symbol.Terminal("PROPERTY"))])]), Sym(Symbol.Terminal("GRAPH"))][..1] == [Opt([Alternative([Sym(Symbol.Terminal("PROPERTY"))])])];
    Sequence2x1([Opt([Alternative([Sym(Symbol.Terminal("PROPERTY"))])]), Sym(Symbol.Terminal("GRAPH"))], ["PROPERTY"], [], ["GRAPH"], {}, {});
  }

  /** Expansion and repeated units of the element `IF`; used by test_12, test_13, test_14, test_15. */
  lemma Step104()
    ensures Expand(Sym(Symbol.Terminal("IF"))) == {["IF"]}
    ensures ElementUnits(Sym(Symbol.Terminal("IF"))) == {}
  {
  }

  /** Expansion and repeated units of the elements `IF`; used by test_12, test_13, test_14, test_15. */
  lemma Step105()
    ensures ExpandSequence([Sym(Symbol.Terminal("IF"))]) == {["IF"]}
    ensures SequenceUnits([Sym(Symbol.Terminal("IF"))]) == {}
  {
    Step104();
    assert [Sym(Symbol.Terminal("IF"))][..0] == [];
    SequenceUnitLeft([Sym(Symbol.Terminal("IF"))], {["IF"]}, {}, {});
  }

  /** Expansion and repeated units of the element `NOT`; used by test_12, test_13, test_14, test_15. */
  lemma Step106()
    ensures Expand(Sym(Symbol.Terminal("NOT"))) == {["NOT"]}
    ensures ElementUnits(Sym(Symbol.Terminal("NOT"))) == {}
  {
  }

  /** One cross-product production: `IF` then `NOT`; used by test_12, test_13, test_14, test_15. */
  lemma Step107()
    ensures ["IF"] + ["NOT"] == ["IF", "NOT"]
  {
  }

  /** Expansion and repeated units of the elements `IF NOT`; used by test_12, test_13, test_14, test_15. */
  lemma Step108()
    ensures ExpandSequence([Sym(Symbol.Terminal("IF")), Sym(Symbol.Terminal("NOT"))]) == {["IF", "NOT"]}
    ensures SequenceUnits([Sym(Symbol.Terminal("IF")), Sym(Symbol.Terminal("NOT"))]) == {}
  {
    Step105();
    Step106();
    Step107();
    assert [Sym(Symbol.Terminal("IF")), Sym(Symbol.Terminal("NOT"))][..1] == [Sym(Symbol.Terminal("IF"))];
    Sequence1x1([Sym(Symbol.Terminal("IF")), Sym(Symbol.Terminal("NOT"))], ["IF"], ["NOT"], {}, {});
  }

  /** Expansion and repeated units of the element `EXISTS`; used by test_12, test_13, test_14, test_15, test_17. */
  lemma Step109()
    ensures Expand(Sym(Symbol.Terminal("EXISTS"))) == {["EXISTS"]}
    ensures ElementUnits(Sym(Symbol.Terminal("EXISTS"))) == {}
  {
  }

  /** One cross-product production: `IF NOT` then `EXISTS`; used by test_12, test_13, test_14, test_15. */
  lemma Step110()
    ensures ["IF", "NOT"] + ["EXISTS"] == ["IF", "NOT", "EXISTS"]
  {
  }

  /** Expansion and repeated units of the elements `IF NOT EXISTS`; used by test_12, test_13, test_14, test_15. */
  lemma Step111()
    ensures ExpandSequence([Sym(Symbol.Terminal("IF")), Sym(Symbol.Terminal("NOT")), Sym(Symbol.Terminal("EXISTS"))]) == {["IF", "NOT", "EXISTS"]}
    ensures SequenceUnits([Sym(Symbol.Terminal("IF")), Sym(Symbol.Terminal("NOT")), Sym(Symbol.Terminal("EXISTS"))]) == {}
  {
    Step108();
    Step109();
    Step110();
    assert [Sym(Symbol.Terminal("IF")), Sym(Symbol.Terminal("NOT")), Sym(Symbol.Terminal("EXISTS"))][..2] == [Sym(Symbol.Terminal("IF")), Sym(Symbol.Terminal("NOT"))];
    Sequence1x1([Sym(Symbol.Terminal("IF")), Sym(Symbol.Terminal("NOT")), Sym(Symbol.Terminal("EXISTS"))], ["IF", "NOT"], ["EXISTS"], {}, {});
  }

  /** Expansion and repeated units of the alternatives `IF NOT EXISTS`; used by test_12, test_13, test_14, test_15. */
  lemma Step112()
    ensures ExpandBody([Alternative([Sym(Symbol.Terminal("IF")), Sym(Symbol.Terminal("NOT")), Sym(Symbol.Terminal("EXISTS"))])]) == {["IF", "NOT", "EXISTS"]}
    ensures BodyUnits([Alternative([Sym(Symbol.Terminal("IF")), Sym(Symbol.Terminal("NOT")), Sym(Symbol.Terminal("EXISTS"))])]) == {}
  {
    Step111();
    assert [Alternative([Sym(Symbol.Terminal("IF")), Sym(Symbol.Terminal("NOT")), Sym(Symbol.Terminal("EXISTS"))])][..0] == [];
  }

  /** Expansion and repeated units of the element `[ IF NOT EXISTS ]`; used by test_12, test_13, test_14, test_15. */
  lemma Step113()
    ensures Expand(Opt([Alternative([Sym(Symbol.Terminal("IF")), Sym(Symbol.Terminal("NOT")), Sym(Symbol.Terminal("EXISTS"))])])) == {["IF", "NOT", "EXISTS"], []}
    ensures ElementUnits(Opt([Alternative([Sym(Symbol.Terminal("IF")), Sym(Symbol.Terminal("NOT")), Sym(Symbol.Terminal("EXISTS"))])])) == {}
  {
    Step112();
  }

  /** One cross-product production: `PROPERTY GRAPH` then `IF NOT EXISTS`; used by test_12, test_13, test_14, test_15. */
  lemma Step114()
    ensures ["PROPERTY", "GRAPH"] + ["IF", "NOT", "EXISTS"] == ["PROPERTY", "GRAPH", "IF", "NOT", "EXISTS"]
  {
  }

  /** One cross-product production: `PROPERTY GRAPH` then `the empty production`; used by test_12, test_13, test_14, test_15. */
  lemma Step115()
    ensures ["PROPERTY", "GRAPH"] + [] == ["PROPERTY", "GRAPH"]
  {
  }

  /** One cross-product production: `GRAPH` then `IF NOT EXISTS`; used by test_12, test_13, test_14, test_15. */
  lemma Step116()
    ensures ["GRAPH"] + ["IF", "NOT", "EXISTS"] == ["GRAPH", "IF", "NOT", "EXISTS"]
  {
  }

  /** One cross-product production: `GRAPH` then `the empty production`; used by test_12, test_13, test_14, test_15. */
  lemma Step117()
    ensures ["GRAPH"] + [] == ["GRAPH"]
  {
  }

  /** Expansion and repeated units of the elements `[ PROPERTY ] GRAPH [ IF NOT EXISTS ]`; used by test_12, test_13, test_14, test_15. */
  lemma Step118()
    ensures ExpandSequence([Opt([Alternative([Sym(Symbol.Terminal("PROPERTY"))])]), Sym(Symbol.Terminal("GRAPH")), Opt([Alternative([Sym(Symbol.Terminal("IF")), Sym(Symbol.Terminal("NOT")), Sym(Symbol.Terminal("EXISTS"))])])]) == {["PROPERTY", "GRAPH", "IF", "NOT", "EXISTS"], ["PROPERTY", "GRAPH"], ["GRAPH", "IF", "NOT", "EXISTS"], ["GRAPH"]}
    ensures SequenceUnits([Opt([Alternative([Sym(Symbol.Terminal("PROPERTY"))])]), Sym(Symbol.Terminal("GRAPH")), Opt([Alternative([Sym(Symbol.Terminal("IF")), Sym(Symbol.Terminal("NOT")), Sym(Symbol.Terminal("EXISTS"))])])]) == {}
  {
    Step103();
    Step113();
    Step114();
    Step115();
    Step116();
    Step117();
    assert [Opt([Alternative([Sym(Symbol.Terminal("PROPERTY"))])]), Sym(Symbol.Terminal("GRAPH")), Opt([Alternative([Sym(Symbol.Terminal("IF")), Sym(Symbol.Terminal("NOT")), Sym(Symbol.Terminal("EXISTS"))])])][..2] == [Opt([Alternative([Sym(Symbol.Terminal("PROPERTY"))])]), Sym(Symbol.Terminal("GRAPH"))];
    Sequence2x2([Opt([Alternative([Sym(Symbol.Terminal("PROPERTY"))])]), Sym(Symbol.Terminal("GRAPH")), Opt([Alternative([Sym(Symbol.Terminal("IF")), Sym(Symbol.Terminal("NOT")), Sym(Symbol.Terminal("EXISTS"))])])], ["PROPERTY", "GRAPH"], ["GRAPH"], ["IF", "NOT", "EXISTS"], [], {}, {});
  }

  /** Expansion and repeated units of the alternatives `[ PROPERTY ] GRAPH [ IF NOT EXISTS ]`; used by test_12, test_13, test_14, test_15. */
  lemma Step119()
    ensures ExpandBody([Alternative([Opt([Alternative([Sym(Symbol.Terminal("PROPERTY"))])]), Sym(Symbol.Terminal("GRAPH")), Opt([Alternative([Sym(Symbol.Terminal("IF")), Sym(Symbol.Terminal("NOT")), Sym(Symbol.Terminal("EXISTS"))])])])]) == {["PROPERTY", "GRAPH", "IF", "NOT", "EXISTS"], ["PROPERTY", "GRAPH"], ["GRAPH", "IF", "NOT", "EXISTS"], ["GRAPH"]}
    ensures BodyUnits([Alternative([Opt([Alternative([Sym(Symbol.Terminal("PROPERTY"))])]), Sym(Symbol.Terminal("GRAPH")), Opt([Alternative([Sym(Symbol.Terminal("IF")), Sym(Symbol.Terminal("NOT")), Sym(Symbol.Terminal("EXISTS"))])])])]) == {}
  {
    Step118();
    assert [Alternative([Opt([Alternative([Sym(Symbol.Terminal("PROPERTY"))])]), Sym(Symbol.Terminal("GRAPH")), Opt([Alternative([Sym(Symbol.Terminal("IF")), Sym(Symbol.Terminal("NOT")), Sym(Symbol.Terminal("EXISTS"))])])])][..0] == [];
  }

  /** One cross-product production: `OR REPLACE` then `PROPERTY`; used by test_12, test_13, test_14, test_15. */
  lemma Step120()
    ensures ["OR", "REPLACE"] + ["PROPERTY"] == ["OR", "REPLACE", "PROPERTY"]
  {
  }

  /** One cross-product production: `OR REPLACE` then `the empty production`; used by test_12, test_13, test_14, test_15. */
  lemma Step121()
    ensures ["OR", "REPLACE"] + [] == ["OR", "REPLACE"]
  {
  }

  /** Expansion and repeated units of the elements `OR REPLACE [ PROPERTY ]`; used by test_12, test_13, test_14, test_15. */
  lemma Step122()
    ensures ExpandSequence([Sym(Symbol.Terminal("OR")), Sym(Symbol.Terminal("REPLACE")), Opt([Alternative([Sym(Symbol.Terminal("PROPERTY"))])])]) == {["OR", "REPLACE", "PROPERTY"], ["OR", "REPLACE"]}
    ensures SequenceUnits([Sym(Symbol.Terminal("OR")), Sym(Symbol.Terminal("REPLACE")), Opt([Alternative([Sym(Symbol.Terminal("PROPERTY"))])])]) == {}
  {
    Step86();
    Step99();
    Step120();
    Step121();
    assert [Sym(Symbol.Terminal("OR")), Sym(Symbol.Terminal("REPLACE")), Opt([Alternative([Sym(Symbol.Terminal("PROPERTY"))])])][..2] == [Sym(Symbol.Terminal("OR")), Sym(Symbol.Terminal("REPLACE"))];
    Sequence1x2([Sym(Symbol.Terminal("OR")), Sym(Symbol.Terminal("REPLACE")), Opt([Alternative([Sym(Symbol.Terminal("PROPERTY"))])])], ["OR", "REPLACE"], ["PROPERTY"], [], {}, {});
  }

  /** One cross-product production: `OR REPLACE PROPERTY` then `GRAPH`; used by test_12, test_13, test_14, test_15. */
  lemma Step123()
    ensures ["OR", "REPLACE", "PROPERTY"] + ["GRAPH"] == ["OR", "REPLACE", "PROPERTY", "GRAPH"]
  {
  }

  /** Expansion and repeated units of the elements `OR REPLACE [ PROPERTY ] GRAPH`; used by test_12, test_13, test_14, test_15. */
  lemma Step124()
    ensures ExpandSequence([Sym(Symbol.Terminal("OR")), Sym(Symbol.Terminal("REPLACE")), Opt([Alternative([Sym(Symbol.Terminal("PROPERTY"))])]), Sym(Symbol.Terminal("GRAPH"))]) == {["OR", "REPLACE", "PROPERTY", "GRAPH"], ["OR", "REPLACE", "GRAPH"]}
    ensures SequenceUnits([Sym(Symbol.Terminal("OR")), Sym(Symbol.Terminal("REPLACE")), Opt([Alternative([Sym(Symbol.Terminal("PROPERTY"))])]), Sym(Symbol.Terminal("GRAPH"))]) == {}
  {
    Step122();
    Step79();
    Step123();
    Step87();
    assert [Sym(Symbol.Terminal("OR")), Sym(Symbol.Terminal("REPLACE")), Opt([Alternative([Sym(Symbol.Terminal("PROPERTY"))])]), Sym(Symbol.Terminal("GRAPH"))][..3] == [Sym(Symbol.Terminal("OR")), Sym(Symbol.Terminal("REPLACE")), Opt([Alternative([Sym(Symbol.Terminal("PROPERTY"))])])];
    Sequence2x1([Sym(Symbol.Terminal("OR")), Sym(Symbol.Terminal("REPLACE")), Opt([Alternative([Sym(Symbol.Terminal("PROPERTY"))])]), Sym(Symbol.Terminal("GRAPH"))], ["OR", "REPLACE", "PROPERTY"], ["OR", "REPLACE"], ["GRAPH"], {}, {});
  }

  /** Expansion and repeated units of the alternatives `[ PROPERTY ] GRAPH [ IF NOT EXISTS ] | OR REPLACE [ PROPERTY ] GRAPH`; used by test_12, test_13, test_14, test_15. */
  lemma Step125()
    ensures ExpandBody([Alternative([Opt([Alternative([Sym(Symbol.Terminal("PROPERTY"))])]), Sym(Symbol.Terminal("GRAPH")), Opt([Alternative([Sym(Symbol.Terminal("IF")), Sym(Symbol.Terminal("NOT")), Sym(Symbol.Terminal("EXISTS"))])])]), Alternative([Sym(Symbol.Terminal("OR")), Sym(Symbol.Terminal("REPLACE")), Opt([Alternative([Sym(Symbol.Terminal("PROPERTY"))])]), Sym(Symbol.Terminal("GRAPH"))])]) == {["PROPERTY", "GRAPH", "IF", "NOT", "EXISTS"], ["PROPERTY", "GRAPH"], ["GRAPH", "IF", "NOT", "EXISTS"], ["GRAPH"], ["OR", "REPLACE", "PROPERTY", "GRAPH"], ["OR", "REPLACE", "GRAPH"]}
    ensures BodyUnits([Alternative([Opt([Alternative([Sym(Symbol.Terminal("PROPERTY"))])]), Sym(Symbol.Terminal("GRAPH")), Opt([Alternative([Sym(Symbol.Terminal("IF")), Sym(Symbol.Terminal("NOT")), Sym(Symbol.Terminal("EXISTS"))])])]), Alternative([Sym(Symbol.Terminal("OR")), Sym(Symbol.Terminal("REPLACE")), Opt([Alternative([Sym(Symbol.Terminal("PROPERTY"))])]), Sym(Symbol.Terminal("GRAPH"))])]) == {}
  {
    Step119();
    Step124();
    assert [Alternative([Opt([Alternative([Sym(Symbol.Terminal("PROPERTY"))])]), Sym(Symbol.Terminal("GRAPH")), Opt([Alternative([Sym(Symbol.Terminal("IF")), Sym(Symbol.Terminal("NOT")), Sym(Symbol.Terminal("EXISTS"))])])]), Alternative([Sym(Symbol.Terminal("OR")), Sym(Symbol.Terminal("REPLACE")), Opt([Alternative([Sym(Symbol.Terminal("PROPERTY"))])]), Sym(Symbol.Terminal("GRAPH"))])][..1] == [Alternative([Opt([Alternative([Sym(Symbol.Terminal("PROPERTY"))])]), Sym(Symbol.Terminal("GRAPH")), Opt([Alternative([Sym(Symbol.Terminal("IF")), Sym(Symbol.Terminal("NOT")), Sym(Symbol.Terminal("EXISTS"))])])])];
  }

  /** Expansion and repeated units of the element `{ [ PROPERTY ] GRAPH [ IF NOT EXISTS ] | OR REPLACE [ PROPERTY ] GRAPH }`; used by test_12, test_13, test_14, test_15. */
  lemma Step126()
    ensures Expand(Group([Alternative([Opt([Alternative([Sym(Symbol.Terminal("PROPERTY"))])]), Sym(Symbol.Terminal("GRAPH")), Opt([Alternative([Sym(Symbol.Terminal("IF")), Sym(Symbol.Terminal("NOT")), Sym(Symbol.Terminal("EXISTS"))])])]), Alternative([Sym(Symbol.Terminal("OR")), Sym(Symbol.Terminal("REPLACE")), Opt([Alternative([Sym(Symbol.Terminal("PROPERTY"))])]), Sym(Symbol.Terminal("GRAPH"))])])) == {["PROPERTY", "GRAPH", "IF", "NOT", "EXISTS"], ["PROPERTY", "GRAPH"], ["GRAPH", "IF", "NOT", "EXISTS"], ["GRAPH"], ["OR", "REPLACE", "PROPERTY", "GRAPH"], ["OR", "REPLACE", "GRAPH"]}
    ensures ElementUnits(Group([Alternative([Opt([Alternative([Sym(Symbol.Terminal("PROPERTY"))])]), Sym(Symbol.Terminal("GRAPH")), Opt([Alternative([Sym(Symbol.Terminal("IF")), Sym(Symbol.Terminal("NOT")), Sym(Symbol.Terminal("EXISTS"))])])]), Alternative([Sym(Symbol.Terminal("OR")), Sym(Symbol.Terminal("REPLACE")), Opt([Alternative([Sym(Symbol.Terminal("PROPERTY"))])]), Sym(Symbol.Terminal("GRAPH"))])])) == {}
  {
    Step125();
  }

  /** One cross-product production: `CREATE` then `PROPERTY GRAPH IF NOT EXISTS`; used by test_12, test_13, test_14, test_15. */
  lemma Step127()
    ensures ["CREATE"] + ["PROPERTY", "GRAPH", "IF", "NOT", "EXISTS"] == ["CREATE", "PROPERTY", "GRAPH", "IF", "NOT", "EXISTS"]
  {
  }

  /** One cross-product production: `CREATE` then `PROPERTY GRAPH`; used by test_12, test_13, test_14, test_15. */
  lemma Step128()
    ensures ["CREATE"] + ["PROPERTY", "GRAPH"] == ["CREATE", "PROPERTY", "GRAPH"]
  {
  }

  /** One cross-product production: `CREATE` then `GRAPH IF NOT EXISTS`; used by test_12, test_13, test_14, test_15. */
  lemma Step129()
    ensures ["CREATE"] + ["GRAPH", "IF", "NOT", "EXISTS"] == ["CREATE", "GRAPH", "IF", "NOT", "EXISTS"]
  {
  }

  /** One cross-product production: `CREATE` then `OR REPLACE PROPERTY GRAPH`; used by test_12, test_13, test_14, test_15. */
  lemma Step130()
    ensures ["CREATE"] + ["OR", "REPLACE", "PROPERTY", "GRAPH"] == ["CREATE", "OR", "REPLACE", "PROPERTY", "GRAPH"]
  {
  }

  /** Expansion and repeated units of the elements `CREATE { [ PROPERTY ] GRAPH [ IF NOT EXISTS ] | OR REPLACE [ PROPERTY ] GRAPH }`; used by test_12, test_13, test_14, test_15. */
  lemma Step131()
    ensures ExpandSequence([Sym(Symbol.Terminal("CREATE")), Group([Alternative([Opt([Alternative([Sym(Symbol.Terminal("PROPERTY"))])]), Sym(Symbol.Terminal("GRAPH")), Opt([Alternative([Sym(Symbol.Terminal("IF")), Sym(Symbol.Terminal("NOT")), Sym(Symbol.Terminal("EXISTS"))])])]), Alternative([Sym(Symbol.Terminal("OR")), Sym(Symbol.Terminal("REPLACE")), Opt([Alternative([Sym(Symbol.Terminal("PROPERTY"))])]), Sym(Symbol.Terminal("GRAPH"))])])]) == {["CREATE", "PROPERTY", "GRAPH", "IF", "NOT", "EXISTS"], ["CREATE", "PROPERTY", "GRAPH"], ["CREATE", "GRAPH", "IF", "NOT", "EXISTS"], ["CREATE", "GRAPH"], ["CREATE", "OR", "REPLACE", "PROPERTY", "GRAPH"], ["CREATE", "OR", "REPLACE", "GRAPH"]}
    ensures SequenceUnits([Sym(Symbol.Terminal("CREATE")), Group([Alternative([Opt([Alternative([Sym(Symbol.Terminal("PROPERTY"))])]), Sym(Symbol.Terminal("GRAPH")), Opt([Alternative([Sym(Symbol.Terminal("IF")), Sym(Symbol.Terminal("NOT")), Sym(Symbol.Terminal("EXISTS"))])])]), Alternative([Sym(Symbol.Terminal("OR")), Sym(Symbol.Terminal("REPLACE")), Opt([Alternative([Sym(Symbol.Terminal("PROPERTY"))])]), Sym(Symbol.Terminal("GRAPH"))])])]) == {}
  {
    Step78();
    Step126();
    Step127();
    Step128();
    Step129();
    Step91();
    Step130();
    Step92();
    assert [Sym(Symbol.Terminal("CREATE")), Group([Alternative([Opt([Alternative([Sym(Symbol.Terminal("PROPERTY"))])]), Sym(Symbol.Terminal("GRAPH")), Opt([Alternative([Sym(Symbol.Terminal("IF")), Sym(Symbol.Terminal("NOT")), Sym(Symbol.Terminal("EXISTS"))])])]), Alternative([Sym(Symbol.Terminal("OR")), Sym(Symbol.Terminal("REPLACE")), Opt([Alternative([Sym(Symbol.Terminal("PROPERTY"))])]), Sym(Symbol.Terminal("GRAPH"))])])][..1] == [Sym(Symbol.Terminal("CREATE"))];
    Sequence1x6([Sym(Symbol.Terminal("CREATE")), Group([Alternative([Opt([Alternative([Sym(Symbol.Terminal("PROPERTY"))])]), Sym(Symbol.Terminal("GRAPH")), Opt([Alternative([Sym(Symbol.Terminal("IF")), Sym(Symbol.Terminal("NOT")), Sym(Symbol.Terminal("EXISTS"))])])]), Alternative([Sym(Symbol.Terminal("OR")), Sym(Symbol.Terminal("REPLACE")), Opt([Alternative([Sym(Symbol.Terminal("PROPERTY"))])]), Sym(Symbol.Terminal("GRAPH"))])])], ["CREATE"], ["PROPERTY", "GRAPH", "IF", "NOT", "EXISTS"], ["PROPERTY", "GRAPH"], ["GRAPH", "IF", "NOT", "EXISTS"], ["GRAPH"], ["OR", "REPLACE", "PROPERTY", "GRAPH"], ["OR", "REPLACE", "GRAPH"], {}, {});
  }

  /** Expansion and repeated units of the alternatives `CREATE { [ PROPERTY ] GRAPH [ IF NOT EXISTS ] | OR REPLACE [ PROPERTY ] GRAPH }`; used by test_12. */
  lemma Step132()
    ensures ExpandBody([Alternative([Sym(Symbol.Terminal("CREATE")), Group([Alternative([Opt([Alternative([Sym(Symbol.Terminal("PROPERTY"))])]), Sym(Symbol.Terminal("GRAPH")), Opt([Alternative([Sym(Symbol.Terminal("IF")), Sym(Symbol.Terminal("NOT")), Sym(Symbol.Terminal("EXISTS"))])])]), Alternative([Sym(Symbol.Terminal("OR")), Sym(Symbol.Terminal("REPLACE")), Opt([Alternative([Sym(Symbol.Terminal("PROPERTY"))])]), Sym(Symbol.Terminal("GRAPH"))])])])]) == {["CREATE", "PROPERTY", "GRAPH", "IF", "NOT", "EXISTS"], ["CREATE", "PROPERTY", "GRAPH"], ["CREATE", "GRAPH", "IF", "NOT", "EXISTS"], ["CREATE", "GRAPH"], ["CREATE", "OR", "REPLACE", "PROPERTY", "GRAPH"], ["CREATE", "OR", "REPLACE", "GRAPH"]}
    ensures BodyUnits([Alternative([Sym(Symbol.Terminal("CREATE")), Group([Alternative([Opt([Alternative([Sym(Symbol.Terminal("PROPERTY"))])]), Sym(Symbol.Terminal("GRAPH")), Opt([Alternative([Sym(Symbol.Terminal("IF")), Sym(Symbol.Terminal("NOT")), Sym(Symbol.Terminal("EXISTS"))])])]), Alternative([Sym(Symbol.Terminal("OR")), Sym(Symbol.Terminal("REPLACE")), Opt([Alternative([Sym(Symbol.Terminal("PROPERTY"))])]), Sym(Symbol.Terminal("GRAPH"))])])])]) == {}
  {
    Step131();
    assert [Alternative([Sym(Symbol.Terminal("CREATE")), Group([Alternative([Opt([Alternative([Sym(Symbol.Terminal("PROPERTY"))])]), Sym(Symbol.Terminal("GRAPH")), Opt([Alternative([Sym(Symbol.Terminal("IF")), Sym(Symbol.Terminal("NOT")), Sym(Symbol.Terminal("EXISTS"))])])]), Alternative([Sym(Symbol.Terminal("OR")), Sym(Symbol.Terminal("REPLACE")), Opt([Alternative([Sym(Symbol.Terminal("PROPERTY"))])]), Sym(Symbol.Terminal("GRAPH"))])])])][..0] == [];
  }

  /** Expansion and repeated units of the element `<catalog graph parent and name>`; used by test_13, test_14, test_15. */
  lemma Step133()
    ensures Expand(Sym(Symbol.Nonterminal("catalog graph parent and name"))) == {["catalog_graph_parent_and_name"]}
    ensures ElementUnits(Sym(Symbol.Nonterminal("catalog graph parent and name"))) == {}
  {
    assert Normalize("catalog graph parent and name") == "catalog_graph_parent_and_name";
  }

  /** One cross-product production: `CREATE PROPERTY GRAPH IF NOT EXISTS` then `catalog_graph_parent_and_name`; used by test_13, test_14, test_15. */
  lemma Step134()
    ensures ["CREATE", "PROPERTY", "GRAPH", "IF", "NOT", "EXISTS"] + ["catalog_graph_parent_and_name"] == ["CREATE", "PROPERTY", "GRAPH", "IF", "NOT", "EXISTS", "catalog_graph_parent_and_name"]
  {
  }

  /** One cross-product production: `CREATE PROPERTY GRAPH` then `catalog_graph_parent_and_name`; used by test_13, test_14, test_15. */
  lemma Step135()
    ensures ["CREATE", "PROPERTY", "GRAPH"] + ["catalog_graph_parent_and_name"] == ["CREATE", "PROPERTY", "GRAPH", "catalog_graph_parent_and_name"]
  {
  }

  /** One cross-product production: `CREATE GRAPH IF NOT EXISTS` then `catalog_graph_parent_and_name`; used by test_13, test_14, test_15. */
  lemma Step136()
    ensures ["CREATE", "GRAPH", "IF", "NOT", "EXISTS"] + ["catalog_graph_parent_and_name"] == ["CREATE", "GRAPH", "IF", "NOT", "EXISTS", "catalog_graph_parent_and_name"]
  {
  }

  /** One cross-product production: `CREATE GRAPH` then `catalog_graph_parent_and_name`; used by test_13, test_14, test_15. */
  lemma Step137()
    ensures ["CREATE", "GRAPH"] + ["catalog_graph_parent_and_name"] == ["CREATE", "GRAPH", "catalog_graph_parent_and_name"]
  {
  }

  /** One cross-product production: `CREATE OR REPLACE PROPERTY GRAPH` then `catalog_graph_parent_and_name`; used by test_13, test_14, test_15. */
  lemma Step138()
    ensures ["CREATE", "OR", "REPLACE", "PROPERTY", "GRAPH"] + ["catalog_graph_parent_and_name"] == ["CREATE", "OR", "REPLACE", "PROPERTY", "GRAPH", "catalog_graph_parent_and_name"]
  {
  }

  /** One cross-product production: `CREATE OR REPLACE GRAPH` then `catalog_graph_parent_and_name`; used by test_13, test_14, test_15. */
  lemma Step139()
    ensures ["CREATE", "OR", "REPLACE", "GRAPH"] + ["catalog_graph_parent_and_name"] == ["CREATE", "OR", "REPLACE", "GRAPH", "catalog_graph_parent_and_name"]
  {
  }

  /** Expansion and repeated units of the elements `CREATE { [ PROPERTY ] GRAPH [ IF NOT EXISTS ] | OR REPLACE [ PROPERTY ] GRAPH } <catalog graph parent and name>`; used by test_13, test_14, test_15. */
  lemma Step140()
    ensures ExpandSequence([Sym(Symbol.Terminal("CREATE")), Group([Alternative([Opt([Alternative([Sym(Symbol.Terminal("PROPERTY"))])]), Sym(Symbol.Terminal("GRAPH")), Opt([Alternative([Sym(Symbol.Terminal("IF")), Sym(Symbol.Terminal("NOT")), Sym(Symbol.Terminal("EXISTS"))])])]), Alternative([Sym(Symbol.Terminal("OR")), Sym(Symbol.Terminal("REPLACE")), Opt([Alternative([Sym(Symbol.Terminal("PROPERTY"))])]), Sym(Symbol.Terminal("GRAPH"))])]), Sym(Symbol.Nonterminal("catalog graph parent and name"))]) == {["CREATE", "PROPERTY", "GRAPH", "IF", "NOT", "EXISTS", "catalog_graph_parent_and_name"], ["CREATE", "PROPERTY", "GRAPH", "catalog_graph_parent_and_name"], ["CREATE", "GRAPH", "IF", "NOT", "EXISTS", "catalog_graph_parent_and_name"], ["CREATE", "GRAPH", "catalog_graph_parent_and_name"], ["CREATE", "OR", "REPLACE", "PROPERTY", "GRAPH", "catalog_graph_parent_and_name"], ["CREATE", "OR", "REPLACE", "GRAPH", "catalog_graph_parent_and_name"]}
    ensures SequenceUnits([Sym(Symbol.Terminal("CREATE")), Group([Alternative([Opt([Alternative([Sym(Symbol.Terminal("PROPERTY"))])]), Sym(Symbol.Terminal("GRAPH")), Opt([Alternative([Sym(Symbol.Terminal("IF")), Sym(Symbol.Terminal("NOT")), Sym(Symbol.Terminal("EXISTS"))])])]), Alternative([Sym(Symbol.Terminal("OR")), Sym(Symbol.Terminal("REPLACE")), Opt([Alternative([Sym(Symbol.Terminal("PROPERTY"))])]), Sym(Symbol.Terminal("GRAPH"))])]), Sym(Symbol.Nonterminal("catalog graph parent and name"))]) == {}
  {
    Step131();
    Step133();
    Step134();
    Step135();
    Step136();
    Step137();
    Step138();
    Step139();
    assert [Sym(Symbol.Terminal("CREATE")), Group([Alternative([Opt([Alternative([Sym(Symbol.Terminal("PROPERTY"))])]), Sym(Symbol.Terminal("GRAPH")), Opt([Alternative([Sym(Symbol.Terminal("IF")), Sym(Symbol.Terminal("NOT")), Sym(Symbol.Terminal("EXISTS"))])])]), Alternative([Sym(Symbol.Terminal("OR")), Sym(Symbol.Terminal("REPLACE")), Opt([Alternative([Sym(Symbol.Terminal("PROPERTY"))])]), Sym(Symbol.Terminal("GRAPH"))])]), Sym(Symbol.Nonterminal("catalog graph parent and name"))][..2] == [Sym(Symbol.Terminal("CREATE")), Group([Alternative([Opt([Alternative([Sym(Symbol.Terminal("PROPERTY"))])]), Sym(Symbol.Terminal("GRAPH")), Opt([Alternative([Sym(Symbol.Terminal("IF")), Sym(Symbol.Terminal("NOT")), Sym(Symbol.Terminal("EXISTS"))])])]), Alternative([Sym(Symbol.Terminal("OR")), Sym(Symbol.Terminal("REPLACE")), Opt([Alternative([Sym(Symbol.Terminal("PROPERTY"))])]), Sym(Symbol.Terminal("GRAPH"))])])];
    Sequence6x1([Sym(Symbol.Terminal("CREATE")), Group([Alternative([Opt([Alternative([Sym(Symbol.Terminal("PROPERTY"))])]), Sym(Symbol.Terminal("GRAPH")), Opt([Alternative([Sym(Symbol.Terminal("IF")), Sym(Symbol.Terminal("NOT")), Sym(Symbol.Terminal("EXISTS"))])])]), Alternative([Sym(Symbol.Terminal("OR")), Sym(Symbol.Terminal("REPLACE")), Opt([Alternative([Sym(Symbol.Terminal("PROPERTY"))])]), Sym(Symbol.Terminal("GRAPH"))])]), Sym(Symbol.Nonterminal("catalog graph parent and name"))], ["CREATE", "PROPERTY", "GRAPH", "IF", "NOT", "EXISTS"], ["CREATE", "PROPERTY", "GRAPH"], ["CREATE", "GRAPH", "IF", "NOT", "EXISTS"], ["CREATE", "GRAPH"], ["CREATE", "OR", "REPLACE", "PROPERTY", "GRAPH"], ["CREATE", "OR", "REPLACE", "GRAPH"], ["catalog_graph_parent_and_name"], {}, {});
  }

  /** Expansion and repeated units of the alternatives `CREATE { [ PROPERTY ] GRAPH [ IF NOT EXISTS ] | OR REPLACE [ PROPERTY ] GRAPH } <catalog graph parent and name>`; used by test_13. */
  lemma Step141()
    ensures ExpandBody([Alternative([Sym(Symbol.Terminal("CREATE")), Group([Alternative([Opt([Alternative([Sym(Symbol.Terminal("PROPERTY"))])]), Sym(Symbol.Terminal("GRAPH")), Opt([Alternative([Sym(Symbol.Terminal("IF")), Sym(Symbol.Terminal("NOT")), Sym(Symbol.Terminal("EXISTS"))])])]), Alternative([Sym(Symbol.Terminal("OR")), Sym(Symbol.Terminal("REPLACE")), Opt([Alternative([Sym(Symbol.Terminal("PROPERTY"))])]), Sym(Symbol.Terminal("GRAPH"))])]), Sym(Symbol.Nonterminal("catalog graph parent and name"))])]) == {["CREATE", "PROPERTY", "GRAPH", "IF", "NOT", "EXISTS", "catalog_graph_parent_and_name"], ["CREATE", "PROPERTY", "GRAPH", "catalog_graph_parent_and_name"], ["CREATE", "GRAPH", "IF", "NOT", "EXISTS", "catalog_graph_parent_and_name"], ["CREATE", "GRAPH", "catalog_graph_parent_and_name"], ["CREATE", "OR", "REPLACE", "PROPERTY", "GRAPH", "catalog_graph_parent_and_name"], ["CREATE", "OR", "REPLACE", "GRAPH", "catalog_graph_parent_and_name"]}
    ensures BodyUnits([Alternative([Sym(Symbol.Terminal("CREATE")), Group([Alternative([Opt([Alternative([Sym(Symbol.Terminal("PROPERTY"))])]), Sym(Symbol.Terminal("GRAPH")), Opt([Alternative([Sym(Symbol.Terminal("IF")), Sym(Symbol.Terminal("NOT")), Sym(Symbol.Terminal("EXISTS"))])])]), Alternative([Sym(Symbol.Terminal("OR")), Sym(Symbol.Terminal("REPLACE")), Opt([Alternative([Sym(Symbol.Terminal("PROPERTY"))])]), Sym(Symbol.Terminal("GRAPH"))])]), Sym(Symbol.Nonterminal("catalog graph parent and name"))])]) == {}
  {
    Step140();
    assert [Alternative([Sym(Symbol.Terminal("CREATE")), Group([Alternative([Opt([Alternative([Sym(Symbol.Terminal("PROPERTY"))])]), Sym(Symbol.Terminal("GRAPH")), Opt([Alternative([Sym(Symbol.Terminal("IF")), Sym(Symbol.Terminal("NOT")), Sym(Symbol.Terminal("EXISTS"))])])]), Alternative([Sym(Symbol.Terminal("OR")), Sym(Symbol.Terminal("REPLACE")), Opt([Alternative([Sym(Symbol.Terminal("PROPERTY"))])]), Sym(Symbol.Terminal("GRAPH"))])]), Sym(Symbol.Nonterminal("catalog graph parent and name"))])][..0] == [];
  }

  /** Expansion and repeated units of the element `<open graph type>`; used by test_14, test_15. */
  lemma Step142()
    ensures Expand(Sym(Symbol.Nonterminal("open graph type"))) == {["open_graph_type"]}
    ensures ElementUnits(Sym(Symbol.Nonterminal("open graph type"))) == {}
  {
    assert Normalize("open graph type") == "open_graph_type";
  }

  /** Expansion and repeated units of the elements `<open graph type>`; used by test_14, test_15. */
  lemma Step143()
    ensures ExpandSequence([Sym(Symbol.Nonterminal("open graph type"))]) == {["open_graph_type"]}
    ensures SequenceUnits([Sym(Symbol.Nonterminal("open graph type"))]) == {}
  {
    Step142();
    assert [Sym(Symbol.Nonterminal("open graph type"))][..0] == [];
    SequenceUnitLeft([Sym(Symbol.Nonterminal("open graph type"))], {["open_graph_type"]}, {}, {});
  }

  /** Expansion and repeated units of the alternatives `<open graph type>`; used by test_14, test_15. */
  lemma Step144()
    ensures ExpandBody([Alternative([Sym(Symbol.Nonterminal("open graph type"))])]) == {["open_graph_type"]}
    ensures BodyUnits([Alternative([Sym(Symbol.Nonterminal("open graph type"))])]) == {}
  {
    Step143();
    assert [Alternative([Sym(Symbol.Nonterminal("open graph type"))])][..0] == [];
  }

  /** Expansion and repeated units of the element `<of graph type>`; used by test_14, test_15. */
  lemma Step145()
    ensures Expand(Sym(Symbol.Nonterminal("of graph type"))) == {["of_graph_type"]}
    ensures ElementUnits(Sym(Symbol.Nonterminal("of graph type"))) == {}
  {
    assert Normalize("of graph type") == "of_graph_type";
  }

  /** Expansion and repeated units of the elements `<of graph type>`; used by test_14, test_15. */
  lemma Step146()
    ensures ExpandSequence([Sym(Symbol.Nonterminal("of graph type"))]) == {["of_graph_type"]}
    ensures SequenceUnits([Sym(Symbol.Nonterminal("of graph type"))]) == {}
  {
    Step145();
    assert [Sym(Symbol.Nonterminal("of graph type"))][..0] == [];
    SequenceUnitLeft([Sym(Symbol.Nonterminal("of graph type"))], {["of_graph_type"]}, {}, {});
  }

  /** Expansion and repeated units of the alternatives `<open graph type> | <of graph type>`; used by test_14, test_15. */
  lemma Step147()
    ensures ExpandBody([Alternative([Sym(Symbol.Nonterminal("open graph type"))]), Alternative([Sym(Symbol.Nonterminal("of graph type"))])]) == {["open_graph_type"], ["of_graph_type"]}
    ensures BodyUnits([Alternative([Sym(Symbol.Nonterminal("open graph type"))]), Alternative([Sym(Symbol.Nonterminal("of graph type"))])]) == {}
  {
    Step144();
    Step146();
    assert [Alternative([Sym(Symbol.Nonterminal("open graph type"))]), Alternative([Sym(Symbol.Nonterminal("of graph type"))])][..1] == [Alternative([Sym(Symbol.Nonterminal("open graph type"))])];
  }

  /** Expansion and repeated units of the element `{ <open graph type> | <of graph type> }`; used by test_14, test_15. */
  lemma Step148()
    ensures Expand(Group([Alternative([Sym(Symbol.Nonterminal("open graph type"))]), Alternative([Sym(Symbol.Nonterminal("of graph type"))])])) == {["open_graph_type"], ["of_graph_type"]}
    ensures ElementUnits(Group([Alternative([Sym(Symbol.Nonterminal("open graph type"))]), Alternative([Sym(Symbol.Nonterminal("of graph type"))])])) == {}
  {
    Step147();
  }

  /** One cross-product production: `CREATE PROPERTY GRAPH IF NOT EXISTS catalog_graph_parent_and_name` then `open_graph_type`; used by test_14, test_15. */
  lemma Step149()
    ensures ["CREATE", "PROPERTY", "GRAPH", "IF", "NOT", "EXISTS", "catalog_graph_parent_and_name"] + ["open_graph_type"] == ["CREATE", "PROPERTY", "GRAPH", "IF", "NOT", "EXISTS", "catalog_graph_parent_and_name", "open_graph_type"]
  {
  }

  /** One cross-product production: `CREATE PROPERTY GRAPH IF NOT EXISTS catalog_graph_parent_and_name` then `of_graph_type`; used by test_14, test_15. */
  lemma Step150()
    ensures ["CREATE", "PROPERTY", "GRAPH", "IF", "NOT", "EXISTS", "catalog_graph_parent_and_name"] + ["of_graph_type"] == ["CREATE", "PROPERTY", "GRAPH", "IF", "NOT", "EXISTS", "catalog_graph_parent_and_name", "of_graph_type"]
  {
  }

  /** One cross-product production: `CREATE PROPERTY GRAPH catalog_graph_parent_and_name` then `open_graph_type`; used by test_14, test_15. */
  lemma Step151()
    ensures ["CREATE", "PROPERTY", "GRAPH", "catalog_graph_parent_and_name"] + ["open_graph_type"] == ["CREATE", "PROPERTY", "GRAPH", "catalog_graph_parent_and_name", "open_graph_type"]
  {
  }

  /** One cross-product production: `CREATE PROPERTY GRAPH catalog_graph_parent_and_name` then `of_graph_type`; used by test_14, test_15. */
  lemma Step152()
    ensures ["CREATE", "PROPERTY", "GRAPH", "catalog_graph_parent_and_name"] + ["of_graph_type"] == ["CREATE", "PROPERTY", "GRAPH", "catalog_graph_parent_and_name", "of_graph_type"]
  {
  }

  /** One cross-product production: `CREATE GRAPH IF NOT EXISTS catalog_graph_parent_and_name` then `open_graph_type`; used by test_14, test_15. */
  lemma Step153()
    ensures ["CREATE", "GRAPH", "IF", "NOT", "EXISTS", "catalog_graph_parent_and_name"] + ["open_graph_type"] == ["CREATE", "GRAPH", "IF", "NOT", "EXISTS", "catalog_graph_parent_and_name", "open_graph_type"]
  {
  }

  /** One cross-product production: `CREATE GRAPH IF NOT EXISTS catalog_graph_parent_and_name` then `of_graph_type`; used by test_14, test_15. */
  lemma Step154()
    ensures ["CREATE", "GRAPH", "IF", "NOT", "EXISTS", "catalog_graph_parent_and_name"] + ["of_graph_type"] == ["CREATE", "GRAPH", "IF", "NOT", "EXISTS", "catalog_graph_parent_and_name", "of_graph_type"]
  {
  }

  /** One cross-product production: `CREATE GRAPH catalog_graph_parent_and_name` then `open_graph_type`; used by test_14, test_15. */
  lemma Step155()
    ensures ["CREATE", "GRAPH", "catalog_graph_parent_and_name"] + ["open_graph_type"] == ["CREATE", "GRAPH", "catalog_graph_parent_and_name", "open_graph_type"]
  {
  }

  /** One cross-product production: `CREATE GRAPH catalog_graph_parent_and_name` then `of_graph_type`; used by test_14, test_15. */
  lemma Step156()
    ensures ["CREATE", "GRAPH", "catalog_graph_parent_and_name"] + ["of_graph_type"] == ["CREATE", "GRAPH", "catalog_graph_parent_and_name", "of_graph_type"]
  {
  }

  /** One cross-product production: `CREATE OR REPLACE PROPERTY GRAPH catalog_graph_parent_and_name` then `open_graph_type`; used by test_14, test_15. */
  lemma Step157()
    ensures ["CREATE", "OR", "REPLACE", "PROPERTY", "GRAPH", "catalog_graph_parent_and_name"] + ["open_graph_type"] == ["CREATE", "OR", "REPLACE", "PROPERTY", "GRAPH", "catalog_graph_parent_and_name", "open_graph_type"]
  {
  }

  /** One cross-product production: `CREATE OR REPLACE PROPERTY GRAPH catalog_graph_parent_and_name` then `of_graph_type`; used by test_14, test_15. */
  lemma Step158()
    ensures ["CREATE", "OR", "REPLACE", "PROPERTY", "GRAPH", "catalog_graph_parent_and_name"] + ["of_graph_type"] == ["CREATE", "OR", "REPLACE", "PROPERTY", "GRAPH", "catalog_graph_parent_and_name", "of_graph_type"]
  {
  }

  /** One cross-product production: `CREATE OR REPLACE GRAPH catalog_graph_parent_and_name` then `open_graph_type`; used by test_14, test_15. */
  lemma Step159()
    ensures ["CREATE", "OR", "REPLACE", "GRAPH", "catalog_graph_parent_and_name"] + ["open_graph_type"] == ["CREATE", "OR", "REPLACE", "GRAPH", "catalog_graph_parent_and_name", "open_graph_type"]
  {
  }

  /** One cross-product production: `CREATE OR REPLACE GRAPH catalog_graph_parent_and_name` then `of_graph_type`; used by test_14, test_15. */
  lemma Step160()
    ensures ["CREATE", "OR", "REPLACE", "GRAPH", "catalog_graph_parent_and_name"] + ["of_graph_type"] == ["CREATE", "OR", "REPLACE", "GRAPH", "catalog_graph_parent_and_name", "of_graph_type"]
  {
  }

  /** Expansion and repeated units of the elements `CREATE { [ PROPERTY ] GRAPH [ IF NOT EXISTS ] | OR REPLACE [ PROPERTY ] GRAPH } <catalog graph parent and name> { <open graph type> | <of graph type> }`; used by test_14, test_15. */
  lemma Step161()
    ensures ExpandSequence([Sym(Symbol.Terminal("CREATE")), Group([Alternative([Opt([Alternative([Sym(Symbol.Terminal("PROPERTY"))])]), Sym(Symbol.Terminal("GRAPH")), Opt([Alternative([Sym(Symbol.Terminal("IF")), Sym(Symbol.Terminal("NOT")), Sym(Symbol.Terminal("EXISTS"))])])]), Alternative([Sym(Symbol.Terminal("OR")), Sym(Symbol.Terminal("REPLACE")), Opt([Alternative([Sym(Symbol.Terminal("PROPERTY"))])]), Sym(Symbol.Terminal("GRAPH"))])]), Sym(Symbol.Nonterminal("catalog graph parent and name")), Group([Alternative([Sym(Symbol.Nonterminal("open graph type"))]), Alternative([Sym(Symbol.Nonterminal("of graph type"))])])]) == {["CREATE", "PROPERTY", "GRAPH", "IF", "NOT", "EXISTS", "catalog_graph_parent_and_name", "open_graph_type"], ["CREATE", "PROPERTY", "GRAPH", "IF", "NOT", "EXISTS", "catalog_graph_parent_and_name", "of_graph_type"], ["CREATE", "PROPERTY", "GRAPH", "catalog_graph_parent_and_name", "open_graph_type"], ["CREATE", "PROPERTY", "GRAPH", "catalog_graph_parent_and_name", "of_graph_type"], ["CREATE", "GRAPH", "IF", "NOT", "EXISTS", "catalog_graph_parent_and_name", "open_graph_type"], ["CREATE", "GRAPH", "IF", "NOT", "EXISTS", "catalog_graph_parent_and_name", "of_graph_type"], ["CREATE", "GRAPH", "catalog_graph_parent_and_name", "open_graph_type"], ["CREATE", "GRAPH", "catalog_graph_parent_and_name", "of_graph_type"], ["CREATE", "OR", "REPLACE", "PROPERTY", "GRAPH", "catalog_graph_parent_and_name", "open_graph_type"], ["CREATE", "OR", "REPLACE", "PROPERTY", "GRAPH", "catalog_graph_parent_and_name", "of_graph_type"], ["CREATE", "OR", "REPLACE", "GRAPH", "catalog_graph_parent_and_name", "open_graph_type"], ["CREATE", "OR", "REPLACE", "GRAPH", "catalog_graph_parent_and_name", "of_graph_type"]}
    ensures SequenceUnits([Sym(Symbol.Terminal("CREATE")), Group([Alternative([Opt([Alternative([Sym(Symbol.Terminal("PROPERTY"))])]), Sym(Symbol.Terminal("GRAPH")), Opt([Alternative([Sym(Symbol.Terminal("IF")), Sym(Symbol.Terminal("NOT")), Sym(Symbol.Terminal("EXISTS"))])])]), Alternative([Sym(Symbol.Terminal("OR")), Sym(Symbol.Terminal("REPLACE")), Opt([Alternative([Sym(Symbol.Terminal("PROPERTY"))])]), Sym(Symbol.Terminal("GRAPH"))])]), Sym(Symbol.Nonterminal("catalog graph parent and name")), Group([Alternative([Sym(Symbol.Nonterminal("open graph type"))]), Alternative([Sym(Symbol.Nonterminal("of graph type"))])])]) == {}
  {
    Step140();
    Step148();
    Step149();
    Step150();
    Step151();
    Step152();
    Step153();
    Step154();
    Step155();
    Step156();
    Step157();
    Step158();
    Step159();
    Step160();
    assert [Sym(Symbol.Terminal("CREATE")), Group([Alternative([Opt([Alternative([Sym(Symbol.Terminal("PROPERTY"))])]), Sym(Symbol.Terminal("GRAPH")), Opt([Alternative([Sym(Symbol.Terminal("IF")), Sym(Symbol.Terminal("NOT")), Sym(Symbol.Terminal("EXISTS"))])])]), Alternative([Sym(Symbol.Terminal("OR")), Sym(Symbol.Terminal("REPLACE")), Opt([Alternative([Sym(Symbol.Terminal("PROPERTY"))])]), Sym(Symbol.Terminal("GRAPH"))])]), Sym(Symbol.Nonterminal("catalog graph parent and name")), Group([Alternative([Sym(Symbol.Nonterminal("open graph type"))]), Alternative([Sym(Symbol.Nonterminal("of graph type"))])])][..3] == [Sym(Symbol.Terminal("CREATE")), Group([Alternative([Opt([Alternative([Sym(Symbol.Terminal("PROPERTY"))])]), Sym(Symbol.Terminal("GRAPH")), Opt([Alternative([Sym(Symbol.Terminal("IF")), Sym(Symbol.Terminal("NOT")), Sym(Symbol.Terminal("EXISTS"))])])]), Alternative([Sym(Symbol.Terminal("OR")), Sym(Symbol.Terminal("REPLACE")), Opt([Alternative([Sym(Symbol.Terminal("PROPERTY"))])]), Sym(Symbol.Terminal("GRAPH"))])]), Sym(Symbol.Nonterminal("catalog graph parent and name"))];
    Sequence6x2([Sym(Symbol.Terminal("CREATE")), Group([Alternative([Opt([Alternative([Sym(Symbol.Terminal("PROPERTY"))])]), Sym(Symbol.Terminal("GRAPH")), Opt([Alternative([Sym(Symbol.Terminal("IF")), Sym(Symbol.Terminal("NOT")), Sym(Symbol.Terminal("EXISTS"))])])]), Alternative([Sym(Symbol.Terminal("OR")), Sym(Symbol.Terminal("REPLACE")), Opt([Alternative([Sym(Symbol.Terminal("PROPERTY"))])]), Sym(Symbol.Terminal("GRAPH"))])]), Sym(Symbol.Nonterminal("catalog graph parent and name")), Group([Alternative([Sym(Symbol.Nonterminal("open graph type"))]), Alternative([Sym(Symbol.Nonterminal("of graph type"))])])], ["CREATE", "PROPERTY", "GRAPH", "IF", "NOT", "EXISTS", "catalog_graph_parent_and_name"], ["CREATE", "PROPERTY", "GRAPH", "catalog_graph_parent_and_name"], ["CREATE", "GRAPH", "IF", "NOT", "EXISTS", "catalog_graph_parent_and_name"], ["CREATE", "GRAPH", "catalog_graph_parent_and_name"], ["CREATE", "OR", "REPLACE", "PROPERTY", "GRAPH", "catalog_graph_parent_and_name"], ["CREATE", "OR", "REPLACE", "GRAPH", "catalog_graph_parent_and_name"], ["open_graph_type"], ["of_graph_type"], {}, {});
  }

  /** Expansion and repeated units of the alternatives `CREATE { [ PROPERTY ] GRAPH [ IF NOT EXISTS ] | OR REPLACE [ PROPERTY ] GRAPH } <catalog graph parent and name> { <open graph type> | <of graph type> }`; used by test_14. */
  lemma Step162()
    ensures ExpandBody([Alternative([Sym(Symbol.Terminal("CREATE")), Group([Alternative([Opt([Alternative([Sym(Symbol.Terminal("PROPERTY"))])]), Sym(Symbol.Terminal("GRAPH")), Opt([Alternative([Sym(Symbol.Terminal("IF")), Sym(Symbol.Terminal("NOT")), Sym(Symbol.Terminal("EXISTS"))])])]), Alternative([Sym(Symbol.Terminal("OR")), Sym(Symbol.Terminal("REPLACE")), Opt([Alternative([Sym(Symbol.Terminal("PROPERTY"))])]), Sym(Symbol.Terminal("GRAPH"))])]), Sym(Symbol.Nonterminal("catalog graph parent and name")), Group([Alternative([Sym(Symbol.Nonterminal("open graph type"))]), Alternative([Sym(Symbol.Nonterminal("of graph type"))])])])]) == {["CREATE", "PROPERTY", "GRAPH", "IF", "NOT", "EXISTS", "catalog_graph_parent_and_name", "open_graph_type"], ["CREATE", "PROPERTY", "GRAPH", "IF", "NOT", "EXISTS", "catalog_graph_parent_and_name", "of_graph_type"], ["CREATE", "PROPERTY", "GRAPH", "catalog_graph_parent_and_name", "open_graph_type"], ["CREATE", "PROPERTY", "GRAPH", "catalog_graph_parent_and_name", "of_graph_type"], ["CREATE", "GRAPH", "IF", "NOT", "EXISTS", "catalog_graph_parent_and_name", "open_graph_type"], ["CREATE", "GRAPH", "IF", "NOT", "EXISTS", "catalog_graph_parent_and_name", "of_graph_type"], ["CREATE", "GRAPH", "catalog_graph_parent_and_name", "open_graph_type"], ["CREATE", "GRAPH", "catalog_graph_parent_and_name", "of_graph_type"], ["CREATE", "OR", "REPLACE", "PROPERTY", "GRAPH", "catalog_graph_parent_and_name", "open_graph_type"], ["CREATE", "OR", "REPLACE", "PROPERTY", "GRAPH", "catalog_graph_parent_and_name", "of_graph_type"], ["CREATE", "OR", "REPLACE", "GRAPH", "catalog_graph_parent_and_name", "open_graph_type"], ["CREATE", "OR", "REPLACE", "GRAPH", "catalog_graph_parent_and_name", "of_graph_type"]}
    ensures BodyUnits([Alternative([Sym(Symbol.Terminal("CREATE")), Group([Alternative([Opt([Alternative([Sym(Symbol.Terminal("PROPERTY"))])]), Sym(Symbol.Terminal("GRAPH")), Opt([Alternative([Sym(Symbol.Terminal("IF")), Sym(Symbol.Terminal("NOT")), Sym(Symbol.Terminal("EXISTS"))])])]), Alternative([Sym(Symbol.Terminal("OR")), Sym(Symbol.Terminal("REPLACE")), Opt([Alternative([Sym(Symbol.Terminal("PROPERTY"))])]), Sym(Symbol.Terminal("GRAPH"))])]), Sym(Symbol.Nonterminal("catalog graph parent and name")), Group([Alternative([Sym(Symbol.Nonterminal("open graph type"))]), Alternative([Sym(Symbol.Nonterminal("of graph type"))])])])]) == {}
  {
    Step161();
    assert [Alternative([Sym(Symbol.Terminal("CREATE")), Group([Alternative([Opt([Alternative([Sym(Symbol.Terminal("PROPERTY"))])]), Sym(Symbol.Terminal("GRAPH")), Opt([Alternative([Sym(Symbol.Terminal("IF")), Sym(Symbol.Terminal("NOT")), Sym(Symbol.Terminal("EXISTS"))])])]), Alternative([Sym(Symbol.Terminal("OR")), Sym(Symbol.Terminal("REPLACE")), Opt([Alternative([Sym(Symbol.Terminal("PROPERTY"))])]), Sym(Symbol.Terminal("GRAPH"))])]), Sym(Symbol.Nonterminal("catalog graph parent and name")), Group([Alternative([Sym(Symbol.Nonterminal("open graph type"))]), Alternative([Sym(Symbol.Nonterminal("of graph type"))])])])][..0] == [];
  }

  /** Expansion and repeated units of the element `<graph source>`; used by test_15. */
  lemma Step163()
    ensures Expand(Sym(Symbol.Nonterminal("graph source"))) == {["graph_source"]}
    ensures ElementUnits(Sym(Symbol.Nonterminal("graph source"))) == {}
  {
    assert Normalize("graph source") == "graph_source";
  }

  /** Expansion and repeated units of the elements `<graph source>`; used by test_15. */
  lemma Step164()
    ensures ExpandSequence([Sym(Symbol.Nonterminal("graph source"))]) == {["graph_source"]}
    ensures SequenceUnits([Sym(Symbol.Nonterminal("graph source"))]) == {}
  {
    Step163();
    assert [Sym(Symbol.Nonterminal("graph source"))][..0] == [];
    SequenceUnitLeft([Sym(Symbol.Nonterminal("graph source"))], {["graph_source"]}, {}, {});
  }

  /** Expansion and repeated units of the alternatives `<graph source>`; used by test_15. */
  lemma Step165()
    ensures ExpandBody([Alternative([Sym(Symbol.Nonterminal("graph source"))])]) == {["graph_source"]}
    ensures BodyUnits([Alternative([Sym(Symbol.Nonterminal("graph source"))])]) == {}
  {
    Step164();
    assert [Alternative([Sym(Symbol.Nonterminal("graph source"))])][..0] == [];
  }

  /** Expansion and repeated units of the element `[ <graph source> ]`; used by test_15. */
  lemma Step166()
    ensures Expand(Opt([Alternative([Sym(Symbol.Nonterminal("graph source"))])])) == {["graph_source"], []}
    ensures ElementUnits(Opt([Alternative([Sym(Symbol.Nonterminal("graph source"))])])) == {}
  {
    Step165();
  }

  /** One cross-product production: `CREATE PROPERTY GRAPH IF NOT EXISTS catalog_graph_parent_and_name open_graph_type` then `graph_source`; used by test_15. */
  lemma Step167()
    ensures ["CREATE", "PROPERTY", "GRAPH", "IF", "NOT", "EXISTS", "catalog_graph_parent_and_name", "open_graph_type"] + ["graph_source"] == ["CREATE", "PROPERTY", "GRAPH", "IF", "NOT", "EXISTS", "catalog_graph_parent_and_name", "open_graph_type", "graph_source"]
  {
  }

  /** One cross-product production: `CREATE PROPERTY GRAPH IF NOT EXISTS catalog_graph_parent_and_name open_graph_type` then `the empty production`; used by test_15. */
  lemma Step168()
    ensures ["CREATE", "PROPERTY", "GRAPH", "IF", "NOT", "EXISTS", "catalog_graph_parent_and_name", "open_graph_type"] + [] == ["CREATE", "PROPERTY", "GRAPH", "IF", "NOT", "EXISTS", "catalog_graph_parent_and_name", "open_graph_type"]
  {
  }

  /** One cross-product production: `CREATE PROPERTY GRAPH IF NOT EXISTS catalog_graph_parent_and_name of_graph_type` then `graph_source`; used by test_15. */
  lemma Step169()
    ensures ["CREATE", "PROPERTY", "GRAPH", "IF", "NOT", "EXISTS", "catalog_graph_parent_and_name", "of_graph_type"] + ["graph_source"] == ["CREATE", "PROPERTY", "GRAPH", "IF", "NOT", "EXISTS", "catalog_graph_parent_and_name", "of_graph_type", "graph_source"]
  {
  }

  /** One cross-product production: `CREATE PROPERTY GRAPH IF NOT EXISTS catalog_graph_parent_and_name of_graph_type` then `the empty production`; used by test_15. */
  lemma Step170()
    ensures ["CREATE", "PROPERTY", "GRAPH", "IF", "NOT", "EXISTS", "catalog_graph_parent_and_name", "of_graph_type"] + [] == ["CREATE", "PROPERTY", "GRAPH", "IF", "NOT", "EXISTS", "catalog_graph_parent_and_name", "of_graph_type"]
  {
  }

  /** One cross-product production: `CREATE PROPERTY GRAPH catalog_graph_parent_and_name open_graph_type` then `graph_source`; used by test_15. */
  lemma Step171()
    ensures ["CREATE", "PROPERTY", "GRAPH", "catalog_graph_parent_and_name", "open_graph_type"] + ["graph_source"] == ["CREATE", "PROPERTY", "GRAPH", "catalog_graph_parent_and_name", "open_graph_type", "graph_source"]
  {
  }

  /** One cross-product production: `CREATE PROPERTY GRAPH catalog_graph_parent_and_name open_graph_type` then `the empty production`; used by test_15. */
  lemma Step172()
    ensures ["CREATE", "PROPERTY", "GRAPH", "catalog_graph_parent_and_name", "open_graph_type"] + [] == ["CREATE", "PROPERTY", "GRAPH", "catalog_graph_parent_and_name", "open_graph_type"]
  {
  }

  /** One cross-product production: `CREATE PROPERTY GRAPH catalog_graph_parent_and_name of_graph_type` then `graph_source`; used by test_15. */
  lemma Step173()
    ensures ["CREATE", "PROPERTY", "GRAPH", "catalog_graph_parent_and_name", "of_graph_type"] + ["graph_source"] == ["CREATE", "PROPERTY", "GRAPH", "catalog_graph_parent_and_name", "of_graph_type", "graph_source"]
  {
  }

  /** One cross-product production: `CREATE PROPERTY GRAPH catalog_graph_parent_and_name of_graph_type` then `the empty production`; used by test_15. */
  lemma Step174()
    ensures ["CREATE", "PROPERTY", "GRAPH", "catalog_graph_parent_and_name", "of_graph_type"] + [] == ["CREATE", "PROPERTY", "GRAPH", "catalog_graph_parent_and_name", "of_graph_type"]
  {
  }

  /** One cross-product production: `CREATE GRAPH IF NOT EXISTS catalog_graph_parent_and_name open_graph_type` then `graph_source`; used by test_15. */
  lemma Step175()
    ensures ["CREATE", "GRAPH", "IF", "NOT", "EXISTS", "catalog_graph_parent_and_name", "open_graph_type"] + ["graph_source"] == ["CREATE", "GRAPH", "IF", "NOT", "EXISTS", "catalog_graph_parent_and_name", "open_graph_type", "graph_source"]
  {
  }

  /** One cross-product production: `CREATE GRAPH IF NOT EXISTS catalog_graph_parent_and_name open_graph_type` then `the empty production`; used by test_15. */
  lemma Step176()
    ensures ["CREATE", "GRAPH", "IF", "NOT", "EXISTS", "catalog_graph_parent_and_name", "open_graph_type"] + [] == ["CREATE", "GRAPH", "IF", "NOT", "EXISTS", "catalog_graph_parent_and_name", "open_graph_type"]
  {
  }

  /** One cross-product production: `CREATE GRAPH IF NOT EXISTS catalog_graph_parent_and_name of_graph_type` then `graph_source`; used by test_15. */
  lemma Step177()
    ensures ["CREATE", "GRAPH", "IF", "NOT", "EXISTS", "catalog_graph_parent_and_name", "of_graph_type"] + ["graph_source"] == ["CREATE", "GRAPH", "IF", "NOT", "EXISTS", "catalog_graph_parent_and_name", "of_graph_type", "graph_source"]
  {
  }

  /** One cross-product production: `CREATE GRAPH IF NOT EXISTS catalog_graph_parent_and_name of_graph_type` then `the empty production`; used by test_15. */
  lemma Step178()
    ensures ["CREATE", "GRAPH", "IF", "NOT", "EXISTS", "catalog_graph_parent_and_name", "of_graph_type"] + [] == ["CREATE", "GRAPH", "IF", "NOT", "EXISTS", "catalog_graph_parent_and_name", "of_graph_type"]
  {
  }

  /** One cross-product production: `CREATE GRAPH catalog_graph_parent_and_name open_graph_type` then `graph_source`; used by test_15. */
  lemma Step179()
    ensures ["CREATE", "GRAPH", "catalog_graph_parent_and_name", "open_graph_type"] + ["graph_source"] == ["CREATE", "GRAPH", "catalog_graph_parent_and_name", "open_graph_type", "graph_source"]
  {
  }

  /** One cross-product production: `CREATE GRAPH catalog_graph_parent_and_name open_graph_type` then `the empty production`; used by test_15. */
  lemma Step180()
    ensures ["CREATE", "GRAPH", "catalog_graph_parent_and_name", "open_graph_type"] + [] == ["CREATE", "GRAPH", "catalog_graph_parent_and_name", "open_graph_type"]
  {
  }

  /** One cross-product production: `CREATE GRAPH catalog_graph_parent_and_name of_graph_type` then `graph_source`; used by test_15. */
  lemma Step181()
    ensures ["CREATE", "GRAPH", "catalog_graph_parent_and_name", "of_graph_type"] + ["graph_source"] == ["CREATE", "GRAPH", "catalog_graph_parent_and_name", "of_graph_type", "graph_source"]
  {
  }

  /** One cross-product production: `CREATE GRAPH catalog_graph_parent_and_name of_graph_type` then `the empty production`; used by test_15. */
  lemma Step182()
    ensures ["CREATE", "GRAPH", "catalog_graph_parent_and_name", "of_graph_type"] + [] == ["CREATE", "GRAPH", "catalog_graph_parent_and_name", "of_graph_type"]
  {
  }

  /** One cross-product production: `CREATE OR REPLACE PROPERTY GRAPH catalog_graph_parent_and_name open_graph_type` then `graph_source`; used by test_15. */
  lemma Step183()
    ensures ["CREATE", "OR", "REPLACE", "PROPERTY", "GRAPH", "catalog_graph_parent_and_name", "open_graph_type"] + ["graph_source"] == ["CREATE", "OR", "REPLACE", "PROPERTY", "GRAPH", "catalog_graph_parent_and_name", "open_graph_type", "graph_source"]
  {
  }

  /** One cross-product production: `CREATE OR REPLACE PROPERTY GRAPH catalog_graph_parent_and_name open_graph_type` then `the empty production`; used by test_15. */
  lemma Step184()
    ensures ["CREATE", "OR", "REPLACE", "PROPERTY", "GRAPH", "catalog_graph_parent_and_name", "open_graph_type"] + [] == ["CREATE", "OR", "REPLACE", "PROPERTY", "GRAPH", "catalog_graph_parent_and_name", "open_graph_type"]
  {
  }

  /** One cross-product production: `CREATE OR REPLACE PROPERTY GRAPH catalog_graph_parent_and_name of_graph_type` then `graph_source`; used by test_15. */
  lemma Step185()
    ensures ["CREATE", "OR", "REPLACE", "PROPERTY", "GRAPH", "catalog_graph_parent_and_name", "of_graph_type"] + ["graph_source"] == ["CREATE", "OR", "REPLACE", "PROPERTY", "GRAPH", "catalog_graph_parent_and_name", "of_graph_type", "graph_source"]
  {
  }

  /** One cross-product production: `CREATE OR REPLACE PROPERTY GRAPH catalog_graph_parent_and_name of_graph_type` then `the empty production`; used by test_15. */
  lemma Step186()
    ensures ["CREATE", "OR", "REPLACE", "PROPERTY", "GRAPH", "catalog_graph_parent_and_name", "of_graph_type"] + [] == ["CREATE", "OR", "REPLACE", "PROPERTY", "GRAPH", "catalog_graph_parent_and_name", "of_graph_type"]
  {
  }

  /** One cross-product production: `CREATE OR REPLACE GRAPH catalog_graph_parent_and_name open_graph_type` then `graph_source`; used by test_15. */
  lemma Step187()
    ensures ["CREATE", "OR", "REPLACE", "GRAPH", "catalog_graph_parent_and_name", "open_graph_type"] + ["graph_source"] == ["CREATE", "OR", "REPLACE", "GRAPH", "catalog_graph_parent_and_name", "open_graph_type", "graph_source"]
  {
  }

  /** One cross-product production: `CREATE OR REPLACE GRAPH catalog_graph_parent_and_name open_graph_type` then `the empty production`; used by test_15. */
  lemma Step188()
    ensures ["CREATE", "OR", "REPLACE", "GRAPH", "catalog_graph_parent_and_name", "open_graph_type"] + [] == ["CREATE", "OR", "REPLACE", "GRAPH", "catalog_graph_parent_and_name", "open_graph_type"]
  {
  }

  /** One cross-product production: `CREATE OR REPLACE GRAPH catalog_graph_parent_and_name of_graph_type` then `graph_source`; used by test_15. */
  lemma Step189()
    ensures ["CREATE", "OR", "REPLACE", "GRAPH", "catalog_graph_parent_and_name", "of_graph_type"] + ["graph_source"] == ["CREATE", "OR", "REPLACE", "GRAPH", "catalog_graph_parent_and_name", "of_graph_type", "graph_source"]
  {
  }

  /** One cross-product production: `CREATE OR REPLACE GRAPH catalog_graph_parent_and_name of_graph_type` then `the empty production`; used by test_15. */
  lemma Step190()
    ensures ["CREATE", "OR", "REPLACE", "GRAPH", "catalog_graph_parent_and_name", "of_graph_type"] + [] == ["CREATE", "OR", "REPLACE", "GRAPH", "catalog_graph_parent_and_name", "of_graph_type"]
  {
  }

  /** Expansion and repeated units of the elements `CREATE { [ PROPERTY ] GRAPH [ IF NOT EXISTS ] | OR REPLACE [ PROPERTY ] GRAPH } <catalog graph parent and name> { <open graph type> | <of graph type> } [ <graph source> ]`; used by test_15. */
  lemma Step191()
    ensures ExpandSequence([Sym(Symbol.Terminal("CREATE")), Group([Alternative([Opt([Alternative([Sym(Symbol.Terminal("PROPERTY"))])]), Sym(Symbol.Terminal("GRAPH")), Opt([Alternative([Sym(Symbol.Terminal("IF")), Sym(Symbol.Terminal("NOT")), Sym(Symbol.Terminal("EXISTS"))])])]), Alternative([Sym(Symbol.Terminal("OR")), Sym(Symbol.Terminal("REPLACE")), Opt([Alternative([Sym(Symbol.Terminal("PROPERTY"))])]), Sym(Symbol.Terminal("GRAPH"))])]), Sym(Symbol.Nonterminal("catalog graph parent and name")), Group([Alternative([Sym(Symbol.Nonterminal("open graph type"))]), Alternative([Sym(Symbol.Nonterminal("of graph type"))])]), Opt([Alternative([Sym(Symbol.Nonterminal("graph source"))])])]) == {["CREATE", "PROPERTY", "GRAPH", "IF", "NOT", "EXISTS", "catalog_graph_parent_and_name", "open_graph_type", "graph_source"], ["CREATE", "PROPERTY", "GRAPH", "IF", "NOT", "EXISTS", "catalog_graph_parent_and_name", "open_graph_type"], ["CREATE", "PROPERTY", "GRAPH", "IF", "NOT", "EXISTS", "catalog_graph_parent_and_name", "of_graph_type", "graph_source"], ["CREATE", "PROPERTY", "GRAPH", "IF", "NOT", "EXISTS", "catalog_graph_parent_and_name", "of_graph_type"], ["CREATE", "PROPERTY", "GRAPH", "catalog_graph_parent_and_name", "open_graph_type", "graph_source"], ["CREATE", "PROPERTY", "GRAPH", "catalog_graph_parent_and_name", "open_graph_type"], ["CREATE", "PROPERTY", "GRAPH", "catalog_graph_parent_and_name", "of_graph_type", "graph_source"], ["CREATE", "PROPERTY", "GRAPH", "catalog_graph_parent_and_name", "of_graph_type"], ["CREATE", "GRAPH", "IF", "NOT", "EXISTS", "catalog_graph_parent_and_name", "open_graph_type", "graph_source"], ["CREATE", "GRAPH", "IF", "NOT", "EXISTS", "catalog_graph_parent_and_name", "open_graph_type"], ["CREATE", "GRAPH", "IF", "NOT", "EXISTS", "catalog_graph_parent_and_name", "of_graph_type", "graph_source"], ["CREATE", "GRAPH", "IF", "NOT", "EXISTS", "catalog_graph_parent_and_name", "of_graph_type"], ["CREATE", "GRAPH", "catalog_graph_parent_and_name", "open_graph_type", "graph_source"], ["CREATE", "GRAPH", "catalog_graph_parent_and_name", "open_graph_type"], ["CREATE", "GRAPH", "catalog_graph_parent_and_name", "of_graph_type", "graph_source"], ["CREATE", "GRAPH", "catalog_graph_parent_and_name", "of_graph_type"], ["CREATE", "OR", "REPLACE", "PROPERTY", "GRAPH", "catalog_graph_parent_and_name", "open_graph_type", "graph_source"], ["CREATE", "OR", "REPLACE", "PROPERTY", "GRAPH", "catalog_graph_parent_and_name", "open_graph_type"], ["CREATE", "OR", "REPLACE", "PROPERTY", "GRAPH", "catalog_graph_parent_and_name", "of_graph_type", "graph_source"], ["CREATE", "OR", "REPLACE", "PROPERTY", "GRAPH", "catalog_graph_parent_and_name", "of_graph_type"], ["CREATE", "OR", "REPLACE", "GRAPH", "catalog_graph_parent_and_name", "open_graph_type", "graph_source"], ["CREATE", "OR", "REPLACE", "GRAPH", "catalog_graph_parent_and_name", "open_graph_type"], ["CREATE", "OR", "REPLACE", "GRAPH", "catalog_graph_parent_and_name", "of_graph_type", "graph_source"], ["CREATE", "OR", "REPLACE", "GRAPH", "catalog_graph_parent_and_name", "of_graph_type"]}
    ensures SequenceUnits([Sym(Symbol.Terminal("CREATE")), Group([Alternative([Opt([Alternative([Sym(Symbol.Terminal("PROPERTY"))])]), Sym(Symbol.Terminal("GRAPH")), Opt([Alternative([Sym(Symbol.Terminal("IF")), Sym(Symbol.Terminal("NOT")), Sym(Symbol.Terminal("EXISTS"))])])]), Alternative([Sym(Symbol.Terminal("OR")), Sym(Symbol.Terminal("REPLACE")), Opt([Alternative([Sym(Symbol.Terminal("PROPERTY"))])]), Sym(Symbol.Terminal("GRAPH"))])]), Sym(Symbol.Nonterminal("catalog graph parent and name")), Group([Alternative([Sym(Symbol.Nonterminal("open graph type"))]), Alternative([Sym(Symbol.Nonterminal("of graph type"))])]), Opt([Alternative([Sym(Symbol.Nonterminal("graph source"))])])]) == {}
  {
    Step161();
    Step166();
    Step167();
    Step168();
    Step169();
    Step170();
    Step171();
    Step172();
    Step173();
    Step174();
    Step175();
    Step176();
    Step177();
    Step178();
    Step179();
    Step180();
    Step181();
    Step182();
    Step183();
    Step184();
    Step185();
    Step186();
    Step187();
    Step188();
    Step189();
    Step190();
    assert [Sym(Symbol.Terminal("CREATE")), Group([Alternative([Opt([Alternative([Sym(Symbol.Terminal("PROPERTY"))])]), Sym(Symbol.Terminal("GRAPH")), Opt([Alternative([Sym(Symbol.Terminal("IF")), Sym(Symbol.Terminal("NOT")), Sym(Symbol.Terminal("EXISTS"))])])]), Alternative([Sym(Symbol.Terminal("OR")), Sym(Symbol.Terminal("REPLACE")), Opt([Alternative([Sym(Symbol.Terminal("PROPERTY"))])]), Sym(Symbol.Terminal("GRAPH"))])]), Sym(Symbol.Nonterminal("catalog graph parent and name")), Group([Alternative([Sym(Symbol.Nonterminal("open graph type"))]), Alternative([Sym(Symbol.Nonterminal("of graph type"))])]), Opt([Alternative([Sym(Symbol.Nonterminal("graph source"))])])][..4] == [Sym(Symbol.Terminal("CREATE")), Group([Alternative([Opt([Alternative([Sym(Symbol.Terminal("PROPERTY"))])]), Sym(Symbol.Terminal("GRAPH")), Opt([Alternative([Sym(Symbol.Terminal("IF")), Sym(Symbol.Terminal("NOT")), Sym(Symbol.Terminal("EXISTS"))])])]), Alternative([Sym(Symbol.Terminal("OR")), Sym(Symbol.Terminal("REPLACE")), Opt([Alternative([Sym(Symbol.Terminal("PROPERTY"))])]), Sym(Symbol.Terminal("GRAPH"))])]), Sym(Symbol.Nonterminal("catalog graph parent and name")), Group([Alternative([Sym(Symbol.Nonterminal("open graph type"))]), Alternative([Sym(Symbol.Nonterminal("of graph type"))])])];
    Sequence12x2([Sym(Symbol.Terminal("CREATE")), Group([Alternative([Opt([Alternative([Sym(Symbol.Terminal("PROPERTY"))])]), Sym(Symbol.Terminal("GRAPH")), Opt([Alternative([Sym(Symbol.Terminal("IF")), Sym(Symbol.Terminal("NOT")), Sym(Symbol.Terminal("EXISTS"))])])]), Alternative([Sym(Symbol.Terminal("OR")), Sym(Symbol.Terminal("REPLACE")), Opt([Alternative([Sym(Symbol.Terminal("PROPERTY"))])]), Sym(Symbol.Terminal("GRAPH"))])]), Sym(Symbol.Nonterminal("catalog graph parent and name")), Group([Alternative([Sym(Symbol.Nonterminal("open graph type"))]), Alternative([Sym(Symbol.Nonterminal("of graph type"))])]), Opt([Alternative([Sym(Symbol.Nonterminal("graph source"))])])], ["CREATE", "PROPERTY", "GRAPH", "IF", "NOT", "EXISTS", "catalog_graph_parent_and_name", "open_graph_type"], ["CREATE", "PROPERTY", "GRAPH", "IF", "NOT", "EXISTS", "catalog_graph_parent_and_name", "of_graph_type"], ["CREATE", "PROPERTY", "GRAPH", "catalog_graph_parent_and_name", "open_graph_type"], ["CREATE", "PROPERTY", "GRAPH", "catalog_graph_parent_and_name", "of_graph_type"], ["CREATE", "GRAPH", "IF", "NOT", "EXISTS", "catalog_graph_parent_and_name", "open_graph_type"], ["CREATE", "GRAPH", "IF", "NOT", "EXISTS", "catalog_graph_parent_and_name", "of_graph_type"], ["CREATE", "GRAPH", "catalog_graph_parent_and_name", "open_graph_type"], ["CREATE", "GRAPH", "catalog_graph_parent_and_name", "of_graph_type"], ["CREATE", "OR", "REPLACE", "PROPERTY", "GRAPH", "catalog_graph_parent_and_name", "open_graph_type"], ["CREATE", "OR", "REPLACE", "PROPERTY", "GRAPH", "catalog_graph_parent_and_name", "of_graph_type"], ["CREATE", "OR", "REPLACE", "GRAPH", "catalog_graph_parent_and_name", "open_graph_type"], ["CREATE", "OR", "REPLACE", "GRAPH", "catalog_graph_parent_and_name", "of_graph_type"], ["graph_source"], [], {}, {});
  }

  /** Expansion and repeated units of the alternatives `CREATE { [ PROPERTY ] GRAPH [ IF NOT EXISTS ] | OR REPLACE [ PROPERTY ] GRAPH } <catalog graph parent and name> { <open graph type> | <of graph type> } [ <graph source> ]`; used by test_15. */
  lemma Step192()
    ensures ExpandBody([Alternative([Sym(Symbol.Terminal("CREATE")), Group([Alternative([Opt([Alternative([Sym(Symbol.Terminal("PROPERTY"))])]), Sym(Symbol.Terminal("GRAPH")), Opt([Alternative([Sym(Symbol.Terminal("IF")), Sym(Symbol.Terminal("NOT")), Sym(Symbol.Terminal("EXISTS"))])])]), Alternative([Sym(Symbol.Terminal("OR")), Sym(Symbol.Terminal("REPLACE")), Opt([Alternative([Sym(Symbol.Terminal("PROPERTY"))])]), Sym(Symbol.Terminal("GRAPH"))])]), Sym(Symbol.Nonterminal("catalog graph parent and name")), Group([Alternative([Sym(Symbol.Nonterminal("open graph type"))]), Alternative([Sym(Symbol.Nonterminal("of graph type"))])]), Opt([Alternative([Sym(Symbol.Nonterminal("graph source"))])])])]) == {["CREATE", "PROPERTY", "GRAPH", "IF", "NOT", "EXISTS", "catalog_graph_parent_and_name", "open_graph_type", "graph_source"], ["CREATE", "PROPERTY", "GRAPH", "IF", "NOT", "EXISTS", "catalog_graph_parent_and_name", "open_graph_type"], ["CREATE", "PROPERTY", "GRAPH", "IF", "NOT", "EXISTS", "catalog_graph_parent_and_name", "of_graph_type", "graph_source"], ["CREATE", "PROPERTY", "GRAPH", "IF", "NOT", "EXISTS", "catalog_graph_parent_and_name", "of_graph_type"], ["CREATE", "PROPERTY", "GRAPH", "catalog_graph_parent_and_name", "open_graph_type", "graph_source"], ["CREATE", "PROPERTY", "GRAPH", "catalog_graph_parent_and_name", "open_graph_type"], ["CREATE", "PROPERTY", "GRAPH", "catalog_graph_parent_and_name", "of_graph_type", "graph_source"], ["CREATE", "PROPERTY", "GRAPH", "catalog_graph_parent_and_name", "of_graph_type"], ["CREATE", "GRAPH", "IF", "NOT", "EXISTS", "catalog_graph_parent_and_name", "open_graph_type", "graph_source"], ["CREATE", "GRAPH", "IF", "NOT", "EXISTS", "catalog_graph_parent_and_name", "open_graph_type"], ["CREATE", "GRAPH", "IF", "NOT", "EXISTS", "catalog_graph_parent_and_name", "of_graph_type", "graph_source"], ["CREATE", "GRAPH", "IF", "NOT", "EXISTS", "catalog_graph_parent_and_name", "of_graph_type"], ["CREATE", "GRAPH", "catalog_graph_parent_and_name", "open_graph_type", "graph_source"], ["CREATE", "GRAPH", "catalog_graph_parent_and_name", "open_graph_type"], ["CREATE", "GRAPH", "catalog_graph_parent_and_name", "of_graph_type", "graph_source"], ["CREATE", "GRAPH", "catalog_graph_parent_and_name", "of_graph_type"], ["CREATE", "OR", "REPLACE", "PROPERTY", "GRAPH", "catalog_graph_parent_and_name", "open_graph_type", "graph_source"], ["CREATE", "OR", "REPLACE", "PROPERTY", "GRAPH", "catalog_graph_parent_and_name", "open_graph_type"], ["CREATE", "OR", "REPLACE", "PROPERTY", "GRAPH", "catalog_graph_parent_and_name", "of_graph_type", "graph_source"], ["CREATE", "OR", "REPLACE", "PROPERTY", "GRAPH", "catalog_graph_parent_and_name", "of_graph_type"], ["CREATE", "OR", "REPLACE", "GRAPH", "catalog_graph_parent_and_name", "open_graph_type", "graph_source"], ["CREATE", "OR", "REPLACE", "GRAPH", "catalog_graph_parent_and_name", "open_graph_type"], ["CREATE", "OR", "REPLACE", "GRAPH", "catalog_graph_parent_and_name", "of_graph_type", "graph_source"], ["CREATE", "OR", "REPLACE", "GRAPH", "catalog_graph_parent_and_name", "of_graph_type"]}
    ensures BodyUnits([Alternative([Sym(Symbol.Terminal("CREATE")), Group([Alternative([Opt([Alternative([Sym(Symbol.Terminal("PROPERTY"))])]), Sym(Symbol.Terminal("GRAPH")), Opt([Alternative([Sym(Symbol.Terminal("IF")), Sym(Symbol.Terminal("NOT")), Sym(Symbol.Terminal("EXISTS"))])])]), Alternative([Sym(Symbol.Terminal("OR")), Sym(Symbol.Terminal("REPLACE")), Opt([Alternative([Sym(Symbol.Terminal("PROPERTY"))])]), Sym(Symbol.Terminal("GRAPH"))])]), Sym(Symbol.Nonterminal("catalog graph parent and name")), Group([Alternative([Sym(Symbol.Nonterminal("open graph type"))]), Alternative([Sym(Symbol.Nonterminal("of graph type"))])]), Opt([Alternative([Sym(Symbol.Nonterminal("graph source"))])])])]) == {}
  {
    Step191();
    assert [Alternative([Sym(Symbol.Terminal("CREATE")), Group([Alternative([Opt([Alternative([Sym(Symbol.Terminal("PROPERTY"))])]), Sym(Symbol.Terminal("GRAPH")), Opt([Alternative([Sym(Symbol.Terminal("IF")), Sym(Symbol.Terminal("NOT")), Sym(Symbol.Terminal("EXISTS"))])])]), Alternative([Sym(Symbol.Terminal("OR")), Sym(Symbol.Terminal("REPLACE")), Opt([Alternative([Sym(Symbol.Terminal("PROPERTY"))])]), Sym(Symbol.Terminal("GRAPH"))])]), Sym(Symbol.Nonterminal("catalog graph parent and name")), Group([Alternative([Sym(Symbol.Nonterminal("open graph type"))]), Alternative([Sym(Symbol.Nonterminal("of graph type"))])]), Opt([Alternative([Sym(Symbol.Nonterminal("graph source"))])])])][..0] == [];
  }

  /** Expansion and repeated units of the element `DETACH`; used by test_16. */
  lemma Step193()
    ensures Expand(Sym(Symbol.Terminal("DETACH"))) == {["DETACH"]}
    ensures ElementUnits(Sym(Symbol.Terminal("DETACH"))) == {}
  {
  }

  /** Expansion and repeated units of the elements `DETACH`; used by test_16. */
  lemma Step194()
    ensures ExpandSequence([Sym(Symbol.Terminal("DETACH"))]) == {["DETACH"]}
    ensures SequenceUnits([Sym(Symbol.Terminal("DETACH"))]) == {}
  {
    Step193();
    assert [Sym(Symbol.Terminal("DETACH"))][..0] == [];
    SequenceUnitLeft([Sym(Symbol.Terminal("DETACH"))], {["DETACH"]}, {}, {});
  }

  /** Expansion and repeated units of the alternatives `DETACH`; used by test_16. */
  lemma Step195()
    ensures ExpandBody([Alternative([Sym(Symbol.Terminal("DETACH"))])]) == {["DETACH"]}
    ensures BodyUnits([Alternative([Sym(Symbol.Terminal("DETACH"))])]) == {}
  {
    Step194();
    assert [Alternative([Sym(Symbol.Terminal("DETACH"))])][..0] == [];
  }

  /** Expansion and repeated units of the element `NODETACH`; used by test_16. */
  lemma Step196()
    ensures Expand(Sym(Symbol.Terminal("NODETACH"))) == {["NODETACH"]}
    ensures ElementUnits(Sym(Symbol.Terminal("NODETACH"))) == {}
  {
  }

  /** Expansion and repeated units of the elements `NODETACH`; used by test_16. */
  lemma Step197()
    ensures ExpandSequence([Sym(Symbol.Terminal("NODETACH"))]) == {["NODETACH"]}
    ensures SequenceUnits([Sym(Symbol.Terminal("NODETACH"))]) == {}
  {
    Step196();
    assert [Sym(Symbol.Terminal("NODETACH"))][..0] == [];
    SequenceUnitLeft([Sym(Symbol.Terminal("NODETACH"))], {["NODETACH"]}, {}, {});
  }

  /** Expansion and repeated units of the alternatives `DETACH | NODETACH`; used by test_16. */
  lemma Step198()
    ensures ExpandBody([Alternative([Sym(Symbol.Terminal("DETACH"))]), Alternative([Sym(Symbol.Terminal("NODETACH"))])]) == {["DETACH"], ["NODETACH"]}
    ensures BodyUnits([Alternative([Sym(Symbol.Terminal("DETACH"))]), Alternative([Sym(Symbol.Terminal("NODETACH"))])]) == {}
  {
    Step195();
    Step197();
    assert [Alternative([Sym(Symbol.Terminal("DETACH"))]), Alternative([Sym(Symbol.Terminal("NODETACH"))])][..1] == [Alternative([Sym(Symbol.Terminal("DETACH"))])];
  }

  /** Expansion and repeated units of the element `[ DETACH | NODETACH ]`; used by test_16. */
  lemma Step199()
    ensures Expand(Opt([Alternative([Sym(Symbol.Terminal("DETACH"))]), Alternative([Sym(Symbol.Terminal("NODETACH"))])])) == {["DETACH"], ["NODETACH"], []}
    ensures ElementUnits(Opt([Alternative([Sym(Symbol.Terminal("DETACH"))]), Alternative([Sym(Symbol.Terminal("NODETACH"))])])) == {}
  {
    Step198();
  }

  /** Expansion and repeated units of the elements `[ DETACH | NODETACH ]`; used by test_16. */
  lemma Step200()
    ensures ExpandSequence([Opt([Alternative([Sym(Symbol.Terminal("DETACH"))]), Alternative([Sym(Symbol.Terminal("NODETACH"))])])]) == {["DETACH"], ["NODETACH"], []}
    ensures SequenceUnits([Opt([Alternative([Sym(Symbol.Terminal("DETACH"))]), Alternative([Sym(Symbol.Terminal("NODETACH"))])])]) == {}
  {
    Step199();
    assert [Opt([Alternative([Sym(Symbol.Terminal("DETACH"))]), Alternative([Sym(Symbol.Terminal("NODETACH"))])])][..0] == [];
    SequenceUnitLeft([Opt([Alternative([Sym(Symbol.Terminal("DETACH"))]), Alternative([Sym(Symbol.Terminal("NODETACH"))])])], {["DETACH"], ["NODETACH"], []}, {}, {});
  }

  /** Expansion and repeated units of the element `DELETE`; used by test_16. */
  lemma Step201()
    ensures Expand(Sym(Symbol.Terminal("DELETE"))) == {["DELETE"]}
    ensures ElementUnits(Sym(Symbol.Terminal("DELETE"))) == {}
  {
  }

  /** One cross-product production: `DETACH` then `DELETE`; used by test_16. */
  lemma Step202()
    ensures ["DETACH"] + ["DELETE"] == ["DETACH", "DELETE"]
  {
  }

  /** One cross-product production: `NODETACH` then `DELETE`; used by test_16. */
  lemma Step203()
    ensures ["NODETACH"] + ["DELETE"] == ["NODETACH", "DELETE"]
  {
  }

  /** One cross-product production: `the empty production` then `DELETE`; used by test_16. */
  lemma Step204()
    ensures [] + ["DELETE"] == ["DELETE"]
  {
  }

  /** Expansion and repeated units of the elements `[ DETACH | NODETACH ] DELETE`; used by test_16. */
  lemma Step205()
    ensures ExpandSequence([Opt([Alternative([Sym(Symbol.Terminal("DETACH"))]), Alternative([Sym(Symbol.Terminal("NODETACH"))])]), Sym(Symbol.Terminal("DELETE"))]) == {["DETACH", "DELETE"], ["NODETACH", "DELETE"], ["DELETE"]}
    ensures SequenceUnits([Opt([Alternative([Sym(Symbol.Terminal("DETACH"))]), Alternative([Sym(Symbol.Terminal("NODETACH"))])]), Sym(Symbol.Terminal("DELETE"))]) == {}
  {
    Step200();
    Step201();
    Step202();
    Step203();
    Step204();
    assert [Opt([Alternative([Sym(Symbol.Terminal("DETACH"))]), Alternative([Sym(Symbol.Terminal("NODETACH"))])]), Sym(Symbol.Terminal("DELETE"))][..1] == [Opt([Alternative([Sym(Symbol.Terminal("DETACH"))]), Alternative([Sym(Symbol.Terminal("NODETACH"))])])];
    Sequence3x1([Opt([Alternative([Sym(Symbol.Terminal("DETACH"))]), Alternative([Sym(Symbol.Terminal("NODETACH"))])]), Sym(Symbol.Terminal("DELETE"))], ["DETACH"], ["NODETACH"], [], ["DELETE"], {}, {});
  }

  /** Expansion and repeated units of the element `<delete item list>`; used by test_16. */
  lemma Step206()
    ensures Expand(Sym(Symbol.Nonterminal("delete item list"))) == {["delete_item_list"]}
    ensures ElementUnits(Sym(Symbol.Nonterminal("delete item list"))) == {}
  {
    assert Normalize("delete item list") == "delete_item_list";
  }

  /** One cross-product production: `DETACH DELETE` then `delete_item_list`; used by test_16. */
  lemma Step207()
    ensures ["DETACH", "DELETE"] + ["delete_item_list"] == ["DETACH", "DELETE", "delete_item_list"]
  {
  }

  /** One cross-product production: `NODETACH DELETE` then `delete_item_list`; used by test_16. */
  lemma Step208()
    ensures ["NODETACH", "DELETE"] + ["delete_item_list"] == ["NODETACH", "DELETE", "delete_item_list"]
  {
  }

  /** One cross-product production: `DELETE` then `delete_item_list`; used by test_16. */
  lemma Step209()
    ensures ["DELETE"] + ["delete_item_list"] == ["DELETE", "delete_item_list"]
  {
  }

  /** Expansion and repeated units of the elements `[ DETACH | NODETACH ] DELETE <delete item list>`; used by test_16. */
  lemma Step210()
    ensures ExpandSequence([Opt([Alternative([Sym(Symbol.Terminal("DETACH"))]), Alternative([Sym(Symbol.Terminal("NODETACH"))])]), Sym(Symbol.Terminal("DELETE")), Sym(Symbol.Nonterminal("delete item list"))]) == {["DETACH", "DELETE", "delete_item_list"], ["NODETACH", "DELETE", "delete_item_list"], ["DELETE", "delete_item_list"]}
    ensures SequenceUnits([Opt([Alternative([Sym(Symbol.Terminal("DETACH"))]), Alternative([Sym(Symbol.Terminal("NODETACH"))])]), Sym(Symbol.Terminal("DELETE")), Sym(Symbol.Nonterminal("delete item list"))]) == {}
  {
    Step205();
    Step206();
    Step207();
    Step208();
    Step209();
    assert [Opt([Alternative([Sym(Symbol.Terminal("DETACH"))]), Alternative([Sym(Symbol.Terminal("NODETACH"))])]), Sym(Symbol.Terminal("DELETE")), Sym(Symbol.Nonterminal("delete item list"))][..2] == [Opt([Alternative([Sym(Symbol.Terminal("DETACH"))]), Alternative([Sym(Symbol.Terminal("NODETACH"))])]), Sym(Symbol.Terminal("DELETE"))];
    Sequence3x1([Opt([Alternative([Sym(Symbol.Terminal("DETACH"))]), Alternative([Sym(Symbol.Terminal("NODETACH"))])]), Sym(Symbol.Terminal("DELETE")), Sym(Symbol.Nonterminal("delete item list"))], ["DETACH", "DELETE"], ["NODETACH", "DELETE"], ["DELETE"], ["delete_item_list"], {}, {});
  }

  /** Expansion and repeated units of the alternatives `[ DETACH | NODETACH ] DELETE <delete item list>`; used by test_16. */
  lemma Step211()
    ensures ExpandBody([Alternative([Opt([Alternative([Sym(Symbol.Terminal("DETACH"))]), Alternative([Sym(Symbol.Terminal("NODETACH"))])]), Sym(Symbol.Terminal("DELETE")), Sym(Symbol.Nonterminal("delete item list"))])]) == {["DETACH", "DELETE", "delete_item_list"], ["NODETACH", "DELETE", "delete_item_list"], ["DELETE", "delete_item_list"]}
    ensures BodyUnits([Alternative([Opt([Alternative([Sym(Symbol.Terminal("DETACH"))]), Alternative([Sym(Symbol.Terminal("NODETACH"))])]), Sym(Symbol.Terminal("DELETE")), Sym(Symbol.Nonterminal("delete item list"))])]) == {}
  {
    Step210();
    assert [Alternative([Opt([Alternative([Sym(Symbol.Terminal("DETACH"))]), Alternative([Sym(Symbol.Terminal("NODETACH"))])]), Sym(Symbol.Terminal("DELETE")), Sym(Symbol.Nonterminal("delete item list"))])][..0] == [];
  }

  /** Display name of `<delete statement>`; used by test_16. */
  lemma Step212()
    ensures Normalize("delete statement") == "delete_statement"
  {
  }

  /** Expansion and repeated units of the elements `EXISTS`; used by test_17. */
  lemma Step213()
    ensures ExpandSequence([Sym(Symbol.Terminal("EXISTS"))]) == {["EXISTS"]}
    ensures SequenceUnits([Sym(Symbol.Terminal("EXISTS"))]) == {}
  {
    Step109();
    assert [Sym(Symbol.Terminal("EXISTS"))][..0] == [];
    SequenceUnitLeft([Sym(Symbol.Terminal("EXISTS"))], {["EXISTS"]}, {}, {});
  }

  /** Expansion and repeated units of the element `<graph pattern>`; used by test_17. */
  lemma Step214()
    ensures Expand(Sym(Symbol.Nonterminal("graph pattern"))) == {["graph_pattern"]}
    ensures ElementUnits(Sym(Symbol.Nonterminal("graph pattern"))) == {}
  {
    assert Normalize("graph pattern") == "graph_pattern";
  }

  /** One cross-product production: `left_brace` then `graph_pattern`; used by test_17. */
  lemma Step215()
    ensures ["left_brace"] + ["graph_pattern"] == ["left_brace", "graph_pattern"]
  {
  }

  /** Expansion and repeated units of the elements `<left brace> <graph pattern>`; used by test_17. */
  lemma Step216()
    ensures ExpandSequence([Sym(Symbol.Nonterminal("left brace")), Sym(Symbol.Nonterminal("graph pattern"))]) == {["left_brace", "graph_pattern"]}
    ensures SequenceUnits([Sym(Symbol.Nonterminal("left brace")), Sym(Symbol.Nonterminal("graph pattern"))]) == {}
  {
    Step12();
    Step214();
    Step215();
    assert [Sym(Symbol.Nonterminal("left brace")), Sym(Symbol.Nonterminal("graph pattern"))][..1] == [Sym(Symbol.Nonterminal("left brace"))];
    Sequence1x1([Sym(Symbol.Nonterminal("left brace")), Sym(Symbol.Nonterminal("graph pattern"))], ["left_brace"], ["graph_pattern"], {}, {});
  }

  /** One cross-product production: `left_brace graph_pattern` then `right_brace`; used by test_17. */
  lemma Step217()
    ensures ["left_brace", "graph_pattern"] + ["right_brace"] == ["left_brace", "graph_pattern", "right_brace"]
  {
  }

  /** Expansion and repeated units of the elements `<left brace> <graph pattern> <right brace>`; used by test_17. */
  lemma Step218()
    ensures ExpandSequence([Sym(Symbol.Nonterminal("left brace")), Sym(Symbol.Nonterminal("graph pattern")), Sym(Symbol.Nonterminal("right brace"))]) == {["left_brace", "graph_pattern", "right_brace"]}
    ensures SequenceUnits([Sym(Symbol.Nonterminal("left brace")), Sym(Symbol.Nonterminal("graph pattern")), Sym(Symbol.Nonterminal("right brace"))]) == {}
  {
    Step216();
    Step16();
    Step217();
    assert [Sym(Symbol.Nonterminal("left brace")), Sym(Symbol.Nonterminal("graph pattern")), Sym(Symbol.Nonterminal("right brace"))][..2] == [Sym(Symbol.Nonterminal("left brace")), Sym(Symbol.Nonterminal("graph pattern"))];
    Sequence1x1([Sym(Symbol.Nonterminal("left brace")), Sym(Symbol.Nonterminal("graph pattern")), Sym(Symbol.Nonterminal("right brace"))], ["left_brace", "graph_pattern"], ["right_brace"], {}, {});
  }

  /** Expansion and repeated units of the alternatives `<left brace> <graph pattern> <right brace>`; used by test_17. */
  lemma Step219()
    ensures ExpandBody([Alternative([Sym(Symbol.Nonterminal("left brace")), Sym(Symbol.Nonterminal("graph pattern")), Sym(Symbol.Nonterminal("right brace"))])]) == {["left_brace", "graph_pattern", "right_brace"]}
    ensures BodyUnits([Alternative([Sym(Symbol.Nonterminal("left brace")), Sym(Symbol.Nonterminal("graph pattern")), Sym(Symbol.Nonterminal("right brace"))])]) == {}
  {
    Step218();
    assert [Alternative([Sym(Symbol.Nonterminal("left brace")), Sym(Symbol.Nonterminal("graph pattern")), Sym(Symbol.Nonterminal("right brace"))])][..0] == [];
  }

  /** Expansion and repeated units of the element `<left paren>`; used by test_17. */
  lemma Step220()
    ensures Expand(Sym(Symbol.Nonterminal("left paren"))) == {["left_paren"]}
    ensures ElementUnits(Sym(Symbol.Nonterminal("left paren"))) == {}
  {
    assert Normalize("left paren") == "left_paren";
  }

  /** Expansion and repeated units of the elements `<left paren>`; used by test_17. */
  lemma Step221()
    ensures ExpandSequence([Sym(Symbol.Nonterminal("left paren"))]) == {["left_paren"]}
    ensures SequenceUnits([Sym(Symbol.Nonterminal("left paren"))]) == {}
  {
    Step220();
    assert [Sym(Symbol.Nonterminal("left paren"))][..0] == [];
    SequenceUnitLeft([Sym(Symbol.Nonterminal("left paren"))], {["left_paren"]}, {}, {});
  }

  /** One cross-product production: `left_paren` then `graph_pattern`; used by test_17. */
  lemma Step222()
    ensures ["left_paren"] + ["graph_pattern"] == ["left_paren", "graph_pattern"]
  {
  }

  /** Expansion and repeated units of the elements `<left paren> <graph pattern>`; used by test_17. */
  lemma Step223()
    ensures ExpandSequence([Sym(Symbol.Nonterminal("left paren")), Sym(Symbol.Nonterminal("graph pattern"))]) == {["left_paren", "graph_pattern"]}
    ensures SequenceUnits([Sym(Symbol.Nonterminal("left paren")), Sym(Symbol.Nonterminal("graph pattern"))]) == {}
  {
    Step221();
    Step214();
    Step222();
    assert [Sym(Symbol.Nonterminal("left paren")), Sym(Symbol.Nonterminal("graph pattern"))][..1] == [Sym(Symbol.Nonterminal("left paren"))];
    Sequence1x1([Sym(Symbol.Nonterminal("left paren")), Sym(Symbol.Nonterminal("graph pattern"))], ["left_paren"], ["graph_pattern"], {}, {});
  }

  /** Expansion and repeated units of the element `<right paren>`; used by test_17. */
  lemma Step224()
    ensures Expand(Sym(Symbol.Nonterminal("right paren"))) == {["right_paren"]}
    ensures ElementUnits(Sym(Symbol.Nonterminal("right paren"))) == {}
  {
    assert Normalize("right paren") == "right_paren";
  }

  /** One cross-product production: `left_paren graph_pattern` then `right_paren`; used by test_17. */
  lemma Step225()
    ensures ["left_paren", "graph_pattern"] + ["right_paren"] == ["left_paren", "graph_pattern", "right_paren"]
  {
  }

  /** Expansion and repeated units of the elements `<left paren> <graph pattern> <right paren>`; used by test_17. */
  lemma Step226()
    ensures ExpandSequence([Sym(Symbol.Nonterminal("left paren")), Sym(Symbol.Nonterminal("graph pattern")), Sym(Symbol.Nonterminal("right paren"))]) == {["left_paren", "graph_pattern", "right_paren"]}
    ensures SequenceUnits([Sym(Symbol.Nonterminal("left paren")), Sym(Symbol.Nonterminal("graph pattern")), Sym(Symbol.Nonterminal("right paren"))]) == {}
  {
    Step223();
    Step224();
    Step225();
    assert [Sym(Symbol.Nonterminal("left paren")), Sym(Symbol.Nonterminal("graph pattern")), Sym(Symbol.Nonterminal("right paren"))][..2] == [Sym(Symbol.Nonterminal("left paren")), Sym(Symbol.Nonterminal("graph pattern"))];
    Sequence1x1([Sym(Symbol.Nonterminal("left paren")), Sym(Symbol.Nonterminal("graph pattern")), Sym(Symbol.Nonterminal("right paren"))], ["left_paren", "graph_pattern"], ["right_paren"], {}, {});
  }

  /** Expansion and repeated units of the alternatives `<left brace> <graph pattern> <right brace> | <left paren> <graph pattern> <right paren>`; used by test_17. */
  lemma Step227()
    ensures ExpandBody([Alternative([Sym(Symbol.Nonterminal("left brace")), Sym(Symbol.Nonterminal("graph pattern")), Sym(Symbol.Nonterminal("right brace"))]), Alternative([Sym(Symbol.Nonterminal("left paren")), Sym(Symbol.Nonterminal("graph pattern")), Sym(Symbol.Nonterminal("right paren"))])]) == {["left_brace", "graph_pattern", "right_brace"], ["left_paren", "graph_pattern", "right_paren"]}
    ensures BodyUnits([Alternative([Sym(Symbol.Nonterminal("left brace")), Sym(Symbol.Nonterminal("graph pattern")), Sym(Symbol.Nonterminal("right brace"))]), Alternative([Sym(Symbol.Nonterminal("left paren")), Sym(Symbol.Nonterminal("graph pattern")), Sym(Symbol.Nonterminal("right paren"))])]) == {}
  {
    Step219();
    Step226();
    assert [Alternative([Sym(Symbol.Nonterminal("left brace")), Sym(Symbol.Nonterminal("graph pattern")), Sym(Symbol.Nonterminal("right brace"))]), Alternative([Sym(Symbol.Nonterminal("left paren")), Sym(Symbol.Nonterminal("graph pattern")), Sym(Symbol.Nonterminal("right paren"))])][..1] == [Alternative([Sym(Symbol.Nonterminal("left brace")), Sym(Symbol.Nonterminal("graph pattern")), Sym(Symbol.Nonterminal("right brace"))])];
  }

  /** Expansion and repeated units of the element `<match statement block>`; used by test_17. */
  lemma Step228()
    ensures Expand(Sym(Symbol.Nonterminal("match statement block"))) == {["match_statement_block"]}
    ensures ElementUnits(Sym(Symbol.Nonterminal("match statement block"))) == {}
  {
    assert Normalize("match statement block") == "match_statement_block";
  }

  /** One cross-product production: `left_brace` then `match_statement_block`; used by test_17. */
  lemma Step229()
    ensures ["left_brace"] + ["match_statement_block"] == ["left_brace", "match_statement_block"]
  {
  }

  /** Expansion and repeated units of the elements `<left brace> <match statement block>`; used by test_17. */
  lemma Step230()
    ensures ExpandSequence([Sym(Symbol.Nonterminal("left brace")), Sym(Symbol.Nonterminal("match statement block"))]) == {["left_brace", "match_statement_block"]}
    ensures SequenceUnits([Sym(Symbol.Nonterminal("left brace")), Sym(Symbol.Nonterminal("match statement block"))]) == {}
  {
    Step12();
    Step228();
    Step229();
    assert [Sym(Symbol.Nonterminal("left brace")), Sym(Symbol.Nonterminal("match statement block"))][..1] == [Sym(Symbol.Nonterminal("left brace"))];
    Sequence1x1([Sym(Symbol.Nonterminal("left brace")), Sym(Symbol.Nonterminal("match statement block"))], ["left_brace"], ["match_statement_block"], {}, {});
  }

  /** One cross-product production: `left_brace match_statement_block` then `right_brace`; used by test_17. */
  lemma Step231()
    ensures ["left_brace", "match_statement_block"] + ["right_brace"] == ["left_brace", "match_statement_block", "right_brace"]
  {
  }

  /** Expansion and repeated units of the elements `<left brace> <match statement block> <right brace>`; used by test_17. */
  lemma Step232()
    ensures ExpandSequence([Sym(Symbol.Nonterminal("left brace")), Sym(Symbol.Nonterminal("match statement block")), Sym(Symbol.Nonterminal("right brace"))]) == {["left_brace", "match_statement_block", "right_brace"]}
    ensures SequenceUnits([Sym(Symbol.Nonterminal("left brace")), Sym(Symbol.Nonterminal("match statement block")), Sym(Symbol.Nonterminal("right brace"))]) == {}
  {
    Step230();
    Step16();
    Step231();
    assert [Sym(Symbol.Nonterminal("left brace")), Sym(Symbol.Nonterminal("match statement block")), Sym(Symbol.Nonterminal("right brace"))][..2] == [Sym(Symbol.Nonterminal("left brace")), Sym(Symbol.Nonterminal("match statement block"))];
    Sequence1x1([Sym(Symbol.Nonterminal("left brace")), Sym(Symbol.Nonterminal("match statement block")), Sym(Symbol.Nonterminal("right brace"))], ["left_brace", "match_statement_block"], ["right_brace"], {}, {});
  }

  /** Expansion and repeated units of the alternatives `<left brace> <graph pattern> <right brace> | <left paren> <graph pattern> <right paren> | <left brace> <match statement block> <right brace>`; used by test_17. */
  lemma Step233()
    ensures ExpandBody([Alternative([Sym(Symbol.Nonterminal("left brace")), Sym(Symbol.Nonterminal("graph pattern")), Sym(Symbol.Nonterminal("right brace"))]), Alternative([Sym(Symbol.Nonterminal("left paren")), Sym(Symbol.Nonterminal("graph pattern")), Sym(Symbol.Nonterminal("right paren"))]), Alternative([Sym(Symbol.Nonterminal("left brace")), Sym(Symbol.Nonterminal("match statement block")), Sym(Symbol.Nonterminal("right brace"))])]) == {["left_brace", "graph_pattern", "right_brace"], ["left_paren", "graph_pattern", "right_paren"], ["left_brace", "match_statement_block", "right_brace"]}
    ensures BodyUnits([Alternative([Sym(Symbol.Nonterminal("left brace")), Sym(Symbol.Nonterminal("graph pattern")), Sym(Symbol.Nonterminal("right brace"))]), Alternative([Sym(Symbol.Nonterminal("left paren")), Sym(Symbol.Nonterminal("graph pattern")), Sym(Symbol.Nonterminal("right paren"))]), Alternative([Sym(Symbol.Nonterminal("left brace")), Sym(Symbol.Nonterminal("match statement block")), Sym(Symbol.Nonterminal("right brace"))])]) == {}
  {
    Step227();
    Step232();
    assert [Alternative([Sym(Symbol.Nonterminal("left brace")), Sym(Symbol.Nonterminal("graph pattern")), Sym(Symbol.Nonterminal("right brace"))]), Alternative([Sym(Symbol.Nonterminal("left paren")), Sym(Symbol.Nonterminal("graph pattern")), Sym(Symbol.Nonterminal("right paren"))]), Alternative([Sym(Symbol.Nonterminal("left brace")), Sym(Symbol.Nonterminal("match statement block")), Sym(Symbol.Nonterminal("right brace"))])][..2] == [Alternative([Sym(Symbol.Nonterminal("left brace")), Sym(Symbol.Nonterminal("graph pattern")), Sym(Symbol.Nonterminal("right brace"))]), Alternative([Sym(Symbol.Nonterminal("left paren")), Sym(Symbol.Nonterminal("graph pattern")), Sym(Symbol.Nonterminal("right paren"))])];
  }

  /** One cross-product production: `left_paren` then `match_statement_block`; used by test_17. */
  lemma Step234()
    ensures ["left_paren"] + ["match_statement_block"] == ["left_paren", "match_statement_block"]
  {
  }

  /** Expansion and repeated units of the elements `<left paren> <match statement block>`; used by test_17. */
  lemma Step235()
    ensures ExpandSequence([Sym(Symbol.Nonterminal("left paren")), Sym(Symbol.Nonterminal("match statement block"))]) == {["left_paren", "match_statement_block"]}
    ensures SequenceUnits([Sym(Symbol.Nonterminal("left paren")), Sym(Symbol.Nonterminal("match statement block"))]) == {}
  {
    Step221();
    Step228();
    Step234();
    assert [Sym(Symbol.Nonterminal("left paren")), Sym(Symbol.Nonterminal("match statement block"))][..1] == [Sym(Symbol.Nonterminal("left paren"))];
    Sequence1x1([Sym(Symbol.Nonterminal("left paren")), Sym(Symbol.Nonterminal("match statement block"))], ["left_paren"], ["match_statement_block"], {}, {});
  }

  /** One cross-product production: `left_paren match_statement_block` then `right_paren`; used by test_17. */
  lemma Step236()
    ensures ["left_paren", "match_statement_block"] + ["right_paren"] == ["left_paren", "match_statement_block", "right_paren"]
  {
  }

  /** Expansion and repeated units of the elements `<left paren> <match statement block> <right paren>`; used by test_17. */
  lemma Step237()
    ensures ExpandSequence([Sym(Symbol.Nonterminal("left paren")), Sym(Symbol.Nonterminal("match statement block")), Sym(Symbol.Nonterminal("right paren"))]) == {["left_paren", "match_statement_block", "right_paren"]}
    ensures SequenceUnits([Sym(Symbol.Nonterminal("left paren")), Sym(Symbol.Nonterminal("match statement block")), Sym(Symbol.Nonterminal("right paren"))]) == {}
  {
    Step235();
    Step224();
    Step236();
    assert [Sym(Symbol.Nonterminal("left paren")), Sym(Symbol.Nonterminal("match statement block")), Sym(Symbol.Nonterminal("right paren"))][..2] == [Sym(Symbol.Nonterminal("left paren")), Sym(Symbol.Nonterminal("match statement block"))];
    Sequence1x1([Sym(Symbol.Nonterminal("left paren")), Sym(Symbol.Nonterminal("match statement block")), Sym(Symbol.Nonterminal("right paren"))], ["left_paren", "match_statement_block"], ["right_paren"], {}, {});
  }

  /** Expansion and repeated units of the alternatives `<left brace> <graph pattern> <right brace> | <left paren> <graph pattern> <right paren> | <left brace> <match statement block> <right brace> | <left paren> <match statement block> <right paren>`; used by test_17. */
  lemma Step238()
    ensures ExpandBody([Alternative([Sym(Symbol.Nonterminal("left brace")), Sym(Symbol.Nonterminal("graph pattern")), Sym(Symbol.Nonterminal("right brace"))]), Alternative([Sym(Symbol.Nonterminal("left paren")), Sym(Symbol.Nonterminal("graph pattern")), Sym(Symbol.Nonterminal("right paren"))]), Alternative([Sym(Symbol.Nonterminal("left brace")), Sym(Symbol.Nonterminal("match statement block")), Sym(Symbol.Nonterminal("right brace"))]), Alternative([Sym(Symbol.Nonterminal("left paren")), Sym(Symbol.Nonterminal("match statement block")), Sym(Symbol.Nonterminal("right paren"))])]) == {["left_brace", "graph_pattern", "right_brace"], ["left_paren", "graph_pattern", "right_paren"], ["left_brace", "match_statement_block", "right_brace"], ["left_paren", "match_statement_block", "right_paren"]}
    ensures BodyUnits([Alternative([Sym(Symbol.Nonterminal("left brace")), Sym(Symbol.Nonterminal("graph pattern")), Sym(Symbol.Nonterminal("right brace"))]), Alternative([Sym(Symbol.Nonterminal("left paren")), Sym(Symbol.Nonterminal("graph pattern")), Sym(Symbol.Nonterminal("right paren"))]), Alternative([Sym(Symbol.Nonterminal("left brace")), Sym(Symbol.Nonterminal("match statement block")), Sym(Symbol.Nonterminal("right brace"))]), Alternative([Sym(Symbol.Nonterminal("left paren")), Sym(Symbol.Nonterminal("match statement block")), Sym(Symbol.Nonterminal("right paren"))])]) == {}
  {
    Step233();
    Step237();
    assert [Alternative([Sym(Symbol.Nonterminal("left brace")), Sym(Symbol.Nonterminal("graph pattern")), Sym(Symbol.Nonterminal("right brace"))]), Alternative([Sym(Symbol.Nonterminal("left paren")), Sym(Symbol.Nonterminal("graph pattern")), Sym(Symbol.Nonterminal("right paren"))]), Alternative([Sym(Symbol.Nonterminal("left brace")), Sym(Symbol.Nonterminal("match statement block")), Sym(Symbol.Nonterminal("right brace"))]), Alternative([Sym(Symbol.Nonterminal("left paren")), Sym(Symbol.Nonterminal("match statement block")), Sym(Symbol.Nonterminal("right paren"))])][..3] == [Alternative([Sym(Symbol.Nonterminal("left brace")), Sym(Symbol.Nonterminal("graph pattern")), Sym(Symbol.Nonterminal("right brace"))]), Alternative([Sym(Symbol.Nonterminal("left paren")), Sym(Symbol.Nonterminal("graph pattern")), Sym(Symbol.Nonterminal("right paren"))]), Alternative([Sym(Symbol.Nonterminal("left brace")), Sym(Symbol.Nonterminal("match statement block")), Sym(Symbol.Nonterminal("right brace"))])];
  }

  /** Expansion and repeated units of the element `<nested query specification>`; used by test_17. */
  lemma Step239()
    ensures Expand(Sym(Symbol.Nonterminal("nested query specification"))) == {["nested_query_specification"]}
    ensures ElementUnits(Sym(Symbol.Nonterminal("nested query specification"))) == {}
  {
    assert Normalize("nested query specification") == "nested_query_specification";
  }

  /** Expansion and repeated units of the elements `<nested query specification>`; used by test_17. */
  lemma Step240()
    ensures ExpandSequence([Sym(Symbol.Nonterminal("nested query specification"))]) == {["nested_query_specification"]}
    ensures SequenceUnits([Sym(Symbol.Nonterminal("nested query specification"))]) == {}
  {
    Step239();
    assert [Sym(Symbol.Nonterminal("nested query specification"))][..0] == [];
    SequenceUnitLeft([Sym(Symbol.Nonterminal("nested query specification"))], {["nested_query_specification"]}, {}, {});
  }

  /** Expansion and repeated units of the alternatives `<left brace> <graph pattern> <right brace> | <left paren> <graph pattern> <right paren> | <left brace> <match statement block> <right brace> | <left paren> <match statement block> <right paren> | <nested query specification>`; used by test_17. */
  lemma Step241()
    ensures ExpandBody([Alternative([Sym(Symbol.Nonterminal("left brace")), Sym(Symbol.Nonterminal("graph pattern")), Sym(Symbol.Nonterminal("right brace"))]), Alternative([Sym(Symbol.Nonterminal("left paren")), Sym(Symbol.Nonterminal("graph pattern")), Sym(Symbol.Nonterminal("right paren"))]), Alternative([Sym(Symbol.Nonterminal("left brace")), Sym(Symbol.Nonterminal("match statement block")), Sym(Symbol.Nonterminal("right brace"))]), Alternative([Sym(Symbol.Nonterminal("left paren")), Sym(Symbol.Nonterminal("match statement block")), Sym(Symbol.Nonterminal("right paren"))]), Alternative([Sym(Symbol.Nonterminal("nested query specification"))])]) == {["left_brace", "graph_pattern", "right_brace"], ["left_paren", "graph_pattern", "right_paren"], ["left_brace", "match_statement_block", "right_brace"], ["left_paren", "match_statement_block", "right_paren"], ["nested_query_specification"]}
    ensures BodyUnits([Alternative([Sym(Symbol.Nonterminal("left brace")), Sym(Symbol.Nonterminal("graph pattern")), Sym(Symbol.Nonterminal("right brace"))]), Alternative([Sym(Symbol.Nonterminal("left paren")), Sym(Symbol.Nonterminal("graph pattern")), Sym(Symbol.Nonterminal("right paren"))]), Alternative([Sym(Symbol.Nonterminal("left brace")), Sym(Symbol.Nonterminal("match statement block")), Sym(Symbol.Nonterminal("right brace"))]), Alternative([Sym(Symbol.Nonterminal("left paren")), Sym(Symbol.Nonterminal("match statement block")), Sym(Symbol.Nonterminal("right paren"))]), Alternative([Sym(Symbol.Nonterminal("nested query specification"))])]) == {}
  {
    Step238();
    Step240();
    assert [Alternative([Sym(Symbol.Nonterminal("left brace")), Sym(Symbol.Nonterminal("graph pattern")), Sym(Symbol.Nonterminal("right brace"))]), Alternative([Sym(Symbol.Nonterminal("left paren")), Sym(Symbol.Nonterminal("graph pattern")), Sym(Symbol.Nonterminal("right paren"))]), Alternative([Sym(Symbol.Nonterminal("left brace")), Sym(Symbol.Nonterminal("match statement block")), Sym(Symbol.Nonterminal("right brace"))]), Alternative([Sym(Symbol.Nonterminal("left paren")), Sym(Symbol.Nonterminal("match statement block")), Sym(Symbol.Nonterminal("right paren"))]), Alternative([Sym(Symbol.Nonterminal("nested query specification"))])][..4] == [Alternative([Sym(Symbol.Nonterminal("left brace")), Sym(Symbol.Nonterminal("graph pattern")), Sym(Symbol.Nonterminal("right brace"))]), Alternative([Sym(Symbol.Nonterminal("left paren")), Sym(Symbol.Nonterminal("graph pattern")), Sym(Symbol.Nonterminal("right paren"))]), Alternative([Sym(Symbol.Nonterminal("left brace")), Sym(Symbol.Nonterminal("match statement block")), Sym(Symbol.Nonterminal("right brace"))]), Alternative([Sym(Symbol.Nonterminal("left paren")), Sym(Symbol.Nonterminal("match statement block")), Sym(Symbol.Nonterminal("right paren"))])];
  }

  /** Expansion and repeated units of the element `{ <left brace> <graph pattern> <right brace> | <left paren> <graph pattern> <right paren> | <left brace> <match statement block> <right brace> | <left paren> <match statement block> <right paren> | <nested query specification> }`; used by test_17. */
  lemma Step242()
    ensures Expand(Group([Alternative([Sym(Symbol.Nonterminal("left brace")), Sym(Symbol.Nonterminal("graph pattern")), Sym(Symbol.Nonterminal("right brace"))]), Alternative([Sym(Symbol.Nonterminal("left paren")), Sym(Symbol.Nonterminal("graph pattern")), Sym(Symbol.Nonterminal("right paren"))]), Alternative([Sym(Symbol.Nonterminal("left brace")), Sym(Symbol.Nonterminal("match statement block")), Sym(Symbol.Nonterminal("right brace"))]), Alternative([Sym(Symbol.Nonterminal("left paren")), Sym(Symbol.Nonterminal("match statement block")), Sym(Symbol.Nonterminal("right paren"))]), Alternative([Sym(Symbol.Nonterminal("nested query specification"))])])) == {["left_brace", "graph_pattern", "right_brace"], ["left_paren", "graph_pattern", "right_paren"], ["left_brace", "match_statement_block", "right_brace"], ["left_paren", "match_statement_block", "right_paren"], ["nested_query_specification"]}
    ensures ElementUnits(Group([Alternative([Sym(Symbol.Nonterminal("left brace")), Sym(Symbol.Nonterminal("graph pattern")), Sym(Symbol.Nonterminal("right brace"))]), Alternative([Sym(Symbol.Nonterminal("left paren")), Sym(Symbol.Nonterminal("graph pattern")), Sym(Symbol.Nonterminal("right paren"))]), Alternative([Sym(Symbol.Nonterminal("left brace")), Sym(Symbol.Nonterminal("match statement block")), Sym(Symbol.Nonterminal("right brace"))]), Alternative([Sym(Symbol.Nonterminal("left paren")), Sym(Symbol.Nonterminal("match statement block")), Sym(Symbol.Nonterminal("right paren"))]), Alternative([Sym(Symbol.Nonterminal("nested query specification"))])])) == {}
  {
    Step241();
  }

  /** One cross-product production: `EXISTS` then `left_brace graph_pattern right_brace`; used by test_17. */
  lemma Step243()
    ensures ["EXISTS"] + ["left_brace", "graph_pattern", "right_brace"] == ["EXISTS", "left_brace", "graph_pattern", "right_brace"]
  {
  }

  /** One cross-product production: `EXISTS` then `left_paren graph_pattern right_paren`; used by test_17. */
  lemma Step244()
    ensures ["EXISTS"] + ["left_paren", "graph_pattern", "right_paren"] == ["EXISTS", "left_paren", "graph_pattern", "right_paren"]
  {
  }

  /** One cross-product production: `EXISTS` then `left_brace match_statement_block right_brace`; used by test_17. */
  lemma Step245()
    ensures ["EXISTS"] + ["left_brace", "match_statement_block", "right_brace"] == ["EXISTS", "left_brace", "match_statement_block", "right_brace"]
  {
  }

  /** One cross-product production: `EXISTS` then `left_paren match_statement_block right_paren`; used by test_17. */
  lemma Step246()
    ensures ["EXISTS"] + ["left_paren", "match_statement_block", "right_paren"] == ["EXISTS", "left_paren", "match_statement_block", "right_paren"]
  {
  }

  /** One cross-product production: `EXISTS` then `nested_query_specification`; used by test_17. */
  lemma Step247()
    ensures ["EXISTS"] + ["nested_query_specification"] == ["EXISTS", "nested_query_specification"]
  {
  }

  /** Expansion and repeated units of the elements `EXISTS { <left brace> <graph pattern> <right brace> | <left paren> <graph pattern> <right paren> | <left brace> <match statement block> <right brace> | <left paren> <match statement block> <right paren> | <nested query specification> }`; used by test_17. */
  lemma Step248()
    ensures ExpandSequence([Sym(Symbol.Terminal("EXISTS")), Group([Alternative([Sym(Symbol.Nonterminal("left brace")), Sym(Symbol.Nonterminal("graph pattern")), Sym(Symbol.Nonterminal("right brace"))]), Alternative([Sym(Symbol.Nonterminal("left paren")), Sym(Symbol.Nonterminal("graph pattern")), Sym(Symbol.Nonterminal("right paren"))]), Alternative([Sym(Symbol.Nonterminal("left brace")), Sym(Symbol.Nonterminal("match statement block")), Sym(Symbol.Nonterminal("right brace"))]), Alternative([Sym(Symbol.Nonterminal("left paren")), Sym(Symbol.Nonterminal("match statement block")), Sym(Symbol.Nonterminal("right paren"))]), Alternative([Sym(Symbol.Nonterminal("nested query specification"))])])]) == {["EXISTS", "left_brace", "graph_pattern", "right_brace"], ["EXISTS", "left_paren", "graph_pattern", "right_paren"], ["EXISTS", "left_brace", "match_statement_block", "right_brace"], ["EXISTS", "left_paren", "match_statement_block", "right_paren"], ["EXISTS", "nested_query_specification"]}
    ensures SequenceUnits([Sym(Symbol.Terminal("EXISTS")), Group([Alternative([Sym(Symbol.Nonterminal("left brace")), Sym(Symbol.Nonterminal("graph pattern")), Sym(Symbol.Nonterminal("right brace"))]), Alternative([Sym(Symbol.Nonterminal("left paren")), Sym(Symbol.Nonterminal("graph pattern")), Sym(Symbol.Nonterminal("right paren"))]), Alternative([Sym(Symbol.Nonterminal("left brace")), Sym(Symbol.Nonterminal("match statement block")), Sym(Symbol.Nonterminal("right brace"))]), Alternative([Sym(Symbol.Nonterminal("left paren")), Sym(Symbol.Nonterminal("match statement block")), Sym(Symbol.Nonterminal("right paren"))]), Alternative([Sym(Symbol.Nonterminal("nested query specification"))])])]) == {}
  {
    Step213();
    Step242();
    Step243();
    Step244();
    Step245();
    Step246();
    Step247();
    assert [Sym(Symbol.Terminal("EXISTS")), Group([Alternative([Sym(Symbol.Nonterminal("left brace")), Sym(Symbol.Nonterminal("graph pattern")), Sym(Symbol.Nonterminal("right brace"))]), Alternative([Sym(Symbol.Nonterminal("left paren")), Sym(Symbol.Nonterminal("graph pattern")), Sym(Symbol.Nonterminal("right paren"))]), Alternative([Sym(Symbol.Nonterminal("left brace")), Sym(Symbol.Nonterminal("match statement block")), Sym(Symbol.Nonterminal("right brace"))]), Alternative([Sym(Symbol.Nonterminal("left paren")), Sym(Symbol.Nonterminal("match statement block")), Sym(Symbol.Nonterminal("right paren"))]), Alternative([Sym(Symbol.Nonterminal("nested query specification"))])])][..1] == [Sym(Symbol.Terminal("EXISTS"))];
    Sequence1x5([Sym(Symbol.Terminal("EXISTS")), Group([Alternative([Sym(Symbol.Nonterminal("left brace")), Sym(Symbol.Nonterminal("graph pattern")), Sym(Symbol.Nonterminal("right brace"))]), Alternative([Sym(Symbol.Nonterminal("left paren")), Sym(Symbol.Nonterminal("graph pattern")), Sym(Symbol.Nonterminal("right paren"))]), Alternative([Sym(Symbol.Nonterminal("left brace")), Sym(Symbol.Nonterminal("match statement block")), Sym(Symbol.Nonterminal("right brace"))]), Alternative([Sym(Symbol.Nonterminal("left paren")), Sym(Symbol.Nonterminal("match statement block")), Sym(Symbol.Nonterminal("right paren"))]), Alternative([Sym(Symbol.Nonterminal("nested query specification"))])])], ["EXISTS"], ["left_brace", "graph_pattern", "right_brace"], ["left_paren", "graph_pattern", "right_paren"], ["left_brace", "match_statement_block", "right_brace"], ["left_paren", "match_statement_block", "right_paren"], ["nested_query_specification"], {}, {});
  }

  /** Expansion and repeated units of the alternatives `EXISTS { <left brace> <graph pattern> <right brace> | <left paren> <graph pattern> <right paren> | <left brace> <match statement block> <right brace> | <left paren> <match statement block> <right paren> | <nested query specification> }`; used by test_17. */
  lemma Step249()
    ensures ExpandBody([Alternative([Sym(Symbol.Terminal("EXISTS")), Group([Alternative([Sym(Symbol.Nonterminal("left brace")), Sym(Symbol.Nonterminal("graph pattern")), Sym(Symbol.Nonterminal("right brace"))]), Alternative([Sym(Symbol.Nonterminal("left paren")), Sym(Symbol.Nonterminal("graph pattern")), Sym(Symbol.Nonterminal("right paren"))]), Alternative([Sym(Symbol.Nonterminal("left brace")), Sym(Symbol.Nonterminal("match statement block")), Sym(Symbol.Nonterminal("right brace"))]), Alternative([Sym(Symbol.Nonterminal("left paren")), Sym(Symbol.Nonterminal("match statement block")), Sym(Symbol.Nonterminal("right paren"))]), Alternative([Sym(Symbol.Nonterminal("nested query specification"))])])])]) == {["EXISTS", "left_brace", "graph_pattern", "right_brace"], ["EXISTS", "left_paren", "graph_pattern", "right_paren"], ["EXISTS", "left_brace", "match_statement_block", "right_brace"], ["EXISTS", "left_paren", "match_statement_block", "right_paren"], ["EXISTS", "nested_query_specification"]}
    ensures BodyUnits([Alternative([Sym(Symbol.Terminal("EXISTS")), Group([Alternative([Sym(Symbol.Nonterminal("left brace")), Sym(Symbol.Nonterminal("graph pattern")), Sym(Symbol.Nonterminal("right brace"))]), Alternative([Sym(Symbol.Nonterminal("left paren")), Sym(Symbol.Nonterminal("graph pattern")), Sym(Symbol.Nonterminal("right paren"))]), Alternative([Sym(Symbol.Nonterminal("left brace")), Sym(Symbol.Nonterminal("match statement block")), Sym(Symbol.Nonterminal("right brace"))]), Alternative([Sym(Symbol.Nonterminal("left paren")), Sym(Symbol.Nonterminal("match statement block")), Sym(Symbol.Nonterminal("right paren"))]), Alternative([Sym(Symbol.Nonterminal("nested query specification"))])])])]) == {}
  {
    Step248();
    assert [Alternative([Sym(Symbol.Terminal("EXISTS")), Group([Alternative([Sym(Symbol.Nonterminal("left brace")), Sym(Symbol.Nonterminal("graph pattern")), Sym(Symbol.Nonterminal("right brace"))]), Alternative([Sym(Symbol.Nonterminal("left paren")), Sym(Symbol.Nonterminal("graph pattern")), Sym(Symbol.Nonterminal("right paren"))]), Alternative([Sym(Symbol.Nonterminal("left brace")), Sym(Symbol.Nonterminal("match statement block")), Sym(Symbol.Nonterminal("right brace"))]), Alternative([Sym(Symbol.Nonterminal("left paren")), Sym(Symbol.Nonterminal("match statement block")), Sym(Symbol.Nonterminal("right paren"))]), Alternative([Sym(Symbol.Nonterminal("nested query specification"))])])])][..0] == [];
  }

  /** Display name of `<exists predicate>`; used by test_17. */
  lemma Step250()
    ensures Normalize("exists predicate") == "exists_predicate"
  {
  }

  /** Expansion and repeated units of the element `<start transaction command>`; used by test_18. */
  lemma Step251()
    ensures Expand(Sym(Symbol.Nonterminal("start transaction command"))) == {["start_transaction_command"]}
    ensures ElementUnits(Sym(Symbol.Nonterminal("start transaction command"))) == {}
  {
    assert Normalize("start transaction command") == "start_transaction_command";
  }

  /** Expansion and repeated units of the elements `<start transaction command>`; used by test_18. */
  lemma Step252()
    ensures ExpandSequence([Sym(Symbol.Nonterminal("start transaction command"))]) == {["start_transaction_command"]}
    ensures SequenceUnits([Sym(Symbol.Nonterminal("start transaction command"))]) == {}
  {
    Step251();
    assert [Sym(Symbol.Nonterminal("start transaction command"))][..0] == [];
    SequenceUnitLeft([Sym(Symbol.Nonterminal("start transaction command"))], {["start_transaction_command"]}, {}, {});
  }

  /** Expansion and repeated units of the element `<procedure specification>`; used by test_18. */
  lemma Step253()
    ensures Expand(Sym(Symbol.Nonterminal("procedure specification"))) == {["procedure_specification"]}
    ensures ElementUnits(Sym(Symbol.Nonterminal("procedure specification"))) == {}
  {
    assert Normalize("procedure specification") == "procedure_specification";
  }

  /** Expansion and repeated units of the elements `<procedure specification>`; used by test_18. */
  lemma Step254()
    ensures ExpandSequence([Sym(Symbol.Nonterminal("procedure specification"))]) == {["procedure_specification"]}
    ensures SequenceUnits([Sym(Symbol.Nonterminal("procedure specification"))]) == {}
  {
    Step253();
    assert [Sym(Symbol.Nonterminal("procedure specification"))][..0] == [];
    SequenceUnitLeft([Sym(Symbol.Nonterminal("procedure specification"))], {["procedure_specification"]}, {}, {});
  }

  /** Expansion and repeated units of the element `<end transaction command>`; used by test_18. */
  lemma Step255()
    ensures Expand(Sym(Symbol.Nonterminal("end transaction command"))) == {["end_transaction_command"]}
    ensures ElementUnits(Sym(Symbol.Nonterminal("end transaction command"))) == {}
  {
    assert Normalize("end transaction command") == "end_transaction_command";
  }

  /** Expansion and repeated units of the elements `<end transaction command>`; used by test_18. */
  lemma Step256()
    ensures ExpandSequence([Sym(Symbol.Nonterminal("end transaction command"))]) == {["end_transaction_command"]}
    ensures SequenceUnits([Sym(Symbol.Nonterminal("end transaction command"))]) == {}
  {
    Step255();
    assert [Sym(Symbol.Nonterminal("end transaction command"))][..0] == [];
    SequenceUnitLeft([Sym(Symbol.Nonterminal("end transaction command"))], {["end_transaction_command"]}, {}, {});
  }

  /** Expansion and repeated units of the alternatives `<end transaction command>`; used by test_18. */
  lemma Step257()
    ensures ExpandBody([Alternative([Sym(Symbol.Nonterminal("end transaction command"))])]) == {["end_transaction_command"]}
    ensures BodyUnits([Alternative([Sym(Symbol.Nonterminal("end transaction command"))])]) == {}
  {
    Step256();
    assert [Alternative([Sym(Symbol.Nonterminal("end transaction command"))])][..0] == [];
  }

  /** Expansion and repeated units of the element `[ <end transaction command> ]`; used by test_18. */
  lemma Step258()
    ensures Expand(Opt([Alternative([Sym(Symbol.Nonterminal("end transaction command"))])])) == {["end_transaction_command"], []}
    ensures ElementUnits(Opt([Alternative([Sym(Symbol.Nonterminal("end transaction command"))])])) == {}
  {
    Step257();
  }

  /** One cross-product production: `procedure_specification` then `end_transaction_command`; used by test_18. */
  lemma Step259()
    ensures ["procedure_specification"] + ["end_transaction_command"] == ["procedure_specification", "end_transaction_command"]
  {
  }

  /** One cross-product production: `procedure_specification` then `the empty production`; used by test_18. */
  lemma Step260()
    ensures ["procedure_specification"] + [] == ["procedure_specification"]
  {
  }

  /** Expansion and repeated units of the elements `<procedure specification> [ <end transaction command> ]`; used by test_18. */
  lemma Step261()
    ensures ExpandSequence([Sym(Symbol.Nonterminal("procedure specification")), Opt([Alternative([Sym(Symbol.Nonterminal("end transaction command"))])])]) == {["procedure_specification", "end_transaction_command"], ["procedure_specification"]}
    ensures SequenceUnits([Sym(Symbol.Nonterminal("procedure specification")), Opt([Alternative([Sym(Symbol.Nonterminal("end transaction command"))])])]) == {}
  {
    Step254();
    Step258();
    Step259();
    Step260();
    assert [Sym(Symbol.Nonterminal("procedure specification")), Opt([Alternative([Sym(Symbol.Nonterminal("end transaction command"))])])][..1] == [Sym(Symbol.Nonterminal("procedure specification"))];
    Sequence1x2([Sym(Symbol.Nonterminal("procedure specification")), Opt([Alternative([Sym(Symbol.Nonterminal("end transaction command"))])])], ["procedure_specification"], ["end_transaction_command"], [], {}, {});
  }

  /** Expansion and repeated units of the alternatives `<procedure specification> [ <end transaction command> ]`; used by test_18. */
  lemma Step262()
    ensures ExpandBody([Alternative([Sym(Symbol.Nonterminal("procedure specification")), Opt([Alternative([Sym(Symbol.Nonterminal("end transaction command"))])])])]) == {["procedure_specification", "end_transaction_command"], ["procedure_specification"]}
    ensures BodyUnits([Alternative([Sym(Symbol.Nonterminal("procedure specification")), Opt([Alternative([Sym(Symbol.Nonterminal("end transaction command"))])])])]) == {}
  {
    Step261();
    assert [Alternative([Sym(Symbol.Nonterminal("procedure specification")), Opt([Alternative([Sym(Symbol.Nonterminal("end transaction command"))])])])][..0] == [];
  }

  /** Expansion and repeated units of the element `[ <procedure specification> [ <end transaction command> ] ]`; used by test_18. */
  lemma Step263()
    ensures Expand(Opt([Alternative([Sym(Symbol.Nonterminal("procedure specification")), Opt([Alternative([Sym(Symbol.Nonterminal("end transaction command"))])])])])) == {["procedure_specification", "end_transaction_command"], ["procedure_specification"], []}
    ensures ElementUnits(Opt([Alternative([Sym(Symbol.Nonterminal("procedure specification")), Opt([Alternative([Sym(Symbol.Nonterminal("end transaction command"))])])])])) == {}
  {
    Step262();
  }

  /** One cross-product production: `start_transaction_command` then `procedure_specification end_transaction_command`; used by test_18. */
  lemma Step264()
    ensures ["start_transaction_command"] + ["procedure_specification", "end_transaction_command"] == ["start_transaction_command", "procedure_specification", "end_transaction_command"]
  {
  }

  /** One cross-product production: `start_transaction_command` then `procedure_specification`; used by test_18. */
  lemma Step265()
    ensures ["start_transaction_command"] + ["procedure_specification"] == ["start_transaction_command", "procedure_specification"]
  {
  }

  /** One cross-product production: `start_transaction_command` then `the empty production`; used by test_18. */
  lemma Step266()
    ensures ["start_transaction_command"] + [] == ["start_transaction_command"]
  {
  }

  /** Expansion and repeated units of the elements `<start transaction command> [ <procedure specification> [ <end transaction command> ] ]`; used by test_18. */
  lemma Step267()
    ensures ExpandSequence([Sym(Symbol.Nonterminal("start transaction command")), Opt([Alternative([Sym(Symbol.Nonterminal("procedure specification")), Opt([Alternative([Sym(Symbol.Nonterminal("end transaction command"))])])])])]) == {["start_transaction_command", "procedure_specification", "end_transaction_command"], ["start_transaction_command", "procedure_specification"], ["start_transaction_command"]}
    ensures SequenceUnits([Sym(Symbol.Nonterminal("start transaction command")), Opt([Alternative([Sym(Symbol.Nonterminal("procedure specification")), Opt([Alternative([Sym(Symbol.Nonterminal("end transaction command"))])])])])]) == {}
  {
    Step252();
    Step263();
    Step264();
    Step265();
    Step266();
    assert [Sym(Symbol.Nonterminal("start transaction command")), Opt([Alternative([Sym(Symbol.Nonterminal("procedure specification")), Opt([Alternative([Sym(Symbol.Nonterminal("end transaction command"))])])])])][..1] == [Sym(Symbol.Nonterminal("start transaction command"))];
    Sequence1x3([Sym(Symbol.Nonterminal("start transaction command")), Opt([Alternative([Sym(Symbol.Nonterminal("procedure specification")), Opt([Alternative([Sym(Symbol.Nonterminal("end transaction command"))])])])])], ["start_transaction_command"], ["procedure_specification", "end_transaction_command"], ["procedure_specification"], [], {}, {});
  }

  /** Expansion and repeated units of the alternatives `<start transaction command> [ <procedure specification> [ <end transaction command> ] ]`; used by test_18. */
  lemma Step268()
    ensures ExpandBody([Alternative([Sym(Symbol.Nonterminal("start transaction command")), Opt([Alternative([Sym(Symbol.Nonterminal("procedure specification")), Opt([Alternative([Sym(Symbol.Nonterminal("end transaction command"))])])])])])]) == {["start_transaction_command", "procedure_specification", "end_transaction_command"], ["start_transaction_command", "procedure_specification"], ["start_transaction_command"]}
    ensures BodyUnits([Alternative([Sym(Symbol.Nonterminal("start transaction command")), Opt([Alternative([Sym(Symbol.Nonterminal("procedure specification")), Opt([Alternative([Sym(Symbol.Nonterminal("end transaction command"))])])])])])]) == {}
  {
    Step267();
    assert [Alternative([Sym(Symbol.Nonterminal("start transaction command")), Opt([Alternative([Sym(Symbol.Nonterminal("procedure specification")), Opt([Alternative([Sym(Symbol.Nonterminal("end transaction command"))])])])])])][..0] == [];
  }

  /** Display name of `<transaction activity>`; used by test_18. */
  lemma Step269()
    ensures Normalize("transaction activity") == "transaction_activity"
  {
  }

  /** Expansion and repeated units of the element `SESSION`; used by test_19. */
  lemma Step270()
    ensures Expand(Sym(Symbol.Terminal("SESSION"))) == {["SESSION"]}
    ensures ElementUnits(Sym(Symbol.Terminal("SESSION"))) == {}
  {
  }

  /** Expansion and repeated units of the elements `SESSION`; used by test_19. */
  lemma Step271()
    ensures ExpandSequence([Sym(Symbol.Terminal("SESSION"))]) == {["SESSION"]}
    ensures SequenceUnits([Sym(Symbol.Terminal("SESSION"))]) == {}
  {
    Step270();
    assert [Sym(Symbol.Terminal("SESSION"))][..0] == [];
    SequenceUnitLeft([Sym(Symbol.Terminal("SESSION"))], {["SESSION"]}, {}, {});
  }

  /** Expansion and repeated units of the element `SET`; used by test_19. */
  lemma Step272()
    ensures Expand(Sym(Symbol.Terminal("SET"))) == {["SET"]}
    ensures ElementUnits(Sym(Symbol.Terminal("SET"))) == {}
  {
  }

  /** One cross-product production: `SESSION` then `SET`; used by test_19. */
  lemma Step273()
    ensures ["SESSION"] + ["SET"] == ["SESSION", "SET"]
  {
  }

  /** Expansion and repeated units of the elements `SESSION SET`; used by test_19. */
  lemma Step274()
    ensures ExpandSequence([Sym(Symbol.Terminal("SESSION")), Sym(Symbol.Terminal("SET"))]) == {["SESSION", "SET"]}
    ensures SequenceUnits([Sym(Symbol.Terminal("SESSION")), Sym(Symbol.Terminal("SET"))]) == {}
  {
    Step271();
    Step272();
    Step273();
    assert [Sym(Symbol.Terminal("SESSION")), Sym(Symbol.Terminal("SET"))][..1] == [Sym(Symbol.Terminal("SESSION"))];
    Sequence1x1([Sym(Symbol.Terminal("SESSION")), Sym(Symbol.Terminal("SET"))], ["SESSION"], ["SET"], {}, {});
  }

  /** Expansion and repeated units of the element `<session set schema clause>`; used by test_19. */
  lemma Step275()
    ensures Expand(Sym(Symbol.Nonterminal("session set schema clause"))) == {["session_set_schema_clause"]}
    ensures ElementUnits(Sym(Symbol.Nonterminal("session set schema clause"))) == {}
  {
    assert Normalize("session set schema clause") == "session_set_schema_clause";
  }

  /** Expansion and repeated units of the elements `<session set schema clause>`; used by test_19. */
  lemma Step276()
    ensures ExpandSequence([Sym(Symbol.Nonterminal("session set schema clause"))]) == {["session_set_schema_clause"]}
    ensures SequenceUnits([Sym(Symbol.Nonterminal("session set schema clause"))]) == {}
  {
    Step275();
    assert [Sym(Symbol.Nonterminal("session set schema clause"))][..0] == [];
    SequenceUnitLeft([Sym(Symbol.Nonterminal("session set schema clause"))], {["session_set_schema_clause"]}, {}, {});
  }

  /** Expansion and repeated units of the alternatives `<session set schema clause>`; used by test_19. */
  lemma Step277()
    ensures ExpandBody([Alternative([Sym(Symbol.Nonterminal("session set schema clause"))])]) == {["session_set_schema_clause"]}
    ensures BodyUnits([Alternative([Sym(Symbol.Nonterminal("session set schema clause"))])]) == {}
  {
    Step276();
    assert [Alternative([Sym(Symbol.Nonterminal("session set schema clause"))])][..0] == [];
  }

  /** Expansion and repeated units of the element `<session set graph clause>`; used by test_19. */
  lemma Step278()
    ensures Expand(Sym(Symbol.Nonterminal("session set graph clause"))) == {["session_set_graph_clause"]}
    ensures ElementUnits(Sym(Symbol.Nonterminal("session set graph clause"))) == {}
  {
    assert Normalize("session set graph clause") == "session_set_graph_clause";
  }

  /** Expansion and repeated units of the elements `<session set graph clause>`; used by test_19. */
  lemma Step279()
    ensures ExpandSequence([Sym(Symbol.Nonterminal("session set graph clause"))]) == {["session_set_graph_clause"]}
    ensures SequenceUnits([Sym(Symbol.Nonterminal("session set graph clause"))]) == {}
  {
    Step278();
    assert [Sym(Symbol.Nonterminal("session set graph clause"))][..0] == [];
    SequenceUnitLeft([Sym(Symbol.Nonterminal("session set graph clause"))], {["session_set_graph_clause"]}, {}, {});
  }

  /** Expansion and repeated units of the alternatives `<session set schema clause> | <session set graph clause>`; used by test_19. */
  lemma Step280()
    ensures ExpandBody([Alternative([Sym(Symbol.Nonterminal("session set schema clause"))]), Alternative([Sym(Symbol.Nonterminal("session set graph clause"))])]) == {["session_set_schema_clause"], ["session_set_graph_clause"]}
    ensures BodyUnits([Alternative([Sym(Symbol.Nonterminal("session set schema clause"))]), Alternative([Sym(Symbol.Nonterminal("session set graph clause"))])]) == {}
  {
    Step277();
    Step279();
    assert [Alternative([Sym(Symbol.Nonterminal("session set schema clause"))]), Alternative([Sym(Symbol.Nonterminal("session set graph clause"))])][..1] == [Alternative([Sym(Symbol.Nonterminal("session set schema clause"))])];
  }

  /** Expansion and repeated units of the element `<session set time zone clause>`; used by test_19. */
  lemma Step281()
    ensures Expand(Sym(Symbol.Nonterminal("session set time zone clause"))) == {["session_set_time_zone_clause"]}
    ensures ElementUnits(Sym(Symbol.Nonterminal("session set time zone clause"))) == {}
  {
    assert Normalize("session set time zone clause") == "session_set_time_zone_clause";
  }

  /** Expansion and repeated units of the elements `<session set time zone clause>`; used by test_19. */
  lemma Step282()
    ensures ExpandSequence([Sym(Symbol.Nonterminal("session set time zone clause"))]) == {["session_set_time_zone_clause"]}
    ensures SequenceUnits([Sym(Symbol.Nonterminal("session set time zone clause"))]) == {}
  {
    Step281();
    assert [Sym(Symbol.Nonterminal("session set time zone clause"))][..0] == [];
    SequenceUnitLeft([Sym(Symbol.Nonterminal("session set time zone clause"))], {["session_set_time_zone_clause"]}, {}, {});
  }

  /** Expansion and repeated units of the alternatives `<session set schema clause> | <session set graph clause> | <session set time zone clause>`; used by test_19. */
  lemma Step283()
    ensures ExpandBody([Alternative([Sym(Symbol.Nonterminal("session set schema clause"))]), Alternative([Sym(Symbol.Nonterminal("session set graph clause"))]), Alternative([Sym(Symbol.Nonterminal("session set time zone clause"))])]) == {["session_set_schema_clause"], ["session_set_graph_clause"], ["session_set_time_zone_clause"]}
    ensures BodyUnits([Alternative([Sym(Symbol.Nonterminal("session set schema clause"))]), Alternative([Sym(Symbol.Nonterminal("session set graph clause"))]), Alternative([Sym(Symbol.Nonterminal("session set time zone clause"))])]) == {}
  {
    Step280();
    Step282();
    assert [Alternative([Sym(Symbol.Nonterminal("session set schema clause"))]), Alternative([Sym(Symbol.Nonterminal("session set graph clause"))]), Alternative([Sym(Symbol.Nonterminal("session set time zone clause"))])][..2] == [Alternative([Sym(Symbol.Nonterminal("session set schema clause"))]), Alternative([Sym(Symbol.Nonterminal("session set graph clause"))])];
  }

  /** Expansion and repeated units of the element `<session set parameter clause>`; used by test_19. */
  lemma Step284()
    ensures Expand(Sym(Symbol.Nonterminal("session set parameter clause"))) == {["session_set_parameter_clause"]}
    ensures ElementUnits(Sym(Symbol.Nonterminal("session set parameter clause"))) == {}
  {
    assert Normalize("session set parameter clause") == "session_set_parameter_clause";
  }

  /** Expansion and repeated units of the elements `<session set parameter clause>`; used by test_19. */
  lemma Step285()
    ensures ExpandSequence([Sym(Symbol.Nonterminal("session set parameter clause"))]) == {["session_set_parameter_clause"]}
    ensures SequenceUnits([Sym(Symbol.Nonterminal("session set parameter clause"))]) == {}
  {
    Step284();
    assert [Sym(Symbol.Nonterminal("session set parameter clause"))][..0] == [];
    SequenceUnitLeft([Sym(Symbol.Nonterminal("session set parameter clause"))], {["session_set_parameter_clause"]}, {}, {});
  }

  /** Expansion and repeated units of the alternatives `<session set schema clause> | <session set graph clause> | <session set time zone clause> | <session set parameter clause>`; used by test_19. */
  lemma Step286()
    ensures ExpandBody([Alternative([Sym(Symbol.Nonterminal("session set schema clause"))]), Alternative([Sym(Symbol.Nonterminal("session set graph clause"))]), Alternative([Sym(Symbol.Nonterminal("session set time zone clause"))]), Alternative([Sym(Symbol.Nonterminal("session set parameter clause"))])]) == {["session_set_schema_clause"], ["session_set_graph_clause"], ["session_set_time_zone_clause"], ["session_set_parameter_clause"]}
    ensures BodyUnits([Alternative([Sym(Symbol.Nonterminal("session set schema clause"))]), Alternative([Sym(Symbol.Nonterminal("session set graph clause"))]), Alternative([Sym(Symbol.Nonterminal("session set time zone clause"))]), Alternative([Sym(Symbol.Nonterminal("session set parameter clause"))])]) == {}
  {
    Step283();
    Step285();
    assert [Alternative([Sym(Symbol.Nonterminal("session set schema clause"))]), Alternative([Sym(Symbol.Nonterminal("session set graph clause"))]), Alternative([Sym(Symbol.Nonterminal("session set time zone clause"))]), Alternative([Sym(Symbol.Nonterminal("session set parameter clause"))])][..3] == [Alternative([Sym(Symbol.Nonterminal("session set schema clause"))]), Alternative([Sym(Symbol.Nonterminal("session set graph clause"))]), Alternative([Sym(Symbol.Nonterminal("session set time zone clause"))])];
  }

  /** Expansion and repeated units of the element `{ <session set schema clause> | <session set graph clause> | <session set time zone clause> | <session set parameter clause> }`; used by test_19. */
  lemma Step287()
    ensures Expand(Group([Alternative([Sym(Symbol.Nonterminal("session set schema clause"))]), Alternative([Sym(Symbol.Nonterminal("session set graph clause"))]), Alternative([Sym(Symbol.Nonterminal("session set time zone clause"))]), Alternative([Sym(Symbol.Nonterminal("session set parameter clause"))])])) == {["session_set_schema_clause"], ["session_set_graph_clause"], ["session_set_time_zone_clause"], ["session_set_parameter_clause"]}
    ensures ElementUnits(Group([Alternative([Sym(Symbol.Nonterminal("session set schema clause"))]), Alternative([Sym(Symbol.Nonterminal("session set graph clause"))]), Alternative([Sym(Symbol.Nonterminal("session set time zone clause"))]), Alternative([Sym(Symbol.Nonterminal("session set parameter clause"))])])) == {}
  {
    Step286();
  }

  /** One cross-product production: `SESSION SET` then `session_set_schema_clause`; used by test_19. */
  lemma Step288()
    ensures ["SESSION", "SET"] + ["session_set_schema_clause"] == ["SESSION", "SET", "session_set_schema_clause"]
  {
  }

  /** One cross-product production: `SESSION SET` then `session_set_graph_clause`; used by test_19. */
  lemma Step289()
    ensures ["SESSION", "SET"] + ["session_set_graph_clause"] == ["SESSION", "SET", "session_set_graph_clause"]
  {
  }

  /** One cross-product production: `SESSION SET` then `session_set_time_zone_clause`; used by test_19. */
  lemma Step290()
    ensures ["SESSION", "SET"] + ["session_set_time_zone_clause"] == ["SESSION", "SET", "session_set_time_zone_clause"]
  {
  }

  /** One cross-product production: `SESSION SET` then `session_set_parameter_clause`; used by test_19. */
  lemma Step291()
    ensures ["SESSION", "SET"] + ["session_set_parameter_clause"] == ["SESSION", "SET", "session_set_parameter_clause"]
  {
  }

  /** Expansion and repeated units of the elements `SESSION SET { <session set schema clause> | <session set graph clause> | <session set time zone clause> | <session set parameter clause> }`; used by test_19. */
  lemma Step292()
    ensures ExpandSequence([Sym(Symbol.Terminal("SESSION")), Sym(Symbol.Terminal("SET")), Group([Alternative([Sym(Symbol.Nonterminal("session set schema clause"))]), Alternative([Sym(Symbol.Nonterminal("session set graph clause"))]), Alternative([Sym(Symbol.Nonterminal("session set time zone clause"))]), Alternative([Sym(Symbol.Nonterminal("session set parameter clause"))])])]) == {["SESSION", "SET", "session_set_schema_clause"], ["SESSION", "SET", "session_set_graph_clause"], ["SESSION", "SET", "session_set_time_zone_clause"], ["SESSION", "SET", "session_set_parameter_clause"]}
    ensures SequenceUnits([Sym(Symbol.Terminal("SESSION")), Sym(Symbol.Terminal("SET")), Group([Alternative([Sym(Symbol.Nonterminal("session set schema clause"))]), Alternative([Sym(Symbol.Nonterminal("session set graph clause"))]), Alternative([Sym(Symbol.Nonterminal("session set time zone clause"))]), Alternative([Sym(Symbol.Nonterminal("session set parameter clause"))])])]) == {}
  {
    Step274();
    Step287();
    Step288();
    Step289();
    Step290();
    Step291();
    assert [Sym(Symbol.Terminal("SESSION")), Sym(Symbol.Terminal("SET")), Group([Alternative([Sym(Symbol.Nonterminal("session set schema clause"))]), Alternative([Sym(Symbol.Nonterminal("session set graph clause"))]), Alternative([Sym(Symbol.Nonterminal("session set time zone clause"))]), Alternative([Sym(Symbol.Nonterminal("session set parameter clause"))])])][..2] == [Sym(Symbol.Terminal("SESSION")), Sym(Symbol.Terminal("SET"))];
    Sequence1x4([Sym(Symbol.Terminal("SESSION")), Sym(Symbol.Terminal("SET")), Group([Alternative([Sym(Symbol.Nonterminal("session set schema clause"))]), Alternative([Sym(Symbol.Nonterminal("session set graph clause"))]), Alternative([Sym(Symbol.Nonterminal("session set time zone clause"))]), Alternative([Sym(Symbol.Nonterminal("session set parameter clause"))])])], ["SESSION", "SET"], ["session_set_schema_clause"], ["session_set_graph_clause"], ["session_set_time_zone_clause"], ["session_set_parameter_clause"], {}, {});
  }

  /** Expansion and repeated units of the alternatives `SESSION SET { <session set schema clause> | <session set graph clause> | <session set time zone clause> | <session set parameter clause> }`; used by test_19. */
  lemma Step293()
    ensures ExpandBody([Alternative([Sym(Symbol.Terminal("SESSION")), Sym(Symbol.Terminal("SET")), Group([Alternative([Sym(Symbol.Nonterminal("session set schema clause"))]), Alternative([Sym(Symbol.Nonterminal("session set graph clause"))]), Alternative([Sym(Symbol.Nonterminal("session set time zone clause"))]), Alternative([Sym(Symbol.Nonterminal("session set parameter clause"))])])])]) == {["SESSION", "SET", "session_set_schema_clause"], ["SESSION", "SET", "session_set_graph_clause"], ["SESSION", "SET", "session_set_time_zone_clause"], ["SESSION", "SET", "session_set_parameter_clause"]}
    ensures BodyUnits([Alternative([Sym(Symbol.Terminal("SESSION")), Sym(Symbol.Terminal("SET")), Group([Alternative([Sym(Symbol.Nonterminal("session set schema clause"))]), Alternative([Sym(Symbol.Nonterminal("session set graph clause"))]), Alternative([Sym(Symbol.Nonterminal("session set time zone clause"))]), Alternative([Sym(Symbol.Nonterminal("session set parameter clause"))])])])]) == {}
  {
    Step292();
    assert [Alternative([Sym(Symbol.Terminal("SESSION")), Sym(Symbol.Terminal("SET")), Group([Alternative([Sym(Symbol.Nonterminal("session set schema clause"))]), Alternative([Sym(Symbol.Nonterminal("session set graph clause"))]), Alternative([Sym(Symbol.Nonterminal("session set time zone clause"))]), Alternative([Sym(Symbol.Nonterminal("session set parameter clause"))])])])][..0] == [];
  }

  /** Display name of `<session set command>`; used by test_19. */
  lemma Step294()
    ensures Normalize("session set command") == "session_set_command"
  {
  }

  /** Expansion and repeated units of the element `<character representation>`; used by test_20. */
  lemma Step295()
    ensures Expand(Sym(Symbol.Nonterminal("character representation"))) == {["character_representation"]}
    ensures ElementUnits(Sym(Symbol.Nonterminal("character representation"))) == {}
  {
    assert Normalize("character representation") == "character_representation";
  }

  /** Expansion and repeated units of the elements `<character representation>`; used by test_20. */
  lemma Step296()
    ensures ExpandSequence([Sym(Symbol.Nonterminal("character representation"))]) == {["character_representation"]}
    ensures SequenceUnits([Sym(Symbol.Nonterminal("character representation"))]) == {}
  {
    Step295();
    assert [Sym(Symbol.Nonterminal("character representation"))][..0] == [];
    SequenceUnitLeft([Sym(Symbol.Nonterminal("character representation"))], {["character_representation"]}, {}, {});
  }

  /** Expansion and repeated units of the alternatives `<character representation>`; used by test_20. */
  lemma Step297()
    ensures ExpandBody([Alternative([Sym(Symbol.Nonterminal("character representation"))])]) == {["character_representation"]}
    ensures BodyUnits([Alternative([Sym(Symbol.Nonterminal("character representation"))])]) == {}
  {
    Step296();
    assert [Alternative([Sym(Symbol.Nonterminal("character representation"))])][..0] == [];
  }

  /** Expansion and repeated units of the element `<double single quote>`; used by test_20. */
  lemma Step298()
    ensures Expand(Sym(Symbol.Nonterminal("double single quote"))) == {["double_single_quote"]}
    ensures ElementUnits(Sym(Symbol.Nonterminal("double single quote"))) == {}
  {
    assert Normalize("double single quote") == "double_single_quote";
  }

  /** Expansion and repeated units of the elements `<double single quote>`; used by test_20. */
  lemma Step299()
    ensures ExpandSequence([Sym(Symbol.Nonterminal("double single quote"))]) == {["double_single_quote"]}
    ensures SequenceUnits([Sym(Symbol.Nonterminal("double single quote"))]) == {}
  {
    Step298();
    assert [Sym(Symbol.Nonterminal("double single quote"))][..0] == [];
    SequenceUnitLeft([Sym(Symbol.Nonterminal("double single quote"))], {["double_single_quote"]}, {}, {});
  }

  /** Expansion and repeated units of the alternatives `<character representation> | <double single quote>`; used by test_20. */
  lemma Step300()
    ensures ExpandBody([Alternative([Sym(Symbol.Nonterminal("character representation"))]), Alternative([Sym(Symbol.Nonterminal("double single quote"))])]) == {["character_representation"], ["double_single_quote"]}
    ensures BodyUnits([Alternative([Sym(Symbol.Nonterminal("character representation"))]), Alternative([Sym(Symbol.Nonterminal("double single quote"))])]) == {}
  {
    Step297();
    Step299();
    assert [Alternative([Sym(Symbol.Nonterminal("character representation"))]), Alternative([Sym(Symbol.Nonterminal("double single quote"))])][..1] == [Alternative([Sym(Symbol.Nonterminal("character representation"))])];
  }

  /** Display name of `<single quoted character representation>`; used by test_20. */
  lemma Step301()
    ensures Normalize("single quoted character representation") == "single_quoted_character_representation"
  {
  }

  /** Expansion and repeated units of the element `<quote>`; used by test_21. */
  lemma Step302()
    ensures Expand(Sym(Symbol.Nonterminal("quote"))) == {["quote"]}
    ensures ElementUnits(Sym(Symbol.Nonterminal("quote"))) == {}
  {
    assert Normalize("quote") == "quote";
  }

  /** Expansion and repeated units of the elements `<quote>`; used by test_21. */
  lemma Step303()
    ensures ExpandSequence([Sym(Symbol.Nonterminal("quote"))]) == {["quote"]}
    ensures SequenceUnits([Sym(Symbol.Nonterminal("quote"))]) == {}
  {
    Step302();
    assert [Sym(Symbol.Nonterminal("quote"))][..0] == [];
    SequenceUnitLeft([Sym(Symbol.Nonterminal("quote"))], {["quote"]}, {}, {});
  }

  /** One cross-product production: `quote` then `quote`; used by test_21. */
  lemma Step304()
    ensures ["quote"] + ["quote"] == ["quote", "quote"]
  {
  }

  /** Expansion and repeated units of the elements `<quote> <quote>`; used by test_21. */
  lemma Step305()
    ensures ExpandSequence([Sym(Symbol.Nonterminal("quote")), Sym(Symbol.Nonterminal("quote"))]) == {["quote", "quote"]}
    ensures SequenceUnits([Sym(Symbol.Nonterminal("quote")), Sym(Symbol.Nonterminal("quote"))]) == {}
  {
    Step303();
    Step302();
    Step304();
    assert [Sym(Symbol.Nonterminal("quote")), Sym(Symbol.Nonterminal("quote"))][..1] == [Sym(Symbol.Nonterminal("quote"))];
    Sequence1x1([Sym(Symbol.Nonterminal("quote")), Sym(Symbol.Nonterminal("quote"))], ["quote"], ["quote"], {}, {});
  }

  /** Expansion and repeated units of the alternatives `<quote> <quote>`; used by test_21. */
  lemma Step306()
    ensures ExpandBody([Alternative([Sym(Symbol.Nonterminal("quote")), Sym(Symbol.Nonterminal("quote"))])]) == {["quote", "quote"]}
    ensures BodyUnits([Alternative([Sym(Symbol.Nonterminal("quote")), Sym(Symbol.Nonterminal("quote"))])]) == {}
  {
    Step305();
    assert [Alternative([Sym(Symbol.Nonterminal("quote")), Sym(Symbol.Nonterminal("quote"))])][..0] == [];
  }

  /** Display name of `<double single quote>`; used by test_21. */
  lemma Step307()
    ensures Normalize("double single quote") == "double_single_quote"
  {
  }

  /** Expansion and repeated units of the element `<session activity>`; used by test_22, test_23. */
  lemma Step308()
    ensures Expand(Sym(Symbol.Nonterminal("session activity"))) == {["session_activity"]}
    ensures ElementUnits(Sym(Symbol.Nonterminal("session activity"))) == {}
  {
    assert Normalize("session activity") == "session_activity";
  }

  /** Expansion and repeated units of the elements `<session activity>`; used by test_22, test_23. */
  lemma Step309()
    ensures ExpandSequence([Sym(Symbol.Nonterminal("session activity"))]) == {["session_activity"]}
    ensures SequenceUnits([Sym(Symbol.Nonterminal("session activity"))]) == {}
  {
    Step308();
    assert [Sym(Symbol.Nonterminal("session activity"))][..0] == [];
    SequenceUnitLeft([Sym(Symbol.Nonterminal("session activity"))], {["session_activity"]}, {}, {});
  }

  /** Expansion and repeated units of the alternatives `<session activity>`; used by test_22, test_23. */
  lemma Step310()
    ensures ExpandBody([Alternative([Sym(Symbol.Nonterminal("session activity"))])]) == {["session_activity"]}
    ensures BodyUnits([Alternative([Sym(Symbol.Nonterminal("session activity"))])]) == {}
  {
    Step309();
    assert [Alternative([Sym(Symbol.Nonterminal("session activity"))])][..0] == [];
  }

  /** Expansion and repeated units of the element `<transaction activity>`; used by test_22, test_23. */
  lemma Step311()
    ensures Expand(Sym(Symbol.Nonterminal("transaction activity"))) == {["transaction_activity"]}
    ensures ElementUnits(Sym(Symbol.Nonterminal("transaction activity"))) == {}
  {
    assert Normalize("transaction activity") == "transaction_activity";
  }

  /** Expansion and repeated units of the elements `<transaction activity>`; used by test_22, test_23. */
  lemma Step312()
    ensures ExpandSequence([Sym(Symbol.Nonterminal("transaction activity"))]) == {["transaction_activity"]}
    ensures SequenceUnits([Sym(Symbol.Nonterminal("transaction activity"))]) == {}
  {
    Step311();
    assert [Sym(Symbol.Nonterminal("transaction activity"))][..0] == [];
    SequenceUnitLeft([Sym(Symbol.Nonterminal("transaction activity"))], {["transaction_activity"]}, {}, {});
  }

  /** Expansion and repeated units of the alternatives `<session activity> | <transaction activity>`; used by test_22, test_23. */
  lemma Step313()
    ensures ExpandBody([Alternative([Sym(Symbol.Nonterminal("session activity"))]), Alternative([Sym(Symbol.Nonterminal("transaction activity"))])]) == {["session_activity"], ["transaction_activity"]}
    ensures BodyUnits([Alternative([Sym(Symbol.Nonterminal("session activity"))]), Alternative([Sym(Symbol.Nonterminal("transaction activity"))])]) == {}
  {
    Step310();
    Step312();
    assert [Alternative([Sym(Symbol.Nonterminal("session activity"))]), Alternative([Sym(Symbol.Nonterminal("transaction activity"))])][..1] == [Alternative([Sym(Symbol.Nonterminal("session activity"))])];
  }

  /** Display name of `<program activity>`; used by test_22, test_23. */
  lemma Step314()
    ensures Normalize("program activity") == "program_activity"
  {
  }

  /** Display name of `<implementation-defined access mode>`; used by test_24, test_25. */
  lemma Step315()
    ensures Normalize("implementation-defined access mode") == "implementation_defined_access_mode"
  {
  }

  /** Expansion and repeated units of the element `ROLLBACK`; used by test_25. */
  lemma Step316()
    ensures Expand(Sym(Symbol.Terminal("ROLLBACK"))) == {["ROLLBACK"]}
    ensures ElementUnits(Sym(Symbol.Terminal("ROLLBACK"))) == {}
  {
  }

  /** Expansion and repeated units of the elements `ROLLBACK`; used by test_25. */
  lemma Step317()
    ensures ExpandSequence([Sym(Symbol.Terminal("ROLLBACK"))]) == {["ROLLBACK"]}
    ensures SequenceUnits([Sym(Symbol.Terminal("ROLLBACK"))]) == {}
  {
    Step316();
    assert [Sym(Symbol.Terminal("ROLLBACK"))][..0] == [];
    SequenceUnitLeft([Sym(Symbol.Terminal("ROLLBACK"))], {["ROLLBACK"]}, {}, {});
  }

  /** Expansion and repeated units of the alternatives `ROLLBACK`; used by test_25. */
  lemma Step318()
    ensures ExpandBody([Alternative([Sym(Symbol.Terminal("ROLLBACK"))])]) == {["ROLLBACK"]}
    ensures BodyUnits([Alternative([Sym(Symbol.Terminal("ROLLBACK"))])]) == {}
  {
    Step317();
    assert [Alternative([Sym(Symbol.Terminal("ROLLBACK"))])][..0] == [];
  }

  /** Display name of `<rollback command>`; used by test_25. */
  lemma Step319()
    ensures Normalize("rollback command") == "rollback_command"
  {
  }

  /** Expansion and repeated units of the element `ABSTRACT`; used by test_26. */
  lemma Step320()
    ensures Expand(Sym(Symbol.Terminal("ABSTRACT"))) == {["ABSTRACT"]}
    ensures ElementUnits(Sym(Symbol.Terminal("ABSTRACT"))) == {}
  {
  }

  /** Expansion and repeated units of the elements `ABSTRACT`; used by test_26. */
  lemma Step321()
    ensures ExpandSequence([Sym(Symbol.Terminal("ABSTRACT"))]) == {["ABSTRACT"]}
    ensures SequenceUnits([Sym(Symbol.Terminal("ABSTRACT"))]) == {}
  {
    Step320();
    assert [Sym(Symbol.Terminal("ABSTRACT"))][..0] == [];
    SequenceUnitLeft([Sym(Symbol.Terminal("ABSTRACT"))], {["ABSTRACT"]}, {}, {});
  }

  /** Expansion and repeated units of the alternatives `ABSTRACT`; used by test_26. */
  lemma Step322()
    ensures ExpandBody([Alternative([Sym(Symbol.Terminal("ABSTRACT"))])]) == {["ABSTRACT"]}
    ensures BodyUnits([Alternative([Sym(Symbol.Terminal("ABSTRACT"))])]) == {}
  {
    Step321();
    assert [Alternative([Sym(Symbol.Terminal("ABSTRACT"))])][..0] == [];
  }

  /** Expansion and repeated units of the element `AGGREGATE`; used by test_26. */
  lemma Step323()
    ensures Expand(Sym(Symbol.Terminal("AGGREGATE"))) == {["AGGREGATE"]}
    ensures ElementUnits(Sym(Symbol.Terminal("AGGREGATE"))) == {}
  {
  }

  /** Expansion and repeated units of the elements `AGGREGATE`; used by test_26. */
  lemma Step324()
    ensures ExpandSequence([Sym(Symbol.Terminal("AGGREGATE"))]) == {["AGGREGATE"]}
    ensures SequenceUnits([Sym(Symbol.Terminal("AGGREGATE"))]) == {}
  {
    Step323();
    assert [Sym(Symbol.Terminal("AGGREGATE"))][..0] == [];
    SequenceUnitLeft([Sym(Symbol.Terminal("AGGREGATE"))], {["AGGREGATE"]}, {}, {});
  }

  /** Expansion and repeated units of the alternatives `ABSTRACT | AGGREGATE`; used by test_26. */
  lemma Step325()
    ensures ExpandBody([Alternative([Sym(Symbol.Terminal("ABSTRACT"))]), Alternative([Sym(Symbol.Terminal("AGGREGATE"))])]) == {["ABSTRACT"], ["AGGREGATE"]}
    ensures BodyUnits([Alternative([Sym(Symbol.Terminal("ABSTRACT"))]), Alternative([Sym(Symbol.Terminal("AGGREGATE"))])]) == {}
  {
    Step322();
    Step324();
    assert [Alternative([Sym(Symbol.Terminal("ABSTRACT"))]), Alternative([Sym(Symbol.Terminal("AGGREGATE"))])][..1] == [Alternative([Sym(Symbol.Terminal("ABSTRACT"))])];
  }

  /** Expansion and repeated units of the element `AGGREGATES`; used by test_26. */
  lemma Step326()
    ensures Expand(Sym(Symbol.Terminal("AGGREGATES"))) == {["AGGREGATES"]}
    ensures ElementUnits(Sym(Symbol.Terminal("AGGREGATES"))) == {}
  {
  }

  /** Expansion and repeated units of the elements `AGGREGATES`; used by test_26. */
  lemma Step327()
    ensures ExpandSequence([Sym(Symbol.Terminal("AGGREGATES"))]) == {["AGGREGATES"]}
    ensures SequenceUnits([Sym(Symbol.Terminal("AGGREGATES"))]) == {}
  {
    Step326();
    assert [Sym(Symbol.Terminal("AGGREGATES"))][..0] == [];
    SequenceUnitLeft([Sym(Symbol.Terminal("AGGREGATES"))], {["AGGREGATES"]}, {}, {});
  }

  /** Expansion and repeated units of the alternatives `ABSTRACT | AGGREGATE | AGGREGATES`; used by test_26. */
  lemma Step328()
    ensures ExpandBody([Alternative([Sym(Symbol.Terminal("ABSTRACT"))]), Alternative([Sym(Symbol.Terminal("AGGREGATE"))]), Alternative([Sym(Symbol.Terminal("AGGREGATES"))])]) == {["ABSTRACT"], ["AGGREGATE"], ["AGGREGATES"]}
    ensures BodyUnits([Alternative([Sym(Symbol.Terminal("ABSTRACT"))]), Alternative([Sym(Symbol.Terminal("AGGREGATE"))]), Alternative([Sym(Symbol.Terminal("AGGREGATES"))])]) == {}
  {
    Step325();
    Step327();
    assert [Alternative([Sym(Symbol.Terminal("ABSTRACT"))]), Alternative([Sym(Symbol.Terminal("AGGREGATE"))]), Alternative([Sym(Symbol.Terminal("AGGREGATES"))])][..2] == [Alternative([Sym(Symbol.Terminal("ABSTRACT"))]), Alternative([Sym(Symbol.Terminal("AGGREGATE"))])];
  }

  /** Display name of `<pre-reserved word>`; used by test_26. */
  lemma Step329()
    ensures Normalize("pre-reserved word") == "pre_reserved_word"
  {
  }

  /** Expansion and repeated units of the element `" "`; used by test_28. */
  lemma Step330()
    ensures Expand(Sym(Symbol.Terminal("\" \""))) == {["\" \""]}
    ensures ElementUnits(Sym(Symbol.Terminal("\" \""))) == {}
  {
  }

  /** Expansion and repeated units of the elements `" "`; used by test_28. */
  lemma Step331()
    ensures ExpandSequence([Sym(Symbol.Terminal("\" \""))]) == {["\" \""]}
    ensures SequenceUnits([Sym(Symbol.Terminal("\" \""))]) == {}
  {
    Step330();
    assert [Sym(Symbol.Terminal("\" \""))][..0] == [];
    SequenceUnitLeft([Sym(Symbol.Terminal("\" \""))], {["\" \""]}, {}, {});
  }

  /** Expansion and repeated units of the alternatives `" "`; used by test_28. */
  lemma Step332()
    ensures ExpandBody([Alternative([Sym(Symbol.Terminal("\" \""))])]) == {["\" \""]}
    ensures BodyUnits([Alternative([Sym(Symbol.Terminal("\" \""))])]) == {}
  {
    Step331();
    assert [Alternative([Sym(Symbol.Terminal("\" \""))])][..0] == [];
  }

  /** Display name of `<space>`; used by test_28. */
  lemma Step333()
    ensures Normalize("space") == "space"
  {
  }

  /** Expansion and repeated units of the element `"}"`; used by test_29, test_30. */
  lemma Step334()
    ensures Expand(Sym(Symbol.Terminal("\"}\""))) == {["\"}\""]}
    ensures ElementUnits(Sym(Symbol.Terminal("\"}\""))) == {}
  {
  }

  /** Expansion and repeated units of the elements `"}"`; used by test_29, test_30. */
  lemma Step335()
    ensures ExpandSequence([Sym(Symbol.Terminal("\"}\""))]) == {["\"}\""]}
    ensures SequenceUnits([Sym(Symbol.Terminal("\"}\""))]) == {}
  {
    Step334();
    assert [Sym(Symbol.Terminal("\"}\""))][..0] == [];
    SequenceUnitLeft([Sym(Symbol.Terminal("\"}\""))], {["\"}\""]}, {}, {});
  }

  /** Expansion and repeated units of the alternatives `"}"`; used by test_29, test_30. */
  lemma Step336()
    ensures ExpandBody([Alternative([Sym(Symbol.Terminal("\"}\""))])]) == {["\"}\""]}
    ensures BodyUnits([Alternative([Sym(Symbol.Terminal("\"}\""))])]) == {}
  {
    Step335();
    assert [Alternative([Sym(Symbol.Terminal("\"}\""))])][..0] == [];
  }

  /** Display name of `<right brace>`; used by test_29, test_30. */
  lemma Step337()
    ensures Normalize("right brace") == "right_brace"
  {
  }

  /** Expansion and repeated units of the element `"\\"`; used by test_30. */
  lemma Step338()
    ensures Expand(Sym(Symbol.Terminal("\"\\\\\""))) == {["\"\\\\\""]}
    ensures ElementUnits(Sym(Symbol.Terminal("\"\\\\\""))) == {}
  {
  }

  /** Expansion and repeated units of the elements `"\\"`; used by test_30. */
  lemma Step339()
    ensures ExpandSequence([Sym(Symbol.Terminal("\"\\\\\""))]) == {["\"\\\\\""]}
    ensures SequenceUnits([Sym(Symbol.Terminal("\"\\\\\""))]) == {}
  {
    Step338();
    assert [Sym(Symbol.Terminal("\"\\\\\""))][..0] == [];
    SequenceUnitLeft([Sym(Symbol.Terminal("\"\\\\\""))], {["\"\\\\\""]}, {}, {});
  }

  /** Expansion and repeated units of the alternatives `"\\"`; used by test_30. */
  lemma Step340()
    ensures ExpandBody([Alternative([Sym(Symbol.Terminal("\"\\\\\""))])]) == {["\"\\\\\""]}
    ensures BodyUnits([Alternative([Sym(Symbol.Terminal("\"\\\\\""))])]) == {}
  {
    Step339();
    assert [Alternative([Sym(Symbol.Terminal("\"\\\\\""))])][..0] == [];
  }

  /** Display name of `<reverse solidus>`; used by test_30. */
  lemma Step341()
    ensures Normalize("reverse solidus") == "reverse_solidus"
  {
  }

  // test_0, line 42 of the test file
  /** The grammar text of test_0 as its token sequence. */
  const Text0: seq<Token> := [Token.Nonterminal("true literal"), Defines, Token.Terminal("TRUE")]

  /** Tokens of test_0's text, four at a time. */
  lemma Text0Tokens1()
    ensures |Text0| == 3
    ensures Text0[0] == Token.Nonterminal("true literal")
    ensures Text0[1] == Defines
    ensures Text0[2] == Token.Terminal("TRUE")
  {
  }

  /** Parser results on test_0's text, in evaluation order (part 1). */
  lemma Parsed0Step1(ts: seq<Token>)
    requires |ts| == 3 && ts[0] == Token.Nonterminal("true literal") && ts[1] == Defines && ts[2] == Token.Terminal("TRUE")
    ensures ParseElement(ts, 2) == Parsed(Sym(Symbol.Terminal("TRUE")), 3)
    ensures ParseItems(ts, 3) == Parsed([], 3)
    ensures [Sym(Symbol.Terminal("TRUE"))] + [] == [Sym(Symbol.Terminal("TRUE"))]
    ensures ParseAlternative(ts, 2) == Parsed(Alternative([Sym(Symbol.Terminal("TRUE"))]), 3)
  {
  }

  /** Parser results on test_0's text, in evaluation order (part 2). */
  lemma Parsed0Step2(ts: seq<Token>)
    requires |ts| == 3 && ts[0] == Token.Nonterminal("true literal") && ts[1] == Defines && ts[2] == Token.Terminal("TRUE")
    ensures ParseMoreAlternatives(ts, 3) == Parsed([], 3)
    ensures [Alternative([Sym(Symbol.Terminal("TRUE"))])] + [] == [Alternative([Sym(Symbol.Terminal("TRUE"))])]
    ensures ParseAlternatives(ts, 2) == Parsed([Alternative([Sym(Symbol.Terminal("TRUE"))])], 3)
    ensures ParseRuleBody(ts, 2) == Parsed([Alternative([Sym(Symbol.Terminal("TRUE"))])], 3)
  {
    Parsed0Step1(ts);
  }

  /** Parser results on test_0's text, in evaluation order (part 3). */
  lemma Parsed0Step3(ts: seq<Token>)
    requires |ts| == 3 && ts[0] == Token.Nonterminal("true literal") && ts[1] == Defines && ts[2] == Token.Terminal("TRUE")
    ensures ParseRule(ts, 0) == Parsed(Rule("true literal", [Alternative([Sym(Symbol.Terminal("TRUE"))])]), 3)
    ensures ParseRules(ts, 0) == Some([Rule("true literal", [Alternative([Sym(Symbol.Terminal("TRUE"))])])])
  {
    Parsed0Step2(ts);
  }

  /** The rule blocks test_0's text parses to. */
  lemma Parsed0()
    ensures Parse(Text0) == Some([Rule("true literal", [Alternative([Sym(Symbol.Terminal("TRUE"))])])])
  {
    Text0Tokens1();
    Parsed0Step1(Text0);
    Parsed0Step2(Text0);
    Parsed0Step3(Text0);
  }

  /** test_0, block 1: its alternatives merged into its entry. */
  lemma Test0Block1Merge()
    ensures var w: Grammar := map[]; w["true_literal" := Lookup(w, "true_literal") + {["TRUE"]}] == map["true_literal" := {["TRUE"]}]
  {
    var w: Grammar := map[];
    assert Lookup(w, "true_literal") == {};
    assert {} + {["TRUE"]} == {["TRUE"]};
  }

  /** test_0: the map after block 1. */
  lemma Test0Block1()
    ensures ApplyRules(map[], [Rule("true literal", [Alternative([Sym(Symbol.Terminal("TRUE"))])])]) == map["true_literal" := {["TRUE"]}]
  {
    Step3();
    Step4();
    Test0Block1Merge();
    var g: Grammar := map[];
    WithNoLists(g);
    var rules := [Rule("true literal", [Alternative([Sym(Symbol.Terminal("TRUE"))])])];
    assert rules[..0] == [];
    var w: Grammar := map[];
    BlockStep(rules, g, {}, w, "true_literal", {["TRUE"]}, map["true_literal" := {["TRUE"]}]);
  }

  /** The map the test expects. */
  lemma Test0()
    ensures Convert(Text0) == Some(map["true_literal" := {["TRUE"]}])
  {
    Parsed0();
    Test0Block1();
  }


  // test_1, line 65 of the test file
  /** The grammar text of test_1 as its token sequence. */
  const Text1: seq<Token> := [Token.Nonterminal("true literal"), Defines, Token.Terminal("TRUE"), Bar, Token.Terminal("FALSE"), Bar, Token.Terminal("UNKNOWN")]

  /** Tokens of test_1's text, four at a time. */
  lemma Text1Tokens1()
    ensures |Text1| == 7
    ensures Text1[0] == Token.Nonterminal("true literal")
    ensures Text1[1] == Defines
    ensures Text1[2] == Token.Terminal("TRUE")
    ensures Text1[3] == Bar
  {
  }

  /** Tokens of test_1's text, four at a time. */
  lemma Text1Tokens2()
    ensures Text1[4] == Token.Terminal("FALSE")
    ensures Text1[5] == Bar
    ensures Text1[6] == Token.Terminal("UNKNOWN")
  {
  }

  /** Parser results on test_1's text, in evaluation order (part 1). */
  lemma Parsed1Step1(ts: seq<Token>)
    requires |ts| == 7 && ts[0] == Token.Nonterminal("true literal") && ts[1] == Defines && ts[2] == Token.Terminal("TRUE") && ts[3] == Bar && ts[4] == Token.Terminal("FALSE") && ts[5] == Bar && ts[6] == Token.Terminal("UNKNOWN")
    ensures ParseElement(ts, 2) == Parsed(Sym(Symbol.Terminal("TRUE")), 3)
    ensures ParseItems(ts, 3) == Parsed([], 3)
    ensures [Sym(Symbol.Terminal("TRUE"))] + [] == [Sym(Symbol.Terminal("TRUE"))]
    ensures ParseAlternative(ts, 2) == Parsed(Alternative([Sym(Symbol.Terminal("TRUE"))]), 3)
  {
  }

  /** Parser results on test_1's text, in evaluation order (part 2). */
  lemma Parsed1Step2(ts: seq<Token>)
    requires |ts| == 7 && ts[0] == Token.Nonterminal("true literal") && ts[1] == Defines && ts[2] == Token.Terminal("TRUE") && ts[3] == Bar && ts[4] == Token.Terminal("FALSE") && ts[5] == Bar && ts[6] == Token.Terminal("UNKNOWN")
    ensures ParseElement(ts, 4) == Parsed(Sym(Symbol.Terminal("FALSE")), 5)
    ensures ParseItems(ts, 5) == Parsed([], 5)
    ensures [Sym(Symbol.Terminal("FALSE"))] + [] == [Sym(Symbol.Terminal("FALSE"))]
    ensures ParseAlternative(ts, 4) == Parsed(Alternative([Sym(Symbol.Terminal("FALSE"))]), 5)
  {
  }

  /** Parser results on test_1's text, in evaluation order (part 3). */
  lemma Parsed1Step3(ts: seq<Token>)
    requires |ts| == 7 && ts[0] == Token.Nonterminal("true literal") && ts[1] == Defines && ts[2] == Token.Terminal("TRUE") && ts[3] == Bar && ts[4] == Token.Terminal("FALSE") && ts[5] == Bar && ts[6] == Token.Terminal("UNKNOWN")
    ensures ParseElement(ts, 6) == Parsed(Sym(Symbol.Terminal("UNKNOWN")), 7)
    ensures ParseItems(ts, 7) == Parsed([], 7)
    ensures [Sym(Symbol.Terminal("UNKNOWN"))] + [] == [Sym(Symbol.Terminal("UNKNOWN"))]
    ensures ParseAlternative(ts, 6) == Parsed(Alternative([Sym(Symbol.Terminal("UNKNOWN"))]), 7)
  {
  }

  /** Parser results on test_1's text, in evaluation order (part 4). */
  lemma Parsed1Step4(ts: seq<Token>)
    requires |ts| == 7 && ts[0] == Token.Nonterminal("true literal") && ts[1] == Defines && ts[2] == Token.Terminal("TRUE") && ts[3] == Bar && ts[4] == Token.Terminal("FALSE") && ts[5] == Bar && ts[6] == Token.Terminal("UNKNOWN")
    ensures ParseMoreAlternatives(ts, 7) == Parsed([], 7)
    ensures [Alternative([Sym(Symbol.Terminal("UNKNOWN"))])] + [] == [Alternative([Sym(Symbol.Terminal("UNKNOWN"))])]
    ensures ParseMoreAlternatives(ts, 5) == Parsed([Alternative([Sym(Symbol.Terminal("UNKNOWN"))])], 7)
    ensures [Alternative([Sym(Symbol.Terminal("FALSE"))])] + [Alternative([Sym(Symbol.Terminal("UNKNOWN"))])] == [Alternative([Sym(Symbol.Terminal("FALSE"))]), Alternative([Sym(Symbol.Terminal("UNKNOWN"))])]
  {
    Parsed1Step3(ts);
  }

  /** Parser results on test_1's text, in evaluation order (part 5). */
  lemma Parsed1Step5(ts: seq<Token>)
    requires |ts| == 7 && ts[0] == Token.Nonterminal("true literal") && ts[1] == Defines && ts[2] == Token.Terminal("TRUE") && ts[3] == Bar && ts[4] == Token.Terminal("FALSE") && ts[5] == Bar && ts[6] == Token.Terminal("UNKNOWN")
    ensures ParseMoreAlternatives(ts, 3) == Parsed([Alternative([Sym(Symbol.Terminal("FALSE"))]), Alternative([Sym(Symbol.Terminal("UNKNOWN"))])], 7)
    ensures [Alternative([Sym(Symbol.Terminal("TRUE"))])] + [Alternative([Sym(Symbol.Terminal("FALSE"))]), Alternative([Sym(Symbol.Terminal("UNKNOWN"))])] == [Alternative([Sym(Symbol.Terminal("TRUE"))]), Alternative([Sym(Symbol.Terminal("FALSE"))]), Alternative([Sym(Symbol.Terminal("UNKNOWN"))])]
    ensures ParseAlternatives(ts, 2) == Parsed([Alternative([Sym(Symbol.Terminal("TRUE"))]), Alternative([Sym(Symbol.Terminal("FALSE"))]), Alternative([Sym(Symbol.Terminal("UNKNOWN"))])], 7)
    ensures ParseRuleBody(ts, 2) == Parsed([Alternative([Sym(Symbol.Terminal("TRUE"))]), Alternative([Sym(Symbol.Terminal("FALSE"))]), Alternative([Sym(Symbol.Terminal("UNKNOWN"))])], 7)
  {
    Parsed1Step1(ts);
    Parsed1Step2(ts);
    Parsed1Step4(ts);
  }

  /** Parser results on test_1's text, in evaluation order (part 6). */
  lemma Parsed1Step6(ts: seq<Token>)
    requires |ts| == 7 && ts[0] == Token.Nonterminal("true literal") && ts[1] == Defines && ts[2] == Token.Terminal("TRUE") && ts[3] == Bar && ts[4] == Token.Terminal("FALSE") && ts[5] == Bar && ts[6] == Token.Terminal("UNKNOWN")
    ensures ParseRule(ts, 0) == Parsed(Rule("true literal", [Alternative([Sym(Symbol.Terminal("TRUE"))]), Alternative([Sym(Symbol.Terminal("FALSE"))]), Alternative([Sym(Symbol.Terminal("UNKNOWN"))])]), 7)
    ensures ParseRules(ts, 0) == Some([Rule("true literal", [Alternative([Sym(Symbol.Terminal("TRUE"))]), Alternative([Sym(Symbol.Terminal("FALSE"))]), Alternative([Sym(Symbol.Terminal("UNKNOWN"))])])])
  {
    Parsed1Step5(ts);
  }

  /** The rule blocks test_1's text parses to. */
  lemma Parsed1()
    ensures Parse(Text1) == Some([Rule("true literal", [Alternative([Sym(Symbol.Terminal("TRUE"))]), Alternative([Sym(Symbol.Terminal("FALSE"))]), Alternative([Sym(Symbol.Terminal("UNKNOWN"))])])])
  {
    Text1Tokens1();
    Text1Tokens2();
    Parsed1Step1(Text1);
    Parsed1Step2(Text1);
    Parsed1Step3(Text1);
    Parsed1Step4(Text1);
    Parsed1Step5(Text1);
    Parsed1Step6(Text1);
  }

  /** test_1, block 1: its alternatives merged into its entry. */
  lemma Test1Block1Merge()
    ensures var w: Grammar := map[]; w["true_literal" := Lookup(w, "true_literal") + {["TRUE"], ["FALSE"], ["UNKNOWN"]}] == map["true_literal" := {["TRUE"], ["FALSE"], ["UNKNOWN"]}]
  {
    var w: Grammar := map[];
    assert Lookup(w, "true_literal") == {};
    assert {} + {["TRUE"], ["FALSE"], ["UNKNOWN"]} == {["TRUE"], ["FALSE"], ["UNKNOWN"]};
  }

  /** test_1: the map after block 1. */
  lemma Test1Block1()
    ensures ApplyRules(map[], [Rule("true literal", [Alternative([Sym(Symbol.Terminal("TRUE"))]), Alternative([Sym(Symbol.Terminal("FALSE"))]), Alternative([Sym(Symbol.Terminal("UNKNOWN"))])])]) == map["true_literal" := {["TRUE"], ["FALSE"], ["UNKNOWN"]}]
  {
    Step10();
    Step4();
    Test1Block1Merge();
    var g: Grammar := map[];
    WithNoLists(g);
    var rules := [Rule("true literal", [Alternative([Sym(Symbol.Terminal("TRUE"))]), Alternative([Sym(Symbol.Terminal("FALSE"))]), Alternative([Sym(Symbol.Terminal("UNKNOWN"))])])];
    assert rules[..0] == [];
    var w: Grammar := map[];
    BlockStep(rules, g, {}, w, "true_literal", {["TRUE"], ["FALSE"], ["UNKNOWN"]}, map["true_literal" := {["TRUE"], ["FALSE"], ["UNKNOWN"]}]);
  }

  /** The map the test expects. */
  lemma Test1()
    ensures Convert(Text1) == Some(map["true_literal" := {["TRUE"], ["FALSE"], ["UNKNOWN"]}])
  {
    Parsed1();
    Test1Block1();
  }


  // test_2, line 93 of the test file
  /** The grammar text of test_2 as its token sequence. */
  const Text2: seq<Token> := [Token.Nonterminal("nested query specification"), Defines, Token.Nonterminal("left brace"), Token.Nonterminal("query specification"), Token.Nonterminal("right brace")]

  /** Tokens of test_2's text, four at a time. */
  lemma Text2Tokens1()
    ensures |Text2| == 5
    ensures Text2[0] == Token.Nonterminal("nested query specification")
    ensures Text2[1] == Defines
    ensures Text2[2] == Token.Nonterminal("left brace")
    ensures Text2[3] == Token.Nonterminal("query specification")
  {
  }

  /** Tokens of test_2's text, four at a time. */
  lemma Text2Tokens2()
    ensures Text2[4] == Token.Nonterminal("right brace")
  {
  }

  /** Parser results on test_2's text, in evaluation order (part 1). */
  lemma Parsed2Step1(ts: seq<Token>)
    requires |ts| == 5 && ts[0] == Token.Nonterminal("nested query specification") && ts[1] == Defines && ts[2] == Token.Nonterminal("left brace") && ts[3] == Token.Nonterminal("query specification") && ts[4] == Token.Nonterminal("right brace")
    ensures ParseElement(ts, 2) == Parsed(Sym(Symbol.Nonterminal("left brace")), 3)
    ensures ParseElement(ts, 3) == Parsed(Sym(Symbol.Nonterminal("query specification")), 4)
    ensures ParseElement(ts, 4) == Parsed(Sym(Symbol.Nonterminal("right brace")), 5)
    ensures ParseItems(ts, 5) == Parsed([], 5)
  {
  }

  /** Parser results on test_2's text, in evaluation order (part 2). */
  lemma Parsed2Step2(ts: seq<Token>)
    requires |ts| == 5 && ts[0] == Token.Nonterminal("nested query specification") && ts[1] == Defines && ts[2] == Token.Nonterminal("left brace") && ts[3] == Token.Nonterminal("query specification") && ts[4] == Token.Nonterminal("right brace")
    ensures [Sym(Symbol.Nonterminal("right brace"))] + [] == [Sym(Symbol.Nonterminal("right brace"))]
    ensures ParseItems(ts, 4) == Parsed([Sym(Symbol.Nonterminal("right brace"))], 5)
    ensures [Sym(Symbol.Nonterminal("query specification"))] + [Sym(Symbol.Nonterminal("right brace"))] == [Sym(Symbol.Nonterminal("query specification")), Sym(Symbol.Nonterminal("right brace"))]
    ensures ParseItems(ts, 3) == Parsed([Sym(Symbol.Nonterminal("query specification")), Sym(Symbol.Nonterminal("right brace"))], 5)
  {
    Parsed2Step1(ts);
  }

  /** Parser results on test_2's text, in evaluation order (part 3). */
  lemma Parsed2Step3(ts: seq<Token>)
    requires |ts| == 5 && ts[0] == Token.Nonterminal("nested query specification") && ts[1] == Defines && ts[2] == Token.Nonterminal("left brace") && ts[3] == Token.Nonterminal("query specification") && ts[4] == Token.Nonterminal("right brace")
    ensures [Sym(Symbol.Nonterminal("left brace"))] + [Sym(Symbol.Nonterminal("query specification")), Sym(Symbol.Nonterminal("right brace"))] == [Sym(Symbol.Nonterminal("left brace")), Sym(Symbol.Nonterminal("query specification")), Sym(Symbol.Nonterminal("right brace"))]
    ensures ParseAlternative(ts, 2) == Parsed(Alternative([Sym(Symbol.Nonterminal("left brace")), Sym(Symbol.Nonterminal("query specification")), Sym(Symbol.Nonterminal("right brace"))]), 5)
    ensures ParseMoreAlternatives(ts, 5) == Parsed([], 5)
    ensures [Alternative([Sym(Symbol.Nonterminal("left brace")), Sym(Symbol.Nonterminal("query specification")), Sym(Symbol.Nonterminal("right brace"))])] + [] == [Alternative([Sym(Symbol.Nonterminal("left brace")), Sym(Symbol.Nonterminal("query specification")), Sym(Symbol.Nonterminal("right brace"))])]
  {
    Parsed2Step1(ts);
    Parsed2Step2(ts);
  }

  /** Parser results on test_2's text, in evaluation order (part 4). */
  lemma Parsed2Step4(ts: seq<Token>)
    requires |ts| == 5 && ts[0] == Token.Nonterminal("nested query specification") && ts[1] == Defines && ts[2] == Token.Nonterminal("left brace") && ts[3] == Token.Nonterminal("query specification") && ts[4] == Token.Nonterminal("right brace")
    ensures ParseAlternatives(ts, 2) == Parsed([Alternative([Sym(Symbol.Nonterminal("left brace")), Sym(Symbol.Nonterminal("query specification")), Sym(Symbol.Nonterminal("right brace"))])], 5)
    ensures ParseRuleBody(ts, 2) == Parsed([Alternative([Sym(Symbol.Nonterminal("left brace")), Sym(Symbol.Nonterminal("query specification")), Sym(Symbol.Nonterminal("right brace"))])], 5)
    ensures ParseRule(ts, 0) == Parsed(Rule("nested query specification", [Alternative([Sym(Symbol.Nonterminal("left brace")), Sym(Symbol.Nonterminal("query specification")), Sym(Symbol.Nonterminal("right brace"))])]), 5)
    ensures ParseRules(ts, 0) == Some([Rule("nested query specification", [Alternative([Sym(Symbol.Nonterminal("left brace")), Sym(Symbol.Nonterminal("query specification")), Sym(Symbol.Nonterminal("right brace"))])])])
  {
    Parsed2Step3(ts);
  }

  /** The rule blocks test_2's text parses to. */
  lemma Parsed2()
    ensures Parse(Text2) == Some([Rule("nested query specification", [Alternative([Sym(Symbol.Nonterminal("left brace")), Sym(Symbol.Nonterminal("query specification")), Sym(Symbol.Nonterminal("right brace"))])])])
  {
    Text2Tokens1();
    Text2Tokens2();
    Parsed2Step1(Text2);
    Parsed2Step2(Text2);
    Parsed2Step3(Text2);
    Parsed2Step4(Text2);
  }

  /** test_2, block 1: its alternatives merged into its entry. */
  lemma Test2Block1Merge()
    ensures var w: Grammar := map[]; w["nested_query_specification" := Lookup(w, "nested_query_specification") + {["left_brace", "query_specification", "right_brace"]}] == map["nested_query_specification" := {["left_brace", "query_specification", "right_brace"]}]
  {
    var w: Grammar := map[];
    assert Lookup(w, "nested_query_specification") == {};
    assert {} + {["left_brace", "query_specification", "right_brace"]} == {["left_brace", "query_specification", "right_brace"]};
  }

  /** test_2: the map after block 1. */
  lemma Test2Block1()
    ensures ApplyRules(map[], [Rule("nested query specification", [Alternative([Sym(Symbol.Nonterminal("left brace")), Sym(Symbol.Nonterminal("query specification")), Sym(Symbol.Nonterminal("right brace"))])])]) == map["nested_query_specification" := {["left_brace", "query_specification", "right_brace"]}]
  {
    Step19();
    Step20();
    Test2Block1Merge();
    var g: Grammar := map[];
    WithNoLists(g);
    var rules := [Rule("nested query specification", [Alternative([Sym(Symbol.Nonterminal("left brace")), Sym(Symbol.Nonterminal("query specification")), Sym(Symbol.Nonterminal("right brace"))])])];
    assert rules[..0] == [];
    var w: Grammar := map[];
    BlockStep(rules, g, {}, w, "nested_query_specification", {["left_brace", "query_specification", "right_brace"]}, map["nested_query_specification" := {["left_brace", "query_specification", "right_brace"]}]);
  }

  /** The map the test expects. */
  lemma Test2()
    ensures Convert(Text2) == Some(map["nested_query_specification" := {["left_brace", "query_specification", "right_brace"]}])
  {
    Parsed2();
    Test2Block1();
  }


  // test_3, line 116 of the test file
  /** The grammar text of test_3 as its token sequence. */
  const Text3: seq<Token> := [BlockEnd, Token.Nonterminal("GQL-program"), Defines, Token.Nonterminal("program activity"), LBrack, Token.Nonterminal("session close command"), RBrack, Bar, Token.Nonterminal("session close command")]

  /** Tokens of test_3's text, four at a time. */
  lemma Text3Tokens1()
    ensures |Text3| == 9
    ensures Text3[0] == BlockEnd
    ensures Text3[1] == Token.Nonterminal("GQL-program")
    ensures Text3[2] == Defines
    ensures Text3[3] == Token.Nonterminal("program activity")
  {
  }

  /** Tokens of test_3's text, four at a time. */
  lemma Text3Tokens2()
    ensures Text3[4] == LBrack
    ensures Text3[5] == Token.Nonterminal("session close command")
    ensures Text3[6] == RBrack
    ensures Text3[7] == Bar
  {
  }

  /** Tokens of test_3's text, four at a time. */
  lemma Text3Tokens3()
    ensures Text3[8] == Token.Nonterminal("session close command")
  {
  }

  /** Parser results on test_3's text, in evaluation order (part 1). */
  lemma Parsed3Step1(ts: seq<Token>)
    requires |ts| == 9 && ts[0] == BlockEnd && ts[1] == Token.Nonterminal("GQL-program") && ts[2] == Defines && ts[3] == Token.Nonterminal("program activity") && ts[4] == LBrack && ts[5] == Token.Nonterminal("session close command") && ts[6] == RBrack && ts[7] == Bar && ts[8] == Token.Nonterminal("session close command")
    ensures SkipBlank(ts, 1) == 1
    ensures SkipBlank(ts, 0) == 1
    ensures ParseElement(ts, 3) == Parsed(Sym(Symbol.Nonterminal("program activity")), 4)
    ensures ParseElement(ts, 5) == Parsed(Sym(Symbol.Nonterminal("session close command")), 6)
  {
  }

  /** Parser results on test_3's text, in evaluation order (part 2). */
  lemma Parsed3Step2(ts: seq<Token>)
    requires |ts| == 9 && ts[0] == BlockEnd && ts[1] == Token.Nonterminal("GQL-program") && ts[2] == Defines && ts[3] == Token.Nonterminal("program activity") && ts[4] == LBrack && ts[5] == Token.Nonterminal("session close command") && ts[6] == RBrack && ts[7] == Bar && ts[8] == Token.Nonterminal("session close command")
    ensures ParseItems(ts, 6) == Parsed([], 6)
    ensures [Sym(Symbol.Nonterminal("session close command"))] + [] == [Sym(Symbol.Nonterminal("session close command"))]
    ensures ParseAlternative(ts, 5) == Parsed(Alternative([Sym(Symbol.Nonterminal("session close command"))]), 6)
    ensures ParseMoreAlternatives(ts, 6) == Parsed([], 6)
  {
    Parsed3Step1(ts);
  }

  /** Parser results on test_3's text, in evaluation order (part 3). */
  lemma Parsed3Step3(ts: seq<Token>)
    requires |ts| == 9 && ts[0] == BlockEnd && ts[1] == Token.Nonterminal("GQL-program") && ts[2] == Defines && ts[3] == Token.Nonterminal("program activity") && ts[4] == LBrack && ts[5] == Token.Nonterminal("session close command") && ts[6] == RBrack && ts[7] == Bar && ts[8] == Token.Nonterminal("session close command")
    ensures [Alternative([Sym(Symbol.Nonterminal("session close command"))])] + [] == [Alternative([Sym(Symbol.Nonterminal("session close command"))])]
    ensures ParseAlternatives(ts, 5) == Parsed([Alternative([Sym(Symbol.Nonterminal("session close command"))])], 6)
    ensures ParseElement(ts, 4) == Parsed(Opt([Alternative([Sym(Symbol.Nonterminal("session close command"))])]), 7)
    ensures ParseItems(ts, 7) == Parsed([], 7)
  {
    Parsed3Step2(ts);
  }

  /** Parser results on test_3's text, in evaluation order (part 4). */
  lemma Parsed3Step4(ts: seq<Token>)
    requires |ts| == 9 && ts[0] == BlockEnd && ts[1] == Token.Nonterminal("GQL-program") && ts[2] == Defines && ts[3] == Token.Nonterminal("program activity") && ts[4] == LBrack && ts[5] == Token.Nonterminal("session close command") && ts[6] == RBrack && ts[7] == Bar && ts[8] == Token.Nonterminal("session close command")
    ensures [Opt([Alternative([Sym(Symbol.Nonterminal("session close command"))])])] + [] == [Opt([Alternative([Sym(Symbol.Nonterminal("session close command"))])])]
    ensures ParseItems(ts, 4) == Parsed([Opt([Alternative([Sym(Symbol.Nonterminal("session close command"))])])], 7)
    ensures [Sym(Symbol.Nonterminal("program activity"))] + [Opt([Alternative([Sym(Symbol.Nonterminal("session close command"))])])] == [Sym(Symbol.Nonterminal("program activity")), Opt([Alternative([Sym(Symbol.Nonterminal("session close command"))])])]
    ensures ParseAlternative(ts, 3) == Parsed(Alternative([Sym(Symbol.Nonterminal("program activity")), Opt([Alternative([Sym(Symbol.Nonterminal("session close command"))])])]), 7)
  {
    Parsed3Step1(ts);
    Parsed3Step3(ts);
  }

  /** Parser results on test_3's text, in evaluation order (part 5). */
  lemma Parsed3Step5(ts: seq<Token>)
    requires |ts| == 9 && ts[0] == BlockEnd && ts[1] == Token.Nonterminal("GQL-program") && ts[2] == Defines && ts[3] == Token.Nonterminal("program activity") && ts[4] == LBrack && ts[5] == Token.Nonterminal("session close command") && ts[6] == RBrack && ts[7] == Bar && ts[8] == Token.Nonterminal("session close command")
    ensures ParseElement(ts, 8) == Parsed(Sym(Symbol.Nonterminal("session close command")), 9)
    ensures ParseItems(ts, 9) == Parsed([], 9)
    ensures [Sym(Symbol.Nonterminal("session close command"))] + [] == [Sym(Symbol.Nonterminal("session close command"))]
    ensures ParseAlternative(ts, 8) == Parsed(Alternative([Sym(Symbol.Nonterminal("session close command"))]), 9)
  {
  }

  /** Parser results on test_3's text, in evaluation order (part 6). */
  lemma Parsed3Step6(ts: seq<Token>)
    requires |ts| == 9 && ts[0] == BlockEnd && ts[1] == Token.Nonterminal("GQL-program") && ts[2] == Defines && ts[3] == Token.Nonterminal("program activity") && ts[4] == LBrack && ts[5] == Token.Nonterminal("session close command") && ts[6] == RBrack && ts[7] == Bar && ts[8] == Token.Nonterminal("session close command")
    ensures ParseMoreAlternatives(ts, 9) == Parsed([], 9)
    ensures [Alternative([Sym(Symbol.Nonterminal("session close command"))])] + [] == [Alternative([Sym(Symbol.Nonterminal("session close command"))])]
    ensures ParseMoreAlternatives(ts, 7) == Parsed([Alternative([Sym(Symbol.Nonterminal("session close command"))])], 9)
    ensures [Alternative([Sym(Symbol.Nonterminal("program activity")), Opt([Alternative([Sym(Symbol.Nonterminal("session close command"))])])])] + [Alternative([Sym(Symbol.Nonterminal("session close command"))])] == [Alternative([Sym(Symbol.Nonterminal("program activity")), Opt([Alternative([Sym(Symbol.Nonterminal("session close command"))])])]), Alternative([Sym(Symbol.Nonterminal("session close command"))])]
  {
    Parsed3Step5(ts);
  }

  /** Parser results on test_3's text, in evaluation order (part 7). */
  lemma Parsed3Step7(ts: seq<Token>)
    requires |ts| == 9 && ts[0] == BlockEnd && ts[1] == Token.Nonterminal("GQL-program") && ts[2] == Defines && ts[3] == Token.Nonterminal("program activity") && ts[4] == LBrack && ts[5] == Token.Nonterminal("session close command") && ts[6] == RBrack && ts[7] == Bar && ts[8] == Token.Nonterminal("session close command")
    ensures ParseAlternatives(ts, 3) == Parsed([Alternative([Sym(Symbol.Nonterminal("program activity")), Opt([Alternative([Sym(Symbol.Nonterminal("session close command"))])])]), Alternative([Sym(Symbol.Nonterminal("session close command"))])], 9)
    ensures ParseRuleBody(ts, 3) == Parsed([Alternative([Sym(Symbol.Nonterminal("program activity")), Opt([Alternative([Sym(Symbol.Nonterminal("session close command"))])])]), Alternative([Sym(Symbol.Nonterminal("session close command"))])], 9)
    ensures ParseRule(ts, 1) == Parsed(Rule("GQL-program", [Alternative([Sym(Symbol.Nonterminal("program activity")), Opt([Alternative([Sym(Symbol.Nonterminal("session close command"))])])]), Alternative([Sym(Symbol.Nonterminal("session close command"))])]), 9)
    ensures ParseRules(ts, 1) == Some([Rule("GQL-program", [Alternative([Sym(Symbol.Nonterminal("program activity")), Opt([Alternative([Sym(Symbol.Nonterminal("session close command"))])])]), Alternative([Sym(Symbol.Nonterminal("session close command"))])])])
  {
    Parsed3Step4(ts);
    Parsed3Step6(ts);
  }

  /** The rule blocks test_3's text parses to. */
  lemma Parsed3()
    ensures Parse(Text3) == Some([Rule("GQL-program", [Alternative([Sym(Symbol.Nonterminal("program activity")), Opt([Alternative([Sym(Symbol.Nonterminal("session close command"))])])]), Alternative([Sym(Symbol.Nonterminal("session close command"))])])])
  {
    Text3Tokens1();
    Text3Tokens2();
    Text3Tokens3();
    Parsed3Step1(Text3);
    Parsed3Step2(Text3);
    Parsed3Step3(Text3);
    Parsed3Step4(Text3);
    Parsed3Step5(Text3);
    Parsed3Step6(Text3);
    Parsed3Step7(Text3);
  }

  /** test_3, block 1: its alternatives merged into its entry. */
  lemma Test3Block1Merge()
    ensures var w: Grammar := map[]; w["GQL_program" := Lookup(w, "GQL_program") + {["program_activity", "session_close_command"], ["program_activity"], ["session_close_command"]}] == map["GQL_program" := {["program_activity", "session_close_command"], ["program_activity"], ["session_close_command"]}]
  {
    var w: Grammar := map[];
    assert Lookup(w, "GQL_program") == {};
    assert {} + {["program_activity", "session_close_command"], ["program_activity"], ["session_close_command"]} == {["program_activity", "session_close_command"], ["program_activity"], ["session_close_command"]};
  }

  /** test_3: the map after block 1. */
  lemma Test3Block1()
    ensures ApplyRules(map[], [Rule("GQL-program", [Alternative([Sym(Symbol.Nonterminal("program activity")), Opt([Alternative([Sym(Symbol.Nonterminal("session close command"))])])]), Alternative([Sym(Symbol.Nonterminal("session close command"))])])]) == map["GQL_program" := {["program_activity", "session_close_command"], ["program_activity"], ["session_close_command"]}]
  {
    Step31();
    Step32();
    Test3Block1Merge();
    var g: Grammar := map[];
    WithNoLists(g);
    var rules := [Rule("GQL-program", [Alternative([Sym(Symbol.Nonterminal("program activity")), Opt([Alternative([Sym(Symbol.Nonterminal("session close command"))])])]), Alternative([Sym(Symbol.Nonterminal("session close command"))])])];
    assert rules[..0] == [];
    var w: Grammar := map[];
    BlockStep(rules, g, {}, w, "GQL_program", {["program_activity", "session_close_command"], ["program_activity"], ["session_close_command"]}, map["GQL_program" := {["program_activity", "session_close_command"], ["program_activity"], ["session_close_command"]}]);
  }

  /** The map the test expects. */
  lemma Test3()
    ensures Convert(Text3) == Some(map["GQL_program" := {["program_activity", "session_close_command"], ["program_activity"], ["session_close_command"]}])
  {
    Parsed3();
    Test3Block1();
  }


  // test_4, line 153 of the test file
  /** The grammar text of test_4 as its token sequence. */
  const Text4: seq<Token> := [BlockEnd, Token.Nonterminal("session activity"), Defines, Token.Nonterminal("session reset command"), Ellipsis]

  /** Tokens of test_4's text, four at a time. */
  lemma Text4Tokens1()
    ensures |Text4| == 5
    ensures Text4[0] == BlockEnd
    ensures Text4[1] == Token.Nonterminal("session activity")
    ensures Text4[2] == Defines
    ensures Text4[3] == Token.Nonterminal("session reset command")
  {
  }

  /** Tokens of test_4's text, four at a time. */
  lemma Text4Tokens2()
    ensures Text4[4] == Ellipsis
  {
  }

  /** Parser results on test_4's text, in evaluation order (part 1). */
  lemma Parsed4Step1(ts: seq<Token>)
    requires |ts| == 5 && ts[0] == BlockEnd && ts[1] == Token.Nonterminal("session activity") && ts[2] == Defines && ts[3] == Token.Nonterminal("session reset command") && ts[4] == Ellipsis
    ensures SkipBlank(ts, 1) == 1
    ensures SkipBlank(ts, 0) == 1
    ensures ParseElement(ts, 3) == Parsed(Repeat(Sym(Symbol.Nonterminal("session reset command"))), 5)
    ensures ParseItems(ts, 5) == Parsed([], 5)
  {
  }

  /** Parser results on test_4's text, in evaluation order (part 2). */
  lemma Parsed4Step2(ts: seq<Token>)
    requires |ts| == 5 && ts[0] == BlockEnd && ts[1] == Token.Nonterminal("session activity") && ts[2] == Defines && ts[3] == Token.Nonterminal("session reset command") && ts[4] == Ellipsis
    ensures [Repeat(Sym(Symbol.Nonterminal("session reset command")))] + [] == [Repeat(Sym(Symbol.Nonterminal("session reset command")))]
    ensures ParseAlternative(ts, 3) == Parsed(Alternative([Repeat(Sym(Symbol.Nonterminal("session reset command")))]), 5)
    ensures ParseMoreAlternatives(ts, 5) == Parsed([], 5)
    ensures [Alternative([Repeat(Sym(Symbol.Nonterminal("session reset command")))])] + [] == [Alternative([Repeat(Sym(Symbol.Nonterminal("session reset command")))])]
  {
    Parsed4Step1(ts);
  }

  /** Parser results on test_4's text, in evaluation order (part 3). */
  lemma Parsed4Step3(ts: seq<Token>)
    requires |ts| == 5 && ts[0] == BlockEnd && ts[1] == Token.Nonterminal("session activity") && ts[2] == Defines && ts[3] == Token.Nonterminal("session reset command") && ts[4] == Ellipsis
    ensures ParseAlternatives(ts, 3) == Parsed([Alternative([Repeat(Sym(Symbol.Nonterminal("session reset command")))])], 5)
    ensures ParseRuleBody(ts, 3) == Parsed([Alternative([Repeat(Sym(Symbol.Nonterminal("session reset command")))])], 5)
    ensures ParseRule(ts, 1) == Parsed(Rule("session activity", [Alternative([Repeat(Sym(Symbol.Nonterminal("session reset command")))])]), 5)
    ensures ParseRules(ts, 1) == Some([Rule("session activity", [Alternative([Repeat(Sym(Symbol.Nonterminal("session reset command")))])])])
  {
    Parsed4Step2(ts);
  }

  /** The rule blocks test_4's text parses to. */
  lemma Parsed4()
    ensures Parse(Text4) == Some([Rule("session activity", [Alternative([Repeat(Sym(Symbol.Nonterminal("session reset command")))])])])
  {
    Text4Tokens1();
    Text4Tokens2();
    Parsed4Step1(Text4);
    Parsed4Step2(Text4);
    Parsed4Step3(Text4);
  }

  /** test_4, block 1: the map once list 1 of the block is defined. */
  lemma Test4Block1Lists1()
    ensures var g: Grammar := map[]; WithLists(g, {["session_reset_command"]}) == map["session_reset_command_list" := {["session_reset_command"], ["session_reset_command_list", "session_reset_command"]}]
  {
    var g: Grammar := map[];
    WithNoLists(g);
    Step34();
    Step38();
    var w0: Grammar := map[];
    assert Lookup(w0, "session_reset_command_list") == {};
    assert Lookup(w0, "session_reset_command_list") + {["session_reset_command"], ["session_reset_command_list", "session_reset_command"]} == {["session_reset_command"], ["session_reset_command_list", "session_reset_command"]};
    ListStep(g, {}, ["session_reset_command"], w0, "session_reset_command_list", {["session_reset_command"], ["session_reset_command_list", "session_reset_command"]}, map["session_reset_command_list" := {["session_reset_command"], ["session_reset_command_list", "session_reset_command"]}]);
    assert {} + {["session_reset_command"]} == {["session_reset_command"]};
  }

  /** test_4, block 1: its alternatives merged into its entry. */
  lemma Test4Block1Merge()
    ensures var w: Grammar := map["session_reset_command_list" := {["session_reset_command"], ["session_reset_command_list", "session_reset_command"]}]; w["session_activity" := Lookup(w, "session_activity") + {["session_reset_command_list"]}] == map["session_activity" := {["session_reset_command_list"]}, "session_reset_command_list" := {["session_reset_command"], ["session_reset_command_list", "session_reset_command"]}]
  {
    var w: Grammar := map["session_reset_command_list" := {["session_reset_command"], ["session_reset_command_list", "session_reset_command"]}];
    assert Lookup(w, "session_activity") == {};
    assert {} + {["session_reset_command_list"]} == {["session_reset_command_list"]};
  }

  /** test_4: the map after block 1. */
  lemma Test4Block1()
    ensures ApplyRules(map[], [Rule("session activity", [Alternative([Repeat(Sym(Symbol.Nonterminal("session reset command")))])])]) == map["session_activity" := {["session_reset_command_list"]}, "session_reset_command_list" := {["session_reset_command"], ["session_reset_command_list", "session_reset_command"]}]
  {
    Step37();
    Test4Block1Lists1();
    Step39();
    Test4Block1Merge();
    var g: Grammar := map[];
    var rules := [Rule("session activity", [Alternative([Repeat(Sym(Symbol.Nonterminal("session reset command")))])])];
    assert rules[..0] == [];
    var w: Grammar := map["session_reset_command_list" := {["session_reset_command"], ["session_reset_command_list", "session_reset_command"]}];
    BlockStep(rules, g, {["session_reset_command"]}, w, "session_activity", {["session_reset_command_list"]}, map["session_activity" := {["session_reset_command_list"]}, "session_reset_command_list" := {["session_reset_command"], ["session_reset_command_list", "session_reset_command"]}]);
  }

  /** The map the test expects. */
  lemma Test4()
    ensures Convert(Text4) == Some(map["session_activity" := {["session_reset_command_list"]}, "session_reset_command_list" := {["session_reset_command"], ["session_reset_command_list", "session_reset_command"]}])
  {
    Parsed4();
    Test4Block1();
  }


  // test_5, line 194 of the test file
  /** The grammar text of test_5 as its token sequence. */
  const Text5: seq<Token> := [BlockEnd, Token.Nonterminal("session activity"), Defines, Token.Nonterminal("session reset command"), Ellipsis, Bar, Token.Nonterminal("session set command"), Ellipsis]

  /** Tokens of test_5's text, four at a time. */
  lemma Text5Tokens1()
    ensures |Text5| == 8
    ensures Text5[0] == BlockEnd
    ensures Text5[1] == Token.Nonterminal("session activity")
    ensures Text5[2] == Defines
    ensures Text5[3] == Token.Nonterminal("session reset command")
  {
  }

  /** Tokens of test_5's text, four at a time. */
  lemma Text5Tokens2()
    ensures Text5[4] == Ellipsis
    ensures Text5[5] == Bar
    ensures Text5[6] == Token.Nonterminal("session set command")
    ensures Text5[7] == Ellipsis
  {
  }

  /** Parser results on test_5's text, in evaluation order (part 1). */
  lemma Parsed5Step1(ts: seq<Token>)
    requires |ts| == 8 && ts[0] == BlockEnd && ts[1] == Token.Nonterminal("session activity") && ts[2] == Defines && ts[3] == Token.Nonterminal("session reset command") && ts[4] == Ellipsis && ts[5] == Bar && ts[6] == Token.Nonterminal("session set command") && ts[7] == Ellipsis
    ensures SkipBlank(ts, 1) == 1
    ensures SkipBlank(ts, 0) == 1
    ensures ParseElement(ts, 3) == Parsed(Repeat(Sym(Symbol.Nonterminal("session reset command"))), 5)
    ensures ParseItems(ts, 5) == Parsed([], 5)
  {
  }

  /** Parser results on test_5's text, in evaluation order (part 2). */
  lemma Parsed5Step2(ts: seq<Token>)
    requires |ts| == 8 && ts[0] == BlockEnd && ts[1] == Token.Nonterminal("session activity") && ts[2] == Defines && ts[3] == Token.Nonterminal("session reset command") && ts[4] == Ellipsis && ts[5] == Bar && ts[6] == Token.Nonterminal("session set command") && ts[7] == Ellipsis
    ensures [Repeat(Sym(Symbol.Nonterminal("session reset command")))] + [] == [Repeat(Sym(Symbol.Nonterminal("session reset command")))]
    ensures ParseAlternative(ts, 3) == Parsed(Alternative([Repeat(Sym(Symbol.Nonterminal("session reset command")))]), 5)
    ensures ParseElement(ts, 6) == Parsed(Repeat(Sym(Symbol.Nonterminal("session set command"))), 8)
    ensures ParseItems(ts, 8) == Parsed([], 8)
  {
    Parsed5Step1(ts);
  }

  /** Parser results on test_5's text, in evaluation order (part 3). */
  lemma Parsed5Step3(ts: seq<Token>)
    requires |ts| == 8 && ts[0] == BlockEnd && ts[1] == Token.Nonterminal("session activity") && ts[2] == Defines && ts[3] == Token.Nonterminal("session reset command") && ts[4] == Ellipsis && ts[5] == Bar && ts[6] == Token.Nonterminal("session set command") && ts[7] == Ellipsis
    ensures [Repeat(Sym(Symbol.Nonterminal("session set command")))] + [] == [Repeat(Sym(Symbol.Nonterminal("session set command")))]
    ensures ParseAlternative(ts, 6) == Parsed(Alternative([Repeat(Sym(Symbol.Nonterminal("session set command")))]), 8)
    ensures ParseMoreAlternatives(ts, 8) == Parsed([], 8)
    ensures [Alternative([Repeat(Sym(Symbol.Nonterminal("session set command")))])] + [] == [Alternative([Repeat(Sym(Symbol.Nonterminal("session set command")))])]
  {
    Parsed5Step2(ts);
  }

  /** Parser results on test_5's text, in evaluation order (part 4). */
  lemma Parsed5Step4(ts: seq<Token>)
    requires |ts| == 8 && ts[0] == BlockEnd && ts[1] == Token.Nonterminal("session activity") && ts[2] == Defines && ts[3] == Token.Nonterminal("session reset command") && ts[4] == Ellipsis && ts[5] == Bar && ts[6] == Token.Nonterminal("session set command") && ts[7] == Ellipsis
    ensures ParseMoreAlternatives(ts, 5) == Parsed([Alternative([Repeat(Sym(Symbol.Nonterminal("session set command")))])], 8)
    ensures [Alternative([Repeat(Sym(Symbol.Nonterminal("session reset command")))])] + [Alternative([Repeat(Sym(Symbol.Nonterminal("session set command")))])] == [Alternative([Repeat(Sym(Symbol.Nonterminal("session reset command")))]), Alternative([Repeat(Sym(Symbol.Nonterminal("session set command")))])]
    ensures ParseAlternatives(ts, 3) == Parsed([Alternative([Repeat(Sym(Symbol.Nonterminal("session reset command")))]), Alternative([Repeat(Sym(Symbol.Nonterminal("session set command")))])], 8)
    ensures ParseRuleBody(ts, 3) == Parsed([Alternative([Repeat(Sym(Symbol.Nonterminal("session reset command")))]), Alternative([Repeat(Sym(Symbol.Nonterminal("session set command")))])], 8)
  {
    Parsed5Step2(ts);
    Parsed5Step3(ts);
  }

  /** Parser results on test_5's text, in evaluation order (part 5). */
  lemma Parsed5Step5(ts: seq<Token>)
    requires |ts| == 8 && ts[0] == BlockEnd && ts[1] == Token.Nonterminal("session activity") && ts[2] == Defines && ts[3] == Token.Nonterminal("session reset command") && ts[4] == Ellipsis && ts[5] == Bar && ts[6] == Token.Nonterminal("session set command") && ts[7] == Ellipsis
    ensures ParseRule(ts, 1) == Parsed(Rule("session activity", [Alternative([Repeat(Sym(Symbol.Nonterminal("session reset command")))]), Alternative([Repeat(Sym(Symbol.Nonterminal("session set command")))])]), 8)
    ensures ParseRules(ts, 1) == Some([Rule("session activity", [Alternative([Repeat(Sym(Symbol.Nonterminal("session reset command")))]), Alternative([Repeat(Sym(Symbol.Nonterminal("session set command")))])])])
  {
    Parsed5Step4(ts);
  }

  /** The rule blocks test_5's text parses to. */
  lemma Parsed5()
    ensures Parse(Text5) == Some([Rule("session activity", [Alternative([Repeat(Sym(Symbol.Nonterminal("session reset command")))]), Alternative([Repeat(Sym(Symbol.Nonterminal("session set command")))])])])
  {
    Text5Tokens1();
    Text5Tokens2();
    Parsed5Step1(Text5);
    Parsed5Step2(Text5);
    Parsed5Step3(Text5);
    Parsed5Step4(Text5);
    Parsed5Step5(Text5);
  }

  /** test_5, block 1: the map once list 1 of the block is defined. */
  lemma Test5Block1Lists1()
    ensures var g: Grammar := map[]; WithLists(g, {["session_reset_command"]}) == map["session_reset_command_list" := {["session_reset_command"], ["session_reset_command_list", "session_reset_command"]}]
  {
    var g: Grammar := map[];
    WithNoLists(g);
    Step34();
    Step38();
    var w0: Grammar := map[];
    assert Lookup(w0, "session_reset_command_list") == {};
    assert Lookup(w0, "session_reset_command_list") + {["session_reset_command"], ["session_reset_command_list", "session_reset_command"]} == {["session_reset_command"], ["session_reset_command_list", "session_reset_command"]};
    ListStep(g, {}, ["session_reset_command"], w0, "session_reset_command_list", {["session_reset_command"], ["session_reset_command_list", "session_reset_command"]}, map["session_reset_command_list" := {["session_reset_command"], ["session_reset_command_list", "session_reset_command"]}]);
    assert {} + {["session_reset_command"]} == {["session_reset_command"]};
  }

  /** test_5, block 1: the map once list 2 of the block is defined. */
  lemma Test5Block1Lists2()
    ensures var g: Grammar := map[]; WithLists(g, {["session_reset_command"], ["session_set_command"]}) == map["session_reset_command_list" := {["session_reset_command"], ["session_reset_command_list", "session_reset_command"]}, "session_set_command_list" := {["session_set_command"], ["session_set_command_list", "session_set_command"]}]
  {
    Test5Block1Lists1();
    var g: Grammar := map[];
    Step41();
    Step45();
    var w0: Grammar := map["session_reset_command_list" := {["session_reset_command"], ["session_reset_command_list", "session_reset_command"]}];
    assert Lookup(w0, "session_set_command_list") == {};
    assert Lookup(w0, "session_set_command_list") + {["session_set_command"], ["session_set_command_list", "session_set_command"]} == {["session_set_command"], ["session_set_command_list", "session_set_command"]};
    ListStep(g, {["session_reset_command"]}, ["session_set_command"], w0, "session_set_command_list", {["session_set_command"], ["session_set_command_list", "session_set_command"]}, map["session_reset_command_list" := {["session_reset_command"], ["session_reset_command_list", "session_reset_command"]}, "session_set_command_list" := {["session_set_command"], ["session_set_command_list", "session_set_command"]}]);
    assert {["session_reset_command"]} + {["session_set_command"]} == {["session_reset_command"], ["session_set_command"]};
  }

  /** test_5, block 1: its alternatives merged into its entry. */
  lemma Test5Block1Merge()
    ensures var w: Grammar := map["session_reset_command_list" := {["session_reset_command"], ["session_reset_command_list", "session_reset_command"]}, "session_set_command_list" := {["session_set_command"], ["session_set_command_list", "session_set_command"]}]; w["session_activity" := Lookup(w, "session_activity") + {["session_reset_command_list"], ["session_set_command_list"]}] == map["session_activity" := {["session_reset_command_list"], ["session_set_command_list"]}, "session_reset_command_list" := {["session_reset_command"], ["session_reset_command_list", "session_reset_command"]}, "session_set_command_list" := {["session_set_command"], ["session_set_command_list", "session_set_command"]}]
  {
    var w: Grammar := map["session_reset_command_list" := {["session_reset_command"], ["session_reset_command_list", "session_reset_command"]}, "session_set_command_list" := {["session_set_command"], ["session_set_command_list", "session_set_command"]}];
    assert Lookup(w, "session_activity") == {};
    assert {} + {["session_reset_command_list"], ["session_set_command_list"]} == {["session_reset_command_list"], ["session_set_command_list"]};
  }

  /** test_5: the map after block 1. */
  lemma Test5Block1()
    ensures ApplyRules(map[], [Rule("session activity", [Alternative([Repeat(Sym(Symbol.Nonterminal("session reset command")))]), Alternative([Repeat(Sym(Symbol.Nonterminal("session set command")))])])]) == map["session_activity" := {["session_reset_command_list"], ["session_set_command_list"]}, "session_reset_command_list" := {["session_reset_command"], ["session_reset_command_list", "session_reset_command"]}, "session_set_command_list" := {["session_set_command"], ["session_set_command_list", "session_set_command"]}]
  {
    Step44();
    Test5Block1Lists2();
    Step39();
    Test5Block1Merge();
    var g: Grammar := map[];
    var rules := [Rule("session activity", [Alternative([Repeat(Sym(Symbol.Nonterminal("session reset command")))]), Alternative([Repeat(Sym(Symbol.Nonterminal("session set command")))])])];
    assert rules[..0] == [];
    var w: Grammar := map["session_reset_command_list" := {["session_reset_command"], ["session_reset_command_list", "session_reset_command"]}, "session_set_command_list" := {["session_set_command"], ["session_set_command_list", "session_set_command"]}];
    BlockStep(rules, g, {["session_reset_command"], ["session_set_command"]}, w, "session_activity", {["session_reset_command_list"], ["session_set_command_list"]}, map["session_activity" := {["session_reset_command_list"], ["session_set_command_list"]}, "session_reset_command_list" := {["session_reset_command"], ["session_reset_command_list", "session_reset_command"]}, "session_set_command_list" := {["session_set_command"], ["session_set_command_list", "session_set_command"]}]);
  }

  /** The map the test expects. */
  lemma Test5()
    ensures Convert(Text5) == Some(map["session_activity" := {["session_reset_command_list"], ["session_set_command_list"]}, "session_reset_command_list" := {["session_reset_command"], ["session_reset_command_list", "session_reset_command"]}, "session_set_command_list" := {["session_set_command"], ["session_set_command_list", "session_set_command"]}])
  {
    Parsed5();
    Test5Block1();
  }


  // test_6, line 245 of the test file
  /** The grammar text of test_6 as its token sequence. */
  const Text6: seq<Token> := [BlockEnd, Token.Nonterminal("session activity"), Defines, Token.Nonterminal("session set command"), Ellipsis, LBrack, Token.Nonterminal("session reset command"), Ellipsis, RBrack]

  /** Tokens of test_6's text, four at a time. */
  lemma Text6Tokens1()
    ensures |Text6| == 9
    ensures Text6[0] == BlockEnd
    ensures Text6[1] == Token.Nonterminal("session activity")
    ensures Text6[2] == Defines
    ensures Text6[3] == Token.Nonterminal("session set command")
  {
  }

  /** Tokens of test_6's text, four at a time. */
  lemma Text6Tokens2()
    ensures Text6[4] == Ellipsis
    ensures Text6[5] == LBrack
    ensures Text6[6] == Token.Nonterminal("session reset command")
    ensures Text6[7] == Ellipsis
  {
  }

  /** Tokens of test_6's text, four at a time. */
  lemma Text6Tokens3()
    ensures Text6[8] == RBrack
  {
  }

  /** Parser results on test_6's text, in evaluation order (part 1). */
  lemma Parsed6Step1(ts: seq<Token>)
    requires |ts| == 9 && ts[0] == BlockEnd && ts[1] == Token.Nonterminal("session activity") && ts[2] == Defines && ts[3] == Token.Nonterminal("session set command") && ts[4] == Ellipsis && ts[5] == LBrack && ts[6] == Token.Nonterminal("session reset command") && ts[7] == Ellipsis && ts[8] == RBrack
    ensures SkipBlank(ts, 1) == 1
    ensures SkipBlank(ts, 0) == 1
    ensures ParseElement(ts, 3) == Parsed(Repeat(Sym(Symbol.Nonterminal("session set command"))), 5)
    ensures ParseElement(ts, 6) == Parsed(Repeat(Sym(Symbol.Nonterminal("session reset command"))), 8)
  {
  }

  /** Parser results on test_6's text, in evaluation order (part 2). */
  lemma Parsed6Step2(ts: seq<Token>)
    requires |ts| == 9 && ts[0] == BlockEnd && ts[1] == Token.Nonterminal("session activity") && ts[2] == Defines && ts[3] == Token.Nonterminal("session set command") && ts[4] == Ellipsis && ts[5] == LBrack && ts[6] == Token.Nonterminal("session reset command") && ts[7] == Ellipsis && ts[8] == RBrack
    ensures ParseItems(ts, 8) == Parsed([], 8)
    ensures [Repeat(Sym(Symbol.Nonterminal("session reset command")))] + [] == [Repeat(Sym(Symbol.Nonterminal("session reset command")))]
    ensures ParseAlternative(ts, 6) == Parsed(Alternative([Repeat(Sym(Symbol.Nonterminal("session reset command")))]), 8)
    ensures ParseMoreAlternatives(ts, 8) == Parsed([], 8)
  {
    Parsed6Step1(ts);
  }

  /** Parser results on test_6's text, in evaluation order (part 3). */
  lemma Parsed6Step3(ts: seq<Token>)
    requires |ts| == 9 && ts[0] == BlockEnd && ts[1] == Token.Nonterminal("session activity") && ts[2] == Defines && ts[3] == Token.Nonterminal("session set command") && ts[4] == Ellipsis && ts[5] == LBrack && ts[6] == Token.Nonterminal("session reset command") && ts[7] == Ellipsis && ts[8] == RBrack
    ensures [Alternative([Repeat(Sym(Symbol.Nonterminal("session reset command")))])] + [] == [Alternative([Repeat(Sym(Symbol.Nonterminal("session reset command")))])]
    ensures ParseAlternatives(ts, 6) == Parsed([Alternative([Repeat(Sym(Symbol.Nonterminal("session reset command")))])], 8)
    ensures ParseElement(ts, 5) == Parsed(Opt([Alternative([Repeat(Sym(Symbol.Nonterminal("session reset command")))])]), 9)
    ensures ParseItems(ts, 9) == Parsed([], 9)
  {
    Parsed6Step2(ts);
  }

  /** Parser results on test_6's text, in evaluation order (part 4). */
  lemma Parsed6Step4(ts: seq<Token>)
    requires |ts| == 9 && ts[0] == BlockEnd && ts[1] == Token.Nonterminal("session activity") && ts[2] == Defines && ts[3] == Token.Nonterminal("session set command") && ts[4] == Ellipsis && ts[5] == LBrack && ts[6] == Token.Nonterminal("session reset command") && ts[7] == Ellipsis && ts[8] == RBrack
    ensures [Opt([Alternative([Repeat(Sym(Symbol.Nonterminal("session reset command")))])])] + [] == [Opt([Alternative([Repeat(Sym(Symbol.Nonterminal("session reset command")))])])]
    ensures ParseItems(ts, 5) == Parsed([Opt([Alternative([Repeat(Sym(Symbol.Nonterminal("session reset command")))])])], 9)
    ensures [Repeat(Sym(Symbol.Nonterminal("session set command")))] + [Opt([Alternative([Repeat(Sym(Symbol.Nonterminal("session reset command")))])])] == [Repeat(Sym(Symbol.Nonterminal("session set command"))), Opt([Alternative([Repeat(Sym(Symbol.Nonterminal("session reset command")))])])]
    ensures ParseAlternative(ts, 3) == Parsed(Alternative([Repeat(Sym(Symbol.Nonterminal("session set command"))), Opt([Alternative([Repeat(Sym(Symbol.Nonterminal("session reset command")))])])]), 9)
  {
    Parsed6Step1(ts);
    Parsed6Step3(ts);
  }

  /** Parser results on test_6's text, in evaluation order (part 5). */
  lemma Parsed6Step5(ts: seq<Token>)
    requires |ts| == 9 && ts[0] == BlockEnd && ts[1] == Token.Nonterminal("session activity") && ts[2] == Defines && ts[3] == Token.Nonterminal("session set command") && ts[4] == Ellipsis && ts[5] == LBrack && ts[6] == Token.Nonterminal("session reset command") && ts[7] == Ellipsis && ts[8] == RBrack
    ensures ParseMoreAlternatives(ts, 9) == Parsed([], 9)
    ensures [Alternative([Repeat(Sym(Symbol.Nonterminal("session set command"))), Opt([Alternative([Repeat(Sym(Symbol.Nonterminal("session reset command")))])])])] + [] == [Alternative([Repeat(Sym(Symbol.Nonterminal("session set command"))), Opt([Alternative([Repeat(Sym(Symbol.Nonterminal("session reset command")))])])])]
    ensures ParseAlternatives(ts, 3) == Parsed([Alternative([Repeat(Sym(Symbol.Nonterminal("session set command"))), Opt([Alternative([Repeat(Sym(Symbol.Nonterminal("session reset command")))])])])], 9)
    ensures ParseRuleBody(ts, 3) == Parsed([Alternative([Repeat(Sym(Symbol.Nonterminal("session set command"))), Opt([Alternative([Repeat(Sym(Symbol.Nonterminal("session reset command")))])])])], 9)
  {
    Parsed6Step4(ts);
  }

  /** Parser results on test_6's text, in evaluation order (part 6). */
  lemma Parsed6Step6(ts: seq<Token>)
    requires |ts| == 9 && ts[0] == BlockEnd && ts[1] == Token.Nonterminal("session activity") && ts[2] == Defines && ts[3] == Token.Nonterminal("session set command") && ts[4] == Ellipsis && ts[5] == LBrack && ts[6] == Token.Nonterminal("session reset command") && ts[7] == Ellipsis && ts[8] == RBrack
    ensures ParseRule(ts, 1) == Parsed(Rule("session activity", [Alternative([Repeat(Sym(Symbol.Nonterminal("session set command"))), Opt([Alternative([Repeat(Sym(Symbol.Nonterminal("session reset command")))])])])]), 9)
    ensures ParseRules(ts, 1) == Some([Rule("session activity", [Alternative([Repeat(Sym(Symbol.Nonterminal("session set command"))), Opt([Alternative([Repeat(Sym(Symbol.Nonterminal("session reset command")))])])])])])
  {
    Parsed6Step5(ts);
  }

  /** The rule blocks test_6's text parses to. */
  lemma Parsed6()
    ensures Parse(Text6) == Some([Rule("session activity", [Alternative([Repeat(Sym(Symbol.Nonterminal("session set command"))), Opt([Alternative([Repeat(Sym(Symbol.Nonterminal("session reset command")))])])])])])
  {
    Text6Tokens1();
    Text6Tokens2();
    Text6Tokens3();
    Parsed6Step1(Text6);
    Parsed6Step2(Text6);
    Parsed6Step3(Text6);
    Parsed6Step4(Text6);
    Parsed6Step5(Text6);
    Parsed6Step6(Text6);
  }

  /** test_6, block 1: the map once list 1 of the block is defined. */
  lemma Test6Block1Lists1()
    ensures var g: Grammar := map[]; WithLists(g, {["session_reset_command"]}) == map["session_reset_command_list" := {["session_reset_command"], ["session_reset_command_list", "session_reset_command"]}]
  {
    var g: Grammar := map[];
    WithNoLists(g);
    Step34();
    Step38();
    var w0: Grammar := map[];
    assert Lookup(w0, "session_reset_command_list") == {};
    assert Lookup(w0, "session_reset_command_list") + {["session_reset_command"], ["session_reset_command_list", "session_reset_command"]} == {["session_reset_command"], ["session_reset_command_list", "session_reset_command"]};
    ListStep(g, {}, ["session_reset_command"], w0, "session_reset_command_list", {["session_reset_command"], ["session_reset_command_list", "session_reset_command"]}, map["session_reset_command_list" := {["session_reset_command"], ["session_reset_command_list", "session_reset_command"]}]);
    assert {} + {["session_reset_command"]} == {["session_reset_command"]};
  }

  /** test_6, block 1: the map once list 2 of the block is defined. */
  lemma Test6Block1Lists2()
    ensures var g: Grammar := map[]; WithLists(g, {["session_reset_command"], ["session_set_command"]}) == map["session_reset_command_list" := {["session_reset_command"], ["session_reset_command_list", "session_reset_command"]}, "session_set_command_list" := {["session_set_command"], ["session_set_command_list", "session_set_command"]}]
  {
    Test6Block1Lists1();
    var g: Grammar := map[];
    Step41();
    Step45();
    var w0: Grammar := map["session_reset_command_list" := {["session_reset_command"], ["session_reset_command_list", "session_reset_command"]}];
    assert Lookup(w0, "session_set_command_list") == {};
    assert Lookup(w0, "session_set_command_list") + {["session_set_command"], ["session_set_command_list", "session_set_command"]} == {["session_set_command"], ["session_set_command_list", "session_set_command"]};
    ListStep(g, {["session_reset_command"]}, ["session_set_command"], w0, "session_set_command_list", {["session_set_command"], ["session_set_command_list", "session_set_command"]}, map["session_reset_command_list" := {["session_reset_command"], ["session_reset_command_list", "session_reset_command"]}, "session_set_command_list" := {["session_set_command"], ["session_set_command_list", "session_set_command"]}]);
    assert {["session_reset_command"]} + {["session_set_command"]} == {["session_reset_command"], ["session_set_command"]};
  }

  /** test_6, block 1: its alternatives merged into its entry. */
  lemma Test6Block1Merge()
    ensures var w: Grammar := map["session_reset_command_list" := {["session_reset_command"], ["session_reset_command_list", "session_reset_command"]}, "session_set_command_list" := {["session_set_command"], ["session_set_command_list", "session_set_command"]}]; w["session_activity" := Lookup(w, "session_activity") + {["session_set_command_list", "session_reset_command_list"], ["session_set_command_list"]}] == map["session_activity" := {["session_set_command_list", "session_reset_command_list"], ["session_set_command_list"]}, "session_reset_command_list" := {["session_reset_command"], ["session_reset_command_list", "session_reset_command"]}, "session_set_command_list" := {["session_set_command"], ["session_set_command_list", "session_set_command"]}]
  {
    var w: Grammar := map["session_reset_command_list" := {["session_reset_command"], ["session_reset_command_list", "session_reset_command"]}, "session_set_command_list" := {["session_set_command"], ["session_set_command_list", "session_set_command"]}];
    assert Lookup(w, "session_activity") == {};
    assert {} + {["session_set_command_list", "session_reset_command_list"], ["session_set_command_list"]} == {["session_set_command_list", "session_reset_command_list"], ["session_set_command_list"]};
  }

  /** test_6: the map after block 1. */
  lemma Test6Block1()
    ensures ApplyRules(map[], [Rule("session activity", [Alternative([Repeat(Sym(Symbol.Nonterminal("session set command"))), Opt([Alternative([Repeat(Sym(Symbol.Nonterminal("session reset command")))])])])])]) == map["session_activity" := {["session_set_command_list", "session_reset_command_list"], ["session_set_command_list"]}, "session_reset_command_list" := {["session_reset_command"], ["session_reset_command_list", "session_reset_command"]}, "session_set_command_list" := {["session_set_command"], ["session_set_command_list", "session_set_command"]}]
  {
    Step50();
    Test6Block1Lists2();
    Step39();
    Test6Block1Merge();
    var g: Grammar := map[];
    var rules := [Rule("session activity", [Alternative([Repeat(Sym(Symbol.Nonterminal("session set command"))), Opt([Alternative([Repeat(Sym(Symbol.Nonterminal("session reset command")))])])])])];
    assert rules[..0] == [];
    var w: Grammar := map["session_reset_command_list" := {["session_reset_command"], ["session_reset_command_list", "session_reset_command"]}, "session_set_command_list" := {["session_set_command"], ["session_set_command_list", "session_set_command"]}];
    BlockStep(rules, g, {["session_reset_command"], ["session_set_command"]}, w, "session_activity", {["session_set_command_list", "session_reset_command_list"], ["session_set_command_list"]}, map["session_activity" := {["session_set_command_list", "session_reset_command_list"], ["session_set_command_list"]}, "session_reset_command_list" := {["session_reset_command"], ["session_reset_command_list", "session_reset_command"]}, "session_set_command_list" := {["session_set_command"], ["session_set_command_list", "session_set_command"]}]);
  }

  /** The map the test expects. */
  lemma Test6()
    ensures Convert(Text6) == Some(map["session_activity" := {["session_set_command_list", "session_reset_command_list"], ["session_set_command_list"]}, "session_reset_command_list" := {["session_reset_command"], ["session_reset_command_list", "session_reset_command"]}, "session_set_command_list" := {["session_set_command"], ["session_set_command_list", "session_set_command"]}])
  {
    Parsed6();
    Test6Block1();
  }


  // test_7, line 295 of the test file
  /** The grammar text of test_7 as its token sequence. */
  const Text7: seq<Token> := [BlockEnd, Token.Nonterminal("session activity"), Defines, Token.Nonterminal("session reset command"), Ellipsis, Bar, Token.Nonterminal("session set command"), Ellipsis, LBrack, Token.Nonterminal("session reset command"), Ellipsis, RBrack]

  /** Tokens of test_7's text, four at a time. */
  lemma Text7Tokens1()
    ensures |Text7| == 12
    ensures Text7[0] == BlockEnd
    ensures Text7[1] == Token.Nonterminal("session activity")
    ensures Text7[2] == Defines
    ensures Text7[3] == Token.Nonterminal("session reset command")
  {
  }

  /** Tokens of test_7's text, four at a time. */
  lemma Text7Tokens2()
    ensures Text7[4] == Ellipsis
    ensures Text7[5] == Bar
    ensures Text7[6] == Token.Nonterminal("session set command")
    ensures Text7[7] == Ellipsis
  {
  }

  /** Tokens of test_7's text, four at a time. */
  lemma Text7Tokens3()
    ensures Text7[8] == LBrack
    ensures Text7[9] == Token.Nonterminal("session reset command")
    ensures Text7[10] == Ellipsis
    ensures Text7[11] == RBrack
  {
  }

  /** Parser results on test_7's text, in evaluation order (part 1). */
  lemma Parsed7Step1(ts: seq<Token>)
    requires |ts| == 12 && ts[0] == BlockEnd && ts[1] == Token.Nonterminal("session activity") && ts[2] == Defines && ts[3] == Token.Nonterminal("session reset command") && ts[4] == Ellipsis && ts[5] == Bar && ts[6] == Token.Nonterminal("session set command") && ts[7] == Ellipsis && ts[8] == LBrack && ts[9] == Token.Nonterminal("session reset command") && ts[10] == Ellipsis && ts[11] == RBrack
    ensures SkipBlank(ts, 1) == 1
    ensures SkipBlank(ts, 0) == 1
    ensures ParseElement(ts, 3) == Parsed(Repeat(Sym(Symbol.Nonterminal("session reset command"))), 5)
    ensures ParseItems(ts, 5) == Parsed([], 5)
  {
  }

  /** Parser results on test_7's text, in evaluation order (part 2). */
  lemma Parsed7Step2(ts: seq<Token>)
    requires |ts| == 12 && ts[0] == BlockEnd && ts[1] == Token.Nonterminal("session activity") && ts[2] == Defines && ts[3] == Token.Nonterminal("session reset command") && ts[4] == Ellipsis && ts[5] == Bar && ts[6] == Token.Nonterminal("session set command") && ts[7] == Ellipsis && ts[8] == LBrack && ts[9] == Token.Nonterminal("session reset command") && ts[10] == Ellipsis && ts[11] == RBrack
    ensures [Repeat(Sym(Symbol.Nonterminal("session reset command")))] + [] == [Repeat(Sym(Symbol.Nonterminal("session reset command")))]
    ensures ParseAlternative(ts, 3) == Parsed(Alternative([Repeat(Sym(Symbol.Nonterminal("session reset command")))]), 5)
    ensures ParseElement(ts, 6) == Parsed(Repeat(Sym(Symbol.Nonterminal("session set command"))), 8)
    ensures ParseElement(ts, 9) == Parsed(Repeat(Sym(Symbol.Nonterminal("session reset command"))), 11)
  {
    Parsed7Step1(ts);
  }

  /** Parser results on test_7's text, in evaluation order (part 3). */
  lemma Parsed7Step3(ts: seq<Token>)
    requires |ts| == 12 && ts[0] == BlockEnd && ts[1] == Token.Nonterminal("session activity") && ts[2] == Defines && ts[3] == Token.Nonterminal("session reset command") && ts[4] == Ellipsis && ts[5] == Bar && ts[6] == Token.Nonterminal("session set command") && ts[7] == Ellipsis && ts[8] == LBrack && ts[9] == Token.Nonterminal("session reset command") && ts[10] == Ellipsis && ts[11] == RBrack
    ensures ParseItems(ts, 11) == Parsed([], 11)
    ensures [Repeat(Sym(Symbol.Nonterminal("session reset command")))] + [] == [Repeat(Sym(Symbol.Nonterminal("session reset command")))]
    ensures ParseAlternative(ts, 9) == Parsed(Alternative([Repeat(Sym(Symbol.Nonterminal("session reset command")))]), 11)
    ensures ParseMoreAlternatives(ts, 11) == Parsed([], 11)
  {
    Parsed7Step2(ts);
  }

  /** Parser results on test_7's text, in evaluation order (part 4). */
  lemma Parsed7Step4(ts: seq<Token>)
    requires |ts| == 12 && ts[0] == BlockEnd && ts[1] == Token.Nonterminal("session activity") && ts[2] == Defines && ts[3] == Token.Nonterminal("session reset command") && ts[4] == Ellipsis && ts[5] == Bar && ts[6] == Token.Nonterminal("session set command") && ts[7] == Ellipsis && ts[8] == LBrack && ts[9] == Token.Nonterminal("session reset command") && ts[10] == Ellipsis && ts[11] == RBrack
    ensures [Alternative([Repeat(Sym(Symbol.Nonterminal("session reset command")))])] + [] == [Alternative([Repeat(Sym(Symbol.Nonterminal("session reset command")))])]
    ensures ParseAlternatives(ts, 9) == Parsed([Alternative([Repeat(Sym(Symbol.Nonterminal("session reset command")))])], 11)
    ensures ParseElement(ts, 8) == Parsed(Opt([Alternative([Repeat(Sym(Symbol.Nonterminal("session reset command")))])]), 12)
    ensures ParseItems(ts, 12) == Parsed([], 12)
  {
    Parsed7Step3(ts);
  }

  /** Parser results on test_7's text, in evaluation order (part 5). */
  lemma Parsed7Step5(ts: seq<Token>)
    requires |ts| == 12 && ts[0] == BlockEnd && ts[1] == Token.Nonterminal("session activity") && ts[2] == Defines && ts[3] == Token.Nonterminal("session reset command") && ts[4] == Ellipsis && ts[5] == Bar && ts[6] == Token.Nonterminal("session set command") && ts[7] == Ellipsis && ts[8] == LBrack && ts[9] == Token.Nonterminal("session reset command") && ts[10] == Ellipsis && ts[11] == RBrack
    ensures [Opt([Alternative([Repeat(Sym(Symbol.Nonterminal("session reset command")))])])] + [] == [Opt([Alternative([Repeat(Sym(Symbol.Nonterminal("session reset command")))])])]
    ensures ParseItems(ts, 8) == Parsed([Opt([Alternative([Repeat(Sym(Symbol.Nonterminal("session reset command")))])])], 12)
    ensures [Repeat(Sym(Symbol.Nonterminal("session set command")))] + [Opt([Alternative([Repeat(Sym(Symbol.Nonterminal("session reset command")))])])] == [Repeat(Sym(Symbol.Nonterminal("session set command"))), Opt([Alternative([Repeat(Sym(Symbol.Nonterminal("session reset command")))])])]
    ensures ParseAlternative(ts, 6) == Parsed(Alternative([Repeat(Sym(Symbol.Nonterminal("session set command"))), Opt([Alternative([Repeat(Sym(Symbol.Nonterminal("session reset command")))])])]), 12)
  {
    Parsed7Step2(ts);
    Parsed7Step4(ts);
  }

  /** Parser results on test_7's text, in evaluation order (part 6). */
  lemma Parsed7Step6(ts: seq<Token>)
    requires |ts| == 12 && ts[0] == BlockEnd && ts[1] == Token.Nonterminal("session activity") && ts[2] == Defines && ts[3] == Token.Nonterminal("session reset command") && ts[4] == Ellipsis && ts[5] == Bar && ts[6] == Token.Nonterminal("session set command") && ts[7] == Ellipsis && ts[8] == LBrack && ts[9] == Token.Nonterminal("session reset command") && ts[10] == Ellipsis && ts[11] == RBrack
    ensures ParseMoreAlternatives(ts, 12) == Parsed([], 12)
    ensures [Alternative([Repeat(Sym(Symbol.Nonterminal("session set command"))), Opt([Alternative([Repeat(Sym(Symbol.Nonterminal("session reset command")))])])])] + [] == [Alternative([Repeat(Sym(Symbol.Nonterminal("session set command"))), Opt([Alternative([Repeat(Sym(Symbol.Nonterminal("session reset command")))])])])]
    ensures ParseMoreAlternatives(ts, 5) == Parsed([Alternative([Repeat(Sym(Symbol.Nonterminal("session set command"))), Opt([Alternative([Repeat(Sym(Symbol.Nonterminal("session reset command")))])])])], 12)
    ensures [Alternative([Repeat(Sym(Symbol.Nonterminal("session reset command")))])] + [Alternative([Repeat(Sym(Symbol.Nonterminal("session set command"))), Opt([Alternative([Repeat(Sym(Symbol.Nonterminal("session reset command")))])])])] == [Alternative([Repeat(Sym(Symbol.Nonterminal("session reset command")))]), Alternative([Repeat(Sym(Symbol.Nonterminal("session set command"))), Opt([Alternative([Repeat(Sym(Symbol.Nonterminal("session reset command")))])])])]
  {
    Parsed7Step5(ts);
  }

  /** Parser results on test_7's text, in evaluation order (part 7). */
  lemma Parsed7Step7(ts: seq<Token>)
    requires |ts| == 12 && ts[0] == BlockEnd && ts[1] == Token.Nonterminal("session activity") && ts[2] == Defines && ts[3] == Token.Nonterminal("session reset command") && ts[4] == Ellipsis && ts[5] == Bar && ts[6] == Token.Nonterminal("session set command") && ts[7] == Ellipsis && ts[8] == LBrack && ts[9] == Token.Nonterminal("session reset command") && ts[10] == Ellipsis && ts[11] == RBrack
    ensures ParseAlternatives(ts, 3) == Parsed([Alternative([Repeat(Sym(Symbol.Nonterminal("session reset command")))]), Alternative([Repeat(Sym(Symbol.Nonterminal("session set command"))), Opt([Alternative([Repeat(Sym(Symbol.Nonterminal("session reset command")))])])])], 12)
    ensures ParseRuleBody(ts, 3) == Parsed([Alternative([Repeat(Sym(Symbol.Nonterminal("session reset command")))]), Alternative([Repeat(Sym(Symbol.Nonterminal("session set command"))), Opt([Alternative([Repeat(Sym(Symbol.Nonterminal("session reset command")))])])])], 12)
    ensures ParseRule(ts, 1) == Parsed(Rule("session activity", [Alternative([Repeat(Sym(Symbol.Nonterminal("session reset command")))]), Alternative([Repeat(Sym(Symbol.Nonterminal("session set command"))), Opt([Alternative([Repeat(Sym(Symbol.Nonterminal("session reset command")))])])])]), 12)
    ensures ParseRules(ts, 1) == Some([Rule("session activity", [Alternative([Repeat(Sym(Symbol.Nonterminal("session reset command")))]), Alternative([Repeat(Sym(Symbol.Nonterminal("session set command"))), Opt([Alternative([Repeat(Sym(Symbol.Nonterminal("session reset command")))])])])])])
  {
    Parsed7Step2(ts);
    Parsed7Step6(ts);
  }

  /** The rule blocks test_7's text parses to. */
  lemma Parsed7()
    ensures Parse(Text7) == Some([Rule("session activity", [Alternative([Repeat(Sym(Symbol.Nonterminal("session reset command")))]), Alternative([Repeat(Sym(Symbol.Nonterminal("session set command"))), Opt([Alternative([Repeat(Sym(Symbol.Nonterminal("session reset command")))])])])])])
  {
    Text7Tokens1();
    Text7Tokens2();
    Text7Tokens3();
    Parsed7Step1(Text7);
    Parsed7Step2(Text7);
    Parsed7Step3(Text7);
    Parsed7Step4(Text7);
    Parsed7Step5(Text7);
    Parsed7Step6(Text7);
    Parsed7Step7(Text7);
  }

  /** test_7, block 1: the map once list 1 of the block is defined. */
  lemma Test7Block1Lists1()
    ensures var g: Grammar := map[]; WithLists(g, {["session_reset_command"]}) == map["session_reset_command_list" := {["session_reset_command"], ["session_reset_command_list", "session_reset_command"]}]
  {
    var g: Grammar := map[];
    WithNoLists(g);
    Step34();
    Step38();
    var w0: Grammar := map[];
    assert Lookup(w0, "session_reset_command_list") == {};
    assert Lookup(w0, "session_reset_command_list") + {["session_reset_command"], ["session_reset_command_list", "session_reset_command"]} == {["session_reset_command"], ["session_reset_command_list", "session_reset_command"]};
    ListStep(g, {}, ["session_reset_command"], w0, "session_reset_command_list", {["session_reset_command"], ["session_reset_command_list", "session_reset_command"]}, map["session_reset_command_list" := {["session_reset_command"], ["session_reset_command_list", "session_reset_command"]}]);
    assert {} + {["session_reset_command"]} == {["session_reset_command"]};
  }

  /** test_7, block 1: the map once list 2 of the block is defined. */
  lemma Test7Block1Lists2()
    ensures var g: Grammar := map[]; WithLists(g, {["session_reset_command"], ["session_set_command"]}) == map["session_reset_command_list" := {["session_reset_command"], ["session_reset_command_list", "session_reset_command"]}, "session_set_command_list" := {["session_set_command"], ["session_set_command_list", "session_set_command"]}]
  {
    Test7Block1Lists1();
    var g: Grammar := map[];
    Step41();
    Step45();
    var w0: Grammar := map["session_reset_command_list" := {["session_reset_command"], ["session_reset_command_list", "session_reset_command"]}];
    assert Lookup(w0, "session_set_command_list") == {};
    assert Lookup(w0, "session_set_command_list") + {["session_set_command"], ["session_set_command_list", "session_set_command"]} == {["session_set_command"], ["session_set_command_list", "session_set_command"]};
    ListStep(g, {["session_reset_command"]}, ["session_set_command"], w0, "session_set_command_list", {["session_set_command"], ["session_set_command_list", "session_set_command"]}, map["session_reset_command_list" := {["session_reset_command"], ["session_reset_command_list", "session_reset_command"]}, "session_set_command_list" := {["session_set_command"], ["session_set_command_list", "session_set_command"]}]);
    assert {["session_reset_command"]} + {["session_set_command"]} == {["session_reset_command"], ["session_set_command"]};
  }

  /** test_7, block 1: its alternatives merged into its entry. */
  lemma Test7Block1Merge()
    ensures var w: Grammar := map["session_reset_command_list" := {["session_reset_command"], ["session_reset_command_list", "session_reset_command"]}, "session_set_command_list" := {["session_set_command"], ["session_set_command_list", "session_set_command"]}]; w["session_activity" := Lookup(w, "session_activity") + {["session_reset_command_list"], ["session_set_command_list", "session_reset_command_list"], ["session_set_command_list"]}] == map["session_activity" := {["session_reset_command_list"], ["session_set_command_list", "session_reset_command_list"], ["session_set_command_list"]}, "session_reset_command_list" := {["session_reset_command"], ["session_reset_command_list", "session_reset_command"]}, "session_set_command_list" := {["session_set_command"], ["session_set_command_list", "session_set_command"]}]
  {
    var w: Grammar := map["session_reset_command_list" := {["session_reset_command"], ["session_reset_command_list", "session_reset_command"]}, "session_set_command_list" := {["session_set_command"], ["session_set_command_list", "session_set_command"]}];
    assert Lookup(w, "session_activity") == {};
    assert {} + {["session_reset_command_list"], ["session_set_command_list", "session_reset_command_list"], ["session_set_command_list"]} == {["session_reset_command_list"], ["session_set_command_list", "session_reset_command_list"], ["session_set_command_list"]};
  }

  /** test_7: the map after block 1. */
  lemma Test7Block1()
    ensures ApplyRules(map[], [Rule("session activity", [Alternative([Repeat(Sym(Symbol.Nonterminal("session reset command")))]), Alternative([Repeat(Sym(Symbol.Nonterminal("session set command"))), Opt([Alternative([Repeat(Sym(Symbol.Nonterminal("session reset command")))])])])])]) == map["session_activity" := {["session_reset_command_list"], ["session_set_command_list", "session_reset_command_list"], ["session_set_command_list"]}, "session_reset_command_list" := {["session_reset_command"], ["session_reset_command_list", "session_reset_command"]}, "session_set_command_list" := {["session_set_command"], ["session_set_command_list", "session_set_command"]}]
  {
    Step51();
    Test7Block1Lists2();
    Step39();
    Test7Block1Merge();
    var g: Grammar := map[];
    var rules := [Rule("session activity", [Alternative([Repeat(Sym(Symbol.Nonterminal("session reset command")))]), Alternative([Repeat(Sym(Symbol.Nonterminal("session set command"))), Opt([Alternative([Repeat(Sym(Symbol.Nonterminal("session reset command")))])])])])];
    assert rules[..0] == [];
    var w: Grammar := map["session_reset_command_list" := {["session_reset_command"], ["session_reset_command_list", "session_reset_command"]}, "session_set_command_list" := {["session_set_command"], ["session_set_command_list", "session_set_command"]}];
    BlockStep(rules, g, {["session_reset_command"], ["session_set_command"]}, w, "session_activity", {["session_reset_command_list"], ["session_set_command_list", "session_reset_command_list"], ["session_set_command_list"]}, map["session_activity" := {["session_reset_command_list"], ["session_set_command_list", "session_reset_command_list"], ["session_set_command_list"]}, "session_reset_command_list" := {["session_reset_command"], ["session_reset_command_list", "session_reset_command"]}, "session_set_command_list" := {["session_set_command"], ["session_set_command_list", "session_set_command"]}]);
  }

  /** The map the test expects. */
  lemma Test7()
    ensures Convert(Text7) == Some(map["session_activity" := {["session_reset_command_list"], ["session_set_command_list", "session_reset_command_list"], ["session_set_command_list"]}, "session_reset_command_list" := {["session_reset_command"], ["session_reset_command_list", "session_reset_command"]}, "session_set_command_list" := {["session_set_command"], ["session_set_command_list", "session_set_command"]}])
  {
    Parsed7();
    Test7Block1();
  }


  // test_8, line 347 of the test file
  /** The grammar text of test_8 as its token sequence. */
  const Text8: seq<Token> := [BlockEnd, Token.Nonterminal("transaction characteristics"), Defines, Token.Nonterminal("transaction mode 1"), LBrace, Token.Nonterminal("comma"), Token.Nonterminal("transaction mode 2"), RBrace]

  /** Tokens of test_8's text, four at a time. */
  lemma Text8Tokens1()
    ensures |Text8| == 8
    ensures Text8[0] == BlockEnd
    ensures Text8[1] == Token.Nonterminal("transaction characteristics")
    ensures Text8[2] == Defines
    ensures Text8[3] == Token.Nonterminal("transaction mode 1")
  {
  }

  /** Tokens of test_8's text, four at a time. */
  lemma Text8Tokens2()
    ensures Text8[4] == LBrace
    ensures Text8[5] == Token.Nonterminal("comma")
    ensures Text8[6] == Token.Nonterminal("transaction mode 2")
    ensures Text8[7] == RBrace
  {
  }

  /** Parser results on test_8's text, in evaluation order (part 1). */
  lemma Parsed8Step1(ts: seq<Token>)
    requires |ts| == 8 && ts[0] == BlockEnd && ts[1] == Token.Nonterminal("transaction characteristics") && ts[2] == Defines && ts[3] == Token.Nonterminal("transaction mode 1") && ts[4] == LBrace && ts[5] == Token.Nonterminal("comma") && ts[6] == Token.Nonterminal("transaction mode 2") && ts[7] == RBrace
    ensures SkipBlank(ts, 1) == 1
    ensures SkipBlank(ts, 0) == 1
    ensures ParseElement(ts, 3) == Parsed(Sym(Symbol.Nonterminal("transaction mode 1")), 4)
    ensures ParseElement(ts, 5) == Parsed(Sym(Symbol.Nonterminal("comma")), 6)
  {
  }

  /** Parser results on test_8's text, in evaluation order (part 2). */
  lemma Parsed8Step2(ts: seq<Token>)
    requires |ts| == 8 && ts[0] == BlockEnd && ts[1] == Token.Nonterminal("transaction characteristics") && ts[2] == Defines && ts[3] == Token.Nonterminal("transaction mode 1") && ts[4] == LBrace && ts[5] == Token.Nonterminal("comma") && ts[6] == Token.Nonterminal("transaction mode 2") && ts[7] == RBrace
    ensures ParseElement(ts, 6) == Parsed(Sym(Symbol.Nonterminal("transaction mode 2")), 7)
    ensures ParseItems(ts, 7) == Parsed([], 7)
    ensures [Sym(Symbol.Nonterminal("transaction mode 2"))] + [] == [Sym(Symbol.Nonterminal("transaction mode 2"))]
    ensures ParseItems(ts, 6) == Parsed([Sym(Symbol.Nonterminal("transaction mode 2"))], 7)
  {
  }

  /** Parser results on test_8's text, in evaluation order (part 3). */
  lemma Parsed8Step3(ts: seq<Token>)
    requires |ts| == 8 && ts[0] == BlockEnd && ts[1] == Token.Nonterminal("transaction characteristics") && ts[2] == Defines && ts[3] == Token.Nonterminal("transaction mode 1") && ts[4] == LBrace && ts[5] == Token.Nonterminal("comma") && ts[6] == Token.Nonterminal("transaction mode 2") && ts[7] == RBrace
    ensures [Sym(Symbol.Nonterminal("comma"))] + [Sym(Symbol.Nonterminal("transaction mode 2"))] == [Sym(Symbol.Nonterminal("comma")), Sym(Symbol.Nonterminal("transaction mode 2"))]
    ensures ParseAlternative(ts, 5) == Parsed(Alternative([Sym(Symbol.Nonterminal("comma")), Sym(Symbol.Nonterminal("transaction mode 2"))]), 7)
    ensures ParseMoreAlternatives(ts, 7) == Parsed([], 7)
    ensures [Alternative([Sym(Symbol.Nonterminal("comma")), Sym(Symbol.Nonterminal("transaction mode 2"))])] + [] == [Alternative([Sym(Symbol.Nonterminal("comma")), Sym(Symbol.Nonterminal("transaction mode 2"))])]
  {
    Parsed8Step1(ts);
    Parsed8Step2(ts);
  }

  /** Parser results on test_8's text, in evaluation order (part 4). */
  lemma Parsed8Step4(ts: seq<Token>)
    requires |ts| == 8 && ts[0] == BlockEnd && ts[1] == Token.Nonterminal("transaction characteristics") && ts[2] == Defines && ts[3] == Token.Nonterminal("transaction mode 1") && ts[4] == LBrace && ts[5] == Token.Nonterminal("comma") && ts[6] == Token.Nonterminal("transaction mode 2") && ts[7] == RBrace
    ensures ParseAlternatives(ts, 5) == Parsed([Alternative([Sym(Symbol.Nonterminal("comma")), Sym(Symbol.Nonterminal("transaction mode 2"))])], 7)
    ensures ParseElement(ts, 4) == Parsed(Group([Alternative([Sym(Symbol.Nonterminal("comma")), Sym(Symbol.Nonterminal("transaction mode 2"))])]), 8)
    ensures ParseItems(ts, 8) == Parsed([], 8)
    ensures [Group([Alternative([Sym(Symbol.Nonterminal("comma")), Sym(Symbol.Nonterminal("transaction mode 2"))])])] + [] == [Group([Alternative([Sym(Symbol.Nonterminal("comma")), Sym(Symbol.Nonterminal("transaction mode 2"))])])]
  {
    Parsed8Step3(ts);
  }

  /** Parser results on test_8's text, in evaluation order (part 5). */
  lemma Parsed8Step5(ts: seq<Token>)
    requires |ts| == 8 && ts[0] == BlockEnd && ts[1] == Token.Nonterminal("transaction characteristics") && ts[2] == Defines && ts[3] == Token.Nonterminal("transaction mode 1") && ts[4] == LBrace && ts[5] == Token.Nonterminal("comma") && ts[6] == Token.Nonterminal("transaction mode 2") && ts[7] == RBrace
    ensures ParseItems(ts, 4) == Parsed([Group([Alternative([Sym(Symbol.Nonterminal("comma")), Sym(Symbol.Nonterminal("transaction mode 2"))])])], 8)
    ensures [Sym(Symbol.Nonterminal("transaction mode 1"))] + [Group([Alternative([Sym(Symbol.Nonterminal("comma")), Sym(Symbol.Nonterminal("transaction mode 2"))])])] == [Sym(Symbol.Nonterminal("transaction mode 1")), Group([Alternative([Sym(Symbol.Nonterminal("comma")), Sym(Symbol.Nonterminal("transaction mode 2"))])])]
    ensures ParseAlternative(ts, 3) == Parsed(Alternative([Sym(Symbol.Nonterminal("transaction mode 1")), Group([Alternative([Sym(Symbol.Nonterminal("comma")), Sym(Symbol.Nonterminal("transaction mode 2"))])])]), 8)
    ensures ParseMoreAlternatives(ts, 8) == Parsed([], 8)
  {
    Parsed8Step1(ts);
    Parsed8Step4(ts);
  }

  /** Parser results on test_8's text, in evaluation order (part 6). */
  lemma Parsed8Step6(ts: seq<Token>)
    requires |ts| == 8 && ts[0] == BlockEnd && ts[1] == Token.Nonterminal("transaction characteristics") && ts[2] == Defines && ts[3] == Token.Nonterminal("transaction mode 1") && ts[4] == LBrace && ts[5] == Token.Nonterminal("comma") && ts[6] == Token.Nonterminal("transaction mode 2") && ts[7] == RBrace
    ensures [Alternative([Sym(Symbol.Nonterminal("transaction mode 1")), Group([Alternative([Sym(Symbol.Nonterminal("comma")), Sym(Symbol.Nonterminal("transaction mode 2"))])])])] + [] == [Alternative([Sym(Symbol.Nonterminal("transaction mode 1")), Group([Alternative([Sym(Symbol.Nonterminal("comma")), Sym(Symbol.Nonterminal("transaction mode 2"))])])])]
    ensures ParseAlternatives(ts, 3) == Parsed([Alternative([Sym(Symbol.Nonterminal("transaction mode 1")), Group([Alternative([Sym(Symbol.Nonterminal("comma")), Sym(Symbol.Nonterminal("transaction mode 2"))])])])], 8)
    ensures ParseRuleBody(ts, 3) == Parsed([Alternative([Sym(Symbol.Nonterminal("transaction mode 1")), Group([Alternative([Sym(Symbol.Nonterminal("comma")), Sym(Symbol.Nonterminal("transaction mode 2"))])])])], 8)
    ensures ParseRule(ts, 1) == Parsed(Rule("transaction characteristics", [Alternative([Sym(Symbol.Nonterminal("transaction mode 1")), Group([Alternative([Sym(Symbol.Nonterminal("comma")), Sym(Symbol.Nonterminal("transaction mode 2"))])])])]), 8)
  {
    Parsed8Step5(ts);
  }

  /** Parser results on test_8's text, in evaluation order (part 7). */
  lemma Parsed8Step7(ts: seq<Token>)
    requires |ts| == 8 && ts[0] == BlockEnd && ts[1] == Token.Nonterminal("transaction characteristics") && ts[2] == Defines && ts[3] == Token.Nonterminal("transaction mode 1") && ts[4] == LBrace && ts[5] == Token.Nonterminal("comma") && ts[6] == Token.Nonterminal("transaction mode 2") && ts[7] == RBrace
    ensures ParseRules(ts, 1) == Some([Rule("transaction characteristics", [Alternative([Sym(Symbol.Nonterminal("transaction mode 1")), Group([Alternative([Sym(Symbol.Nonterminal("comma")), Sym(Symbol.Nonterminal("transaction mode 2"))])])])])])
  {
    Parsed8Step6(ts);
  }

  /** The rule blocks test_8's text parses to. */
  lemma Parsed8()
    ensures Parse(Text8) == Some([Rule("transaction characteristics", [Alternative([Sym(Symbol.Nonterminal("transaction mode 1")), Group([Alternative([Sym(Symbol.Nonterminal("comma")), Sym(Symbol.Nonterminal("transaction mode 2"))])])])])])
  {
    Text8Tokens1();
    Text8Tokens2();
    Parsed8Step1(Text8);
    Parsed8Step2(Text8);
    Parsed8Step3(Text8);
    Parsed8Step4(Text8);
    Parsed8Step5(Text8);
    Parsed8Step6(Text8);
    Parsed8Step7(Text8);
  }

  /** test_8, block 1: its alternatives merged into its entry. */
  lemma Test8Block1Merge()
    ensures var w: Grammar := map[]; w["transaction_characteristics" := Lookup(w, "transaction_characteristics") + {["transaction_mode_1", "comma", "transaction_mode_2"]}] == map["transaction_characteristics" := {["transaction_mode_1", "comma", "transaction_mode_2"]}]
  {
    var w: Grammar := map[];
    assert Lookup(w, "transaction_characteristics") == {};
    assert {} + {["transaction_mode_1", "comma", "transaction_mode_2"]} == {["transaction_mode_1", "comma", "transaction_mode_2"]};
  }

  /** test_8: the map after block 1. */
  lemma Test8Block1()
    ensures ApplyRules(map[], [Rule("transaction characteristics", [Alternative([Sym(Symbol.Nonterminal("transaction mode 1")), Group([Alternative([Sym(Symbol.Nonterminal("comma")), Sym(Symbol.Nonterminal("transaction mode 2"))])])])])]) == map["transaction_characteristics" := {["transaction_mode_1", "comma", "transaction_mode_2"]}]
  {
    Step63();
    Step64();
    Test8Block1Merge();
    var g: Grammar := map[];
    WithNoLists(g);
    var rules := [Rule("transaction characteristics", [Alternative([Sym(Symbol.Nonterminal("transaction mode 1")), Group([Alternative([Sym(Symbol.Nonterminal("comma")), Sym(Symbol.Nonterminal("transaction mode 2"))])])])])];
    assert rules[..0] == [];
    var w: Grammar := map[];
    BlockStep(rules, g, {}, w, "transaction_characteristics", {["transaction_mode_1", "comma", "transaction_mode_2"]}, map["transaction_characteristics" := {["transaction_mode_1", "comma", "transaction_mode_2"]}]);
  }

  /** The map the test expects. */
  lemma Test8()
    ensures Convert(Text8) == Some(map["transaction_characteristics" := {["transaction_mode_1", "comma", "transaction_mode_2"]}])
  {
    Parsed8();
    Test8Block1();
  }


  // test_9, line 380 of the test file
  /** The grammar text of test_9 as its token sequence. */
  const Text9: seq<Token> := [BlockEnd, Token.Nonterminal("transaction characteristics"), Defines, Token.Nonterminal("transaction mode 1"), LBrace, Token.Nonterminal("comma"), Token.Nonterminal("transaction mode 2"), RBrace, Ellipsis]

  /** Tokens of test_9's text, four at a time. */
  lemma Text9Tokens1()
    ensures |Text9| == 9
    ensures Text9[0] == BlockEnd
    ensures Text9[1] == Token.Nonterminal("transaction characteristics")
    ensures Text9[2] == Defines
    ensures Text9[3] == Token.Nonterminal("transaction mode 1")
  {
  }

  /** Tokens of test_9's text, four at a time. */
  lemma Text9Tokens2()
    ensures Text9[4] == LBrace
    ensures Text9[5] == Token.Nonterminal("comma")
    ensures Text9[6] == Token.Nonterminal("transaction mode 2")
    ensures Text9[7] == RBrace
  {
  }

  /** Tokens of test_9's text, four at a time. */
  lemma Text9Tokens3()
    ensures Text9[8] == Ellipsis
  {
  }

  /** Parser results on test_9's text, in evaluation order (part 1). */
  lemma Parsed9Step1(ts: seq<Token>)
    requires |ts| == 9 && ts[0] == BlockEnd && ts[1] == Token.Nonterminal("transaction characteristics") && ts[2] == Defines && ts[3] == Token.Nonterminal("transaction mode 1") && ts[4] == LBrace && ts[5] == Token.Nonterminal("comma") && ts[6] == Token.Nonterminal("transaction mode 2") && ts[7] == RBrace && ts[8] == Ellipsis
    ensures SkipBlank(ts, 1) == 1
    ensures SkipBlank(ts, 0) == 1
    ensures ParseElement(ts, 3) == Parsed(Sym(Symbol.Nonterminal("transaction mode 1")), 4)
    ensures ParseElement(ts, 5) == Parsed(Sym(Symbol.Nonterminal("comma")), 6)
  {
  }

  /** Parser results on test_9's text, in evaluation order (part 2). */
  lemma Parsed9Step2(ts: seq<Token>)
    requires |ts| == 9 && ts[0] == BlockEnd && ts[1] == Token.Nonterminal("transaction characteristics") && ts[2] == Defines && ts[3] == Token.Nonterminal("transaction mode 1") && ts[4] == LBrace && ts[5] == Token.Nonterminal("comma") && ts[6] == Token.Nonterminal("transaction mode 2") && ts[7] == RBrace && ts[8] == Ellipsis
    ensures ParseElement(ts, 6) == Parsed(Sym(Symbol.Nonterminal("transaction mode 2")), 7)
    ensures ParseItems(ts, 7) == Parsed([], 7)
    ensures [Sym(Symbol.Nonterminal("transaction mode 2"))] + [] == [Sym(Symbol.Nonterminal("transaction mode 2"))]
    ensures ParseItems(ts, 6) == Parsed([Sym(Symbol.Nonterminal("transaction mode 2"))], 7)
  {
  }

  /** Parser results on test_9's text, in evaluation order (part 3). */
  lemma Parsed9Step3(ts: seq<Token>)
    requires |ts| == 9 && ts[0] == BlockEnd && ts[1] == Token.Nonterminal("transaction characteristics") && ts[2] == Defines && ts[3] == Token.Nonterminal("transaction mode 1") && ts[4] == LBrace && ts[5] == Token.Nonterminal("comma") && ts[6] == Token.Nonterminal("transaction mode 2") && ts[7] == RBrace && ts[8] == Ellipsis
    ensures [Sym(Symbol.Nonterminal("comma"))] + [Sym(Symbol.Nonterminal("transaction mode 2"))] == [Sym(Symbol.Nonterminal("comma")), Sym(Symbol.Nonterminal("transaction mode 2"))]
    ensures ParseAlternative(ts, 5) == Parsed(Alternative([Sym(Symbol.Nonterminal("comma")), Sym(Symbol.Nonterminal("transaction mode 2"))]), 7)
    ensures ParseMoreAlternatives(ts, 7) == Parsed([], 7)
    ensures [Alternative([Sym(Symbol.Nonterminal("comma")), Sym(Symbol.Nonterminal("transaction mode 2"))])] + [] == [Alternative([Sym(Symbol.Nonterminal("comma")), Sym(Symbol.Nonterminal("transaction mode 2"))])]
  {
    Parsed9Step1(ts);
    Parsed9Step2(ts);
  }

  /** Parser results on test_9's text, in evaluation order (part 4). */
  lemma Parsed9Step4(ts: seq<Token>)
    requires |ts| == 9 && ts[0] == BlockEnd && ts[1] == Token.Nonterminal("transaction characteristics") && ts[2] == Defines && ts[3] == Token.Nonterminal("transaction mode 1") && ts[4] == LBrace && ts[5] == Token.Nonterminal("comma") && ts[6] == Token.Nonterminal("transaction mode 2") && ts[7] == RBrace && ts[8] == Ellipsis
    ensures ParseAlternatives(ts, 5) == Parsed([Alternative([Sym(Symbol.Nonterminal("comma")), Sym(Symbol.Nonterminal("transaction mode 2"))])], 7)
    ensures ParseElement(ts, 4) == Parsed(Repeat(Group([Alternative([Sym(Symbol.Nonterminal("comma")), Sym(Symbol.Nonterminal("transaction mode 2"))])])), 9)
    ensures ParseItems(ts, 9) == Parsed([], 9)
    ensures [Repeat(Group([Alternative([Sym(Symbol.Nonterminal("comma")), Sym(Symbol.Nonterminal("transaction mode 2"))])]))] + [] == [Repeat(Group([Alternative([Sym(Symbol.Nonterminal("comma")), Sym(Symbol.Nonterminal("transaction mode 2"))])]))]
  {
    Parsed9Step3(ts);
  }

  /** Parser results on test_9's text, in evaluation order (part 5). */
  lemma Parsed9Step5(ts: seq<Token>)
    requires |ts| == 9 && ts[0] == BlockEnd && ts[1] == Token.Nonterminal("transaction characteristics") && ts[2] == Defines && ts[3] == Token.Nonterminal("transaction mode 1") && ts[4] == LBrace && ts[5] == Token.Nonterminal("comma") && ts[6] == Token.Nonterminal("transaction mode 2") && ts[7] == RBrace && ts[8] == Ellipsis
    ensures ParseItems(ts, 4) == Parsed([Repeat(Group([Alternative([Sym(Symbol.Nonterminal("comma")), Sym(Symbol.Nonterminal("transaction mode 2"))])]))], 9)
    ensures [Sym(Symbol.Nonterminal("transaction mode 1"))] + [Repeat(Group([Alternative([Sym(Symbol.Nonterminal("comma")), Sym(Symbol.Nonterminal("transaction mode 2"))])]))] == [Sym(Symbol.Nonterminal("transaction mode 1")), Repeat(Group([Alternative([Sym(Symbol.Nonterminal("comma")), Sym(Symbol.Nonterminal("transaction mode 2"))])]))]
    ensures ParseAlternative(ts, 3) == Parsed(Alternative([Sym(Symbol.Nonterminal("transaction mode 1")), Repeat(Group([Alternative([Sym(Symbol.Nonterminal("comma")), Sym(Symbol.Nonterminal("transaction mode 2"))])]))]), 9)
    ensures ParseMoreAlternatives(ts, 9) == Parsed([], 9)
  {
    Parsed9Step1(ts);
    Parsed9Step4(ts);
  }

  /** Parser results on test_9's text, in evaluation order (part 6). */
  lemma Parsed9Step6(ts: seq<Token>)
    requires |ts| == 9 && ts[0] == BlockEnd && ts[1] == Token.Nonterminal("transaction characteristics") && ts[2] == Defines && ts[3] == Token.Nonterminal("transaction mode 1") && ts[4] == LBrace && ts[5] == Token.Nonterminal("comma") && ts[6] == Token.Nonterminal("transaction mode 2") && ts[7] == RBrace && ts[8] == Ellipsis
    ensures [Alternative([Sym(Symbol.Nonterminal("transaction mode 1")), Repeat(Group([Alternative([Sym(Symbol.Nonterminal("comma")), Sym(Symbol.Nonterminal("transaction mode 2"))])]))])] + [] == [Alternative([Sym(Symbol.Nonterminal("transaction mode 1")), Repeat(Group([Alternative([Sym(Symbol.Nonterminal("comma")), Sym(Symbol.Nonterminal("transaction mode 2"))])]))])]
    ensures ParseAlternatives(ts, 3) == Parsed([Alternative([Sym(Symbol.Nonterminal("transaction mode 1")), Repeat(Group([Alternative([Sym(Symbol.Nonterminal("comma")), Sym(Symbol.Nonterminal("transaction mode 2"))])]))])], 9)
    ensures ParseRuleBody(ts, 3) == Parsed([Alternative([Sym(Symbol.Nonterminal("transaction mode 1")), Repeat(Group([Alternative([Sym(Symbol.Nonterminal("comma")), Sym(Symbol.Nonterminal("transaction mode 2"))])]))])], 9)
    ensures ParseRule(ts, 1) == Parsed(Rule("transaction characteristics", [Alternative([Sym(Symbol.Nonterminal("transaction mode 1")), Repeat(Group([Alternative([Sym(Symbol.Nonterminal("comma")), Sym(Symbol.Nonterminal("transaction mode 2"))])]))])]), 9)
  {
    Parsed9Step5(ts);
  }

  /** Parser results on test_9's text, in evaluation order (part 7). */
  lemma Parsed9Step7(ts: seq<Token>)
    requires |ts| == 9 && ts[0] == BlockEnd && ts[1] == Token.Nonterminal("transaction characteristics") && ts[2] == Defines && ts[3] == Token.Nonterminal("transaction mode 1") && ts[4] == LBrace && ts[5] == Token.Nonterminal("comma") && ts[6] == Token.Nonterminal("transaction mode 2") && ts[7] == RBrace && ts[8] == Ellipsis
    ensures ParseRules(ts, 1) == Some([Rule("transaction characteristics", [Alternative([Sym(Symbol.Nonterminal("transaction mode 1")), Repeat(Group([Alternative([Sym(Symbol.Nonterminal("comma")), Sym(Symbol.Nonterminal("transaction mode 2"))])]))])])])
  {
    Parsed9Step6(ts);
  }

  /** The rule blocks test_9's text parses to. */
  lemma Parsed9()
    ensures Parse(Text9) == Some([Rule("transaction characteristics", [Alternative([Sym(Symbol.Nonterminal("transaction mode 1")), Repeat(Group([Alternative([Sym(Symbol.Nonterminal("comma")), Sym(Symbol.Nonterminal("transaction mode 2"))])]))])])])
  {
    Text9Tokens1();
    Text9Tokens2();
    Text9Tokens3();
    Parsed9Step1(Text9);
    Parsed9Step2(Text9);
    Parsed9Step3(Text9);
    Parsed9Step4(Text9);
    Parsed9Step5(Text9);
    Parsed9Step6(Text9);
    Parsed9Step7(Text9);
  }

  /** test_9, block 1: the map once list 1 of the block is defined. */
  lemma Test9Block1Lists1()
    ensures var g: Grammar := map[]; WithLists(g, {["comma", "transaction_mode_2"]}) == map["comma_transaction_mode_2_list" := {["comma", "transaction_mode_2"], ["comma_transaction_mode_2_list", "comma", "transaction_mode_2"]}]
  {
    var g: Grammar := map[];
    WithNoLists(g);
    Step65();
    Step70();
    var w0: Grammar := map[];
    assert Lookup(w0, "comma_transaction_mode_2_list") == {};
    assert Lookup(w0, "comma_transaction_mode_2_list") + {["comma", "transaction_mode_2"], ["comma_transaction_mode_2_list", "comma", "transaction_mode_2"]} == {["comma", "transaction_mode_2"], ["comma_transaction_mode_2_list", "comma", "transaction_mode_2"]};
    ListStep(g, {}, ["comma", "transaction_mode_2"], w0, "comma_transaction_mode_2_list", {["comma", "transaction_mode_2"], ["comma_transaction_mode_2_list", "comma", "transaction_mode_2"]}, map["comma_transaction_mode_2_list" := {["comma", "transaction_mode_2"], ["comma_transaction_mode_2_list", "comma", "transaction_mode_2"]}]);
    assert {} + {["comma", "transaction_mode_2"]} == {["comma", "transaction_mode_2"]};
  }

  /** test_9, block 1: its alternatives merged into its entry. */
  lemma Test9Block1Merge()
    ensures var w: Grammar := map["comma_transaction_mode_2_list" := {["comma", "transaction_mode_2"], ["comma_transaction_mode_2_list", "comma", "transaction_mode_2"]}]; w["transaction_characteristics" := Lookup(w, "transaction_characteristics") + {["transaction_mode_1", "comma_transaction_mode_2_list"]}] == map["comma_transaction_mode_2_list" := {["comma", "transaction_mode_2"], ["comma_transaction_mode_2_list", "comma", "transaction_mode_2"]}, "transaction_characteristics" := {["transaction_mode_1", "comma_transaction_mode_2_list"]}]
  {
    var w: Grammar := map["comma_transaction_mode_2_list" := {["comma", "transaction_mode_2"], ["comma_transaction_mode_2_list", "comma", "transaction_mode_2"]}];
    assert Lookup(w, "transaction_characteristics") == {};
    assert {} + {["transaction_mode_1", "comma_transaction_mode_2_list"]} == {["transaction_mode_1", "comma_transaction_mode_2_list"]};
  }

  /** test_9: the map after block 1. */
  lemma Test9Block1()
    ensures ApplyRules(map[], [Rule("transaction characteristics", [Alternative([Sym(Symbol.Nonterminal("transaction mode 1")), Repeat(Group([Alternative([Sym(Symbol.Nonterminal("comma")), Sym(Symbol.Nonterminal("transaction mode 2"))])]))])])]) == map["comma_transaction_mode_2_list" := {["comma", "transaction_mode_2"], ["comma_transaction_mode_2_list", "comma", "transaction_mode_2"]}, "transaction_characteristics" := {["transaction_mode_1", "comma_transaction_mode_2_list"]}]
  {
    Step69();
    Test9Block1Lists1();
    Step64();
    Test9Block1Merge();
    var g: Grammar := map[];
    var rules := [Rule("transaction characteristics", [Alternative([Sym(Symbol.Nonterminal("transaction mode 1")), Repeat(Group([Alternative([Sym(Symbol.Nonterminal("comma")), Sym(Symbol.Nonterminal("transaction mode 2"))])]))])])];
    assert rules[..0] == [];
    var w: Grammar := map["comma_transaction_mode_2_list" := {["comma", "transaction_mode_2"], ["comma_transaction_mode_2_list", "comma", "transaction_mode_2"]}];
    BlockStep(rules, g, {["comma", "transaction_mode_2"]}, w, "transaction_characteristics", {["transaction_mode_1", "comma_transaction_mode_2_list"]}, map["comma_transaction_mode_2_list" := {["comma", "transaction_mode_2"], ["comma_transaction_mode_2_list", "comma", "transaction_mode_2"]}, "transaction_characteristics" := {["transaction_mode_1", "comma_transaction_mode_2_list"]}]);
  }

  /** The map the test expects. */
  lemma Test9()
    ensures Convert(Text9) == Some(map["comma_transaction_mode_2_list" := {["comma", "transaction_mode_2"], ["comma_transaction_mode_2_list", "comma", "transaction_mode_2"]}, "transaction_characteristics" := {["transaction_mode_1", "comma_transaction_mode_2_list"]}])
  {
    Parsed9();
    Test9Block1();
  }


  // test_10, line 421 of the test file
  /** The grammar text of test_10 as its token sequence. */
  const Text10: seq<Token> := [BlockEnd, Token.Nonterminal("transaction characteristics"), Defines, Token.Nonterminal("transaction mode 1"), LBrack, LBrace, Token.Nonterminal("comma"), Token.Nonterminal("transaction mode 2"), RBrace, Ellipsis, RBrack]

  /** Tokens of test_10's text, four at a time. */
  lemma Text10Tokens1()
    ensures |Text10| == 11
    ensures Text10[0] == BlockEnd
    ensures Text10[1] == Token.Nonterminal("transaction characteristics")
    ensures Text10[2] == Defines
    ensures Text10[3] == Token.Nonterminal("transaction mode 1")
  {
  }

  /** Tokens of test_10's text, four at a time. */
  lemma Text10Tokens2()
    ensures Text10[4] == LBrack
    ensures Text10[5] == LBrace
    ensures Text10[6] == Token.Nonterminal("comma")
    ensures Text10[7] == Token.Nonterminal("transaction mode 2")
  {
  }

  /** Tokens of test_10's text, four at a time. */
  lemma Text10Tokens3()
    ensures Text10[8] == RBrace
    ensures Text10[9] == Ellipsis
    ensures Text10[10] == RBrack
  {
  }

  /** Parser results on test_10's text, in evaluation order (part 1). */
  lemma Parsed10Step1(ts: seq<Token>)
    requires |ts| == 11 && ts[0] == BlockEnd && ts[1] == Token.Nonterminal("transaction characteristics") && ts[2] == Defines && ts[3] == Token.Nonterminal("transaction mode 1") && ts[4] == LBrack && ts[5] == LBrace && ts[6] == Token.Nonterminal("comma") && ts[7] == Token.Nonterminal("transaction mode 2") && ts[8] == RBrace && ts[9] == Ellipsis && ts[10] == RBrack
    ensures SkipBlank(ts, 1) == 1
    ensures SkipBlank(ts, 0) == 1
    ensures ParseElement(ts, 3) == Parsed(Sym(Symbol.Nonterminal("transaction mode 1")), 4)
    ensures ParseElement(ts, 6) == Parsed(Sym(Symbol.Nonterminal("comma")), 7)
  {
  }

  /** Parser results on test_10's text, in evaluation order (part 2). */
  lemma Parsed10Step2(ts: seq<Token>)
    requires |ts| == 11 && ts[0] == BlockEnd && ts[1] == Token.Nonterminal("transaction characteristics") && ts[2] == Defines && ts[3] == Token.Nonterminal("transaction mode 1") && ts[4] == LBrack && ts[5] == LBrace && ts[6] == Token.Nonterminal("comma") && ts[7] == Token.Nonterminal("transaction mode 2") && ts[8] == RBrace && ts[9] == Ellipsis && ts[10] == RBrack
    ensures ParseElement(ts, 7) == Parsed(Sym(Symbol.Nonterminal("transaction mode 2")), 8)
    ensures ParseItems(ts, 8) == Parsed([], 8)
    ensures [Sym(Symbol.Nonterminal("transaction mode 2"))] + [] == [Sym(Symbol.Nonterminal("transaction mode 2"))]
    ensures ParseItems(ts, 7) == Parsed([Sym(Symbol.Nonterminal("transaction mode 2"))], 8)
  {
  }

  /** Parser results on test_10's text, in evaluation order (part 3). */
  lemma Parsed10Step3(ts: seq<Token>)
    requires |ts| == 11 && ts[0] == BlockEnd && ts[1] == Token.Nonterminal("transaction characteristics") && ts[2] == Defines && ts[3] == Token.Nonterminal("transaction mode 1") && ts[4] == LBrack && ts[5] == LBrace && ts[6] == Token.Nonterminal("comma") && ts[7] == Token.Nonterminal("transaction mode 2") && ts[8] == RBrace && ts[9] == Ellipsis && ts[10] == RBrack
    ensures [Sym(Symbol.Nonterminal("comma"))] + [Sym(Symbol.Nonterminal("transaction mode 2"))] == [Sym(Symbol.Nonterminal("comma")), Sym(Symbol.Nonterminal("transaction mode 2"))]
    ensures ParseAlternative(ts, 6) == Parsed(Alternative([Sym(Symbol.Nonterminal("comma")), Sym(Symbol.Nonterminal("transaction mode 2"))]), 8)
    ensures ParseMoreAlternatives(ts, 8) == Parsed([], 8)
    ensures [Alternative([Sym(Symbol.Nonterminal("comma")), Sym(Symbol.Nonterminal("transaction mode 2"))])] + [] == [Alternative([Sym(Symbol.Nonterminal("comma")), Sym(Symbol.Nonterminal("transaction mode 2"))])]
  {
    Parsed10Step1(ts);
    Parsed10Step2(ts);
  }

  /** Parser results on test_10's text, in evaluation order (part 4). */
  lemma Parsed10Step4(ts: seq<Token>)
    requires |ts| == 11 && ts[0] == BlockEnd && ts[1] == Token.Nonterminal("transaction characteristics") && ts[2] == Defines && ts[3] == Token.Nonterminal("transaction mode 1") && ts[4] == LBrack && ts[5] == LBrace && ts[6] == Token.Nonterminal("comma") && ts[7] == Token.Nonterminal("transaction mode 2") && ts[8] == RBrace && ts[9] == Ellipsis && ts[10] == RBrack
    ensures ParseAlternatives(ts, 6) == Parsed([Alternative([Sym(Symbol.Nonterminal("comma")), Sym(Symbol.Nonterminal("transaction mode 2"))])], 8)
    ensures ParseElement(ts, 5) == Parsed(Repeat(Group([Alternative([Sym(Symbol.Nonterminal("comma")), Sym(Symbol.Nonterminal("transaction mode 2"))])])), 10)
    ensures ParseItems(ts, 10) == Parsed([], 10)
    ensures [Repeat(Group([Alternative([Sym(Symbol.Nonterminal("comma")), Sym(Symbol.Nonterminal("transaction mode 2"))])]))] + [] == [Repeat(Group([Alternative([Sym(Symbol.Nonterminal("comma")), Sym(Symbol.Nonterminal("transaction mode 2"))])]))]
  {
    Parsed10Step3(ts);
  }

  /** Parser results on test_10's text, in evaluation order (part 5). */
  lemma Parsed10Step5(ts: seq<Token>)
    requires |ts| == 11 && ts[0] == BlockEnd && ts[1] == Token.Nonterminal("transaction characteristics") && ts[2] == Defines && ts[3] == Token.Nonterminal("transaction mode 1") && ts[4] == LBrack && ts[5] == LBrace && ts[6] == Token.Nonterminal("comma") && ts[7] == Token.Nonterminal("transaction mode 2") && ts[8] == RBrace && ts[9] == Ellipsis && ts[10] == RBrack
    ensures ParseAlternative(ts, 5) == Parsed(Alternative([Repeat(Group([Alternative([Sym(Symbol.Nonterminal("comma")), Sym(Symbol.Nonterminal("transaction mode 2"))])]))]), 10)
    ensures ParseMoreAlternatives(ts, 10) == Parsed([], 10)
    ensures [Alternative([Repeat(Group([Alternative([Sym(Symbol.Nonterminal("comma")), Sym(Symbol.Nonterminal("transaction mode 2"))])]))])] + [] == [Alternative([Repeat(Group([Alternative([Sym(Symbol.Nonterminal("comma")), Sym(Symbol.Nonterminal("transaction mode 2"))])]))])]
    ensures ParseAlternatives(ts, 5) == Parsed([Alternative([Repeat(Group([Alternative([Sym(Symbol.Nonterminal("comma")), Sym(Symbol.Nonterminal("transaction mode 2"))])]))])], 10)
  {
    Parsed10Step4(ts);
  }

  /** Parser results on test_10's text, in evaluation order (part 6). */
  lemma Parsed10Step6(ts: seq<Token>)
    requires |ts| == 11 && ts[0] == BlockEnd && ts[1] == Token.Nonterminal("transaction characteristics") && ts[2] == Defines && ts[3] == Token.Nonterminal("transaction mode 1") && ts[4] == LBrack && ts[5] == LBrace && ts[6] == Token.Nonterminal("comma") && ts[7] == Token.Nonterminal("transaction mode 2") && ts[8] == RBrace && ts[9] == Ellipsis && ts[10] == RBrack
    ensures ParseElement(ts, 4) == Parsed(Opt([Alternative([Repeat(Group([Alternative([Sym(Symbol.Nonterminal("comma")), Sym(Symbol.Nonterminal("transaction mode 2"))])]))])]), 11)
    ensures ParseItems(ts, 11) == Parsed([], 11)
    ensures [Opt([Alternative([Repeat(Group([Alternative([Sym(Symbol.Nonterminal("comma")), Sym(Symbol.Nonterminal("transaction mode 2"))])]))])])] + [] == [Opt([Alternative([Repeat(Group([Alternative([Sym(Symbol.Nonterminal("comma")), Sym(Symbol.Nonterminal("transaction mode 2"))])]))])])]
    ensures ParseItems(ts, 4) == Parsed([Opt([Alternative([Repeat(Group([Alternative([Sym(Symbol.Nonterminal("comma")), Sym(Symbol.Nonterminal("transaction mode 2"))])]))])])], 11)
  {
    Parsed10Step5(ts);
  }

  /** Parser results on test_10's text, in evaluation order (part 7). */
  lemma Parsed10Step7(ts: seq<Token>)
    requires |ts| == 11 && ts[0] == BlockEnd && ts[1] == Token.Nonterminal("transaction characteristics") && ts[2] == Defines && ts[3] == Token.Nonterminal("transaction mode 1") && ts[4] == LBrack && ts[5] == LBrace && ts[6] == Token.Nonterminal("comma") && ts[7] == Token.Nonterminal("transaction mode 2") && ts[8] == RBrace && ts[9] == Ellipsis && ts[10] == RBrack
    ensures [Sym(Symbol.Nonterminal("transaction mode 1"))] + [Opt([Alternative([Repeat(Group([Alternative([Sym(Symbol.Nonterminal("comma")), Sym(Symbol.Nonterminal("transaction mode 2"))])]))])])] == [Sym(Symbol.Nonterminal("transaction mode 1")), Opt([Alternative([Repeat(Group([Alternative([Sym(Symbol.Nonterminal("comma")), Sym(Symbol.Nonterminal("transaction mode 2"))])]))])])]
    ensures ParseAlternative(ts, 3) == Parsed(Alternative([Sym(Symbol.Nonterminal("transaction mode 1")), Opt([Alternative([Repeat(Group([Alternative([Sym(Symbol.Nonterminal("comma")), Sym(Symbol.Nonterminal("transaction mode 2"))])]))])])]), 11)
    ensures ParseMoreAlternatives(ts, 11) == Parsed([], 11)
    ensures [Alternative([Sym(Symbol.Nonterminal("transaction mode 1")), Opt([Alternative([Repeat(Group([Alternative([Sym(Symbol.Nonterminal("comma")), Sym(Symbol.Nonterminal("transaction mode 2"))])]))])])])] + [] == [Alternative([Sym(Symbol.Nonterminal("transaction mode 1")), Opt([Alternative([Repeat(Group([Alternative([Sym(Symbol.Nonterminal("comma")), Sym(Symbol.Nonterminal("transaction mode 2"))])]))])])])]
  {
    Parsed10Step1(ts);
    Parsed10Step6(ts);
  }

  /** Parser results on test_10's text, in evaluation order (part 8). */
  lemma Parsed10Step8(ts: seq<Token>)
    requires |ts| == 11 && ts[0] == BlockEnd && ts[1] == Token.Nonterminal("transaction characteristics") && ts[2] == Defines && ts[3] == Token.Nonterminal("transaction mode 1") && ts[4] == LBrack && ts[5] == LBrace && ts[6] == Token.Nonterminal("comma") && ts[7] == Token.Nonterminal("transaction mode 2") && ts[8] == RBrace && ts[9] == Ellipsis && ts[10] == RBrack
    ensures ParseAlternatives(ts, 3) == Parsed([Alternative([Sym(Symbol.Nonterminal("transaction mode 1")), Opt([Alternative([Repeat(Group([Alternative([Sym(Symbol.Nonterminal("comma")), Sym(Symbol.Nonterminal("transaction mode 2"))])]))])])])], 11)
    ensures ParseRuleBody(ts, 3) == Parsed([Alternative([Sym(Symbol.Nonterminal("transaction mode 1")), Opt([Alternative([Repeat(Group([Alternative([Sym(Symbol.Nonterminal("comma")), Sym(Symbol.Nonterminal("transaction mode 2"))])]))])])])], 11)
    ensures ParseRule(ts, 1) == Parsed(Rule("transaction characteristics", [Alternative([Sym(Symbol.Nonterminal("transaction mode 1")), Opt([Alternative([Repeat(Group([Alternative([Sym(Symbol.Nonterminal("comma")), Sym(Symbol.Nonterminal("transaction mode 2"))])]))])])])]), 11)
    ensures ParseRules(ts, 1) == Some([Rule("transaction characteristics", [Alternative([Sym(Symbol.Nonterminal("transaction mode 1")), Opt([Alternative([Repeat(Group([Alternative([Sym(Symbol.Nonterminal("comma")), Sym(Symbol.Nonterminal("transaction mode 2"))])]))])])])])])
  {
    Parsed10Step7(ts);
  }

  /** The rule blocks test_10's text parses to. */
  lemma Parsed10()
    ensures Parse(Text10) == Some([Rule("transaction characteristics", [Alternative([Sym(Symbol.Nonterminal("transaction mode 1")), Opt([Alternative([Repeat(Group([Alternative([Sym(Symbol.Nonterminal("comma")), Sym(Symbol.Nonterminal("transaction mode 2"))])]))])])])])])
  {
    Text10Tokens1();
    Text10Tokens2();
    Text10Tokens3();
    Parsed10Step1(Text10);
    Parsed10Step2(Text10);
    Parsed10Step3(Text10);
    Parsed10Step4(Text10);
    Parsed10Step5(Text10);
    Parsed10Step6(Text10);
    Parsed10Step7(Text10);
    Parsed10Step8(Text10);
  }

  /** test_10, block 1: the map once list 1 of the block is defined. */
  lemma Test10Block1Lists1()
    ensures var g: Grammar := map[]; WithLists(g, {["comma", "transaction_mode_2"]}) == map["comma_transaction_mode_2_list" := {["comma", "transaction_mode_2"], ["comma_transaction_mode_2_list", "comma", "transaction_mode_2"]}]
  {
    var g: Grammar := map[];
    WithNoLists(g);
    Step65();
    Step70();
    var w0: Grammar := map[];
    assert Lookup(w0, "comma_transaction_mode_2_list") == {};
    assert Lookup(w0, "comma_transaction_mode_2_list") + {["comma", "transaction_mode_2"], ["comma_transaction_mode_2_list", "comma", "transaction_mode_2"]} == {["comma", "transaction_mode_2"], ["comma_transaction_mode_2_list", "comma", "transaction_mode_2"]};
    ListStep(g, {}, ["comma", "transaction_mode_2"], w0, "comma_transaction_mode_2_list", {["comma", "transaction_mode_2"], ["comma_transaction_mode_2_list", "comma", "transaction_mode_2"]}, map["comma_transaction_mode_2_list" := {["comma", "transaction_mode_2"], ["comma_transaction_mode_2_list", "comma", "transaction_mode_2"]}]);
    assert {} + {["comma", "transaction_mode_2"]} == {["comma", "transaction_mode_2"]};
  }

  /** test_10, block 1: its alternatives merged into its entry. */
  lemma Test10Block1Merge()
    ensures var w: Grammar := map["comma_transaction_mode_2_list" := {["comma", "transaction_mode_2"], ["comma_transaction_mode_2_list", "comma", "transaction_mode_2"]}]; w["transaction_characteristics" := Lookup(w, "transaction_characteristics") + {["transaction_mode_1", "comma_transaction_mode_2_list"], ["transaction_mode_1"]}] == map["comma_transaction_mode_2_list" := {["comma", "transaction_mode_2"], ["comma_transaction_mode_2_list", "comma", "transaction_mode_2"]}, "transaction_characteristics" := {["transaction_mode_1", "comma_transaction_mode_2_list"], ["transaction_mode_1"]}]
  {
    var w: Grammar := map["comma_transaction_mode_2_list" := {["comma", "transaction_mode_2"], ["comma_transaction_mode_2_list", "comma", "transaction_mode_2"]}];
    assert Lookup(w, "transaction_characteristics") == {};
    assert {} + {["transaction_mode_1", "comma_transaction_mode_2_list"], ["transaction_mode_1"]} == {["transaction_mode_1", "comma_transaction_mode_2_list"], ["transaction_mode_1"]};
  }

  /** test_10: the map after block 1. */
  lemma Test10Block1()
    ensures ApplyRules(map[], [Rule("transaction characteristics", [Alternative([Sym(Symbol.Nonterminal("transaction mode 1")), Opt([Alternative([Repeat(Group([Alternative([Sym(Symbol.Nonterminal("comma")), Sym(Symbol.Nonterminal("transaction mode 2"))])]))])])])])]) == map["comma_transaction_mode_2_list" := {["comma", "transaction_mode_2"], ["comma_transaction_mode_2_list", "comma", "transaction_mode_2"]}, "transaction_characteristics" := {["transaction_mode_1", "comma_transaction_mode_2_list"], ["transaction_mode_1"]}]
  {
    Step76();
    Test10Block1Lists1();
    Step64();
    Test10Block1Merge();
    var g: Grammar := map[];
    var rules := [Rule("transaction characteristics", [Alternative([Sym(Symbol.Nonterminal("transaction mode 1")), Opt([Alternative([Repeat(Group([Alternative([Sym(Symbol.Nonterminal("comma")), Sym(Symbol.Nonterminal("transaction mode 2"))])]))])])])])];
    assert rules[..0] == [];
    var w: Grammar := map["comma_transaction_mode_2_list" := {["comma", "transaction_mode_2"], ["comma_transaction_mode_2_list", "comma", "transaction_mode_2"]}];
    BlockStep(rules, g, {["comma", "transaction_mode_2"]}, w, "transaction_characteristics", {["transaction_mode_1", "comma_transaction_mode_2_list"], ["transaction_mode_1"]}, map["comma_transaction_mode_2_list" := {["comma", "transaction_mode_2"], ["comma_transaction_mode_2_list", "comma", "transaction_mode_2"]}, "transaction_characteristics" := {["transaction_mode_1", "comma_transaction_mode_2_list"], ["transaction_mode_1"]}]);
  }

  /** The map the test expects. */
  lemma Test10()
    ensures Convert(Text10) == Some(map["comma_transaction_mode_2_list" := {["comma", "transaction_mode_2"], ["comma_transaction_mode_2_list", "comma", "transaction_mode_2"]}, "transaction_characteristics" := {["transaction_mode_1", "comma_transaction_mode_2_list"], ["transaction_mode_1"]}])
  {
    Parsed10();
    Test10Block1();
  }


  // test_11, line 463 of the test file
  /** The grammar text of test_11 as its token sequence. */
  const Text11: seq<Token> := [BlockEnd, Token.Nonterminal("create graph statement"), Defines, Token.Terminal("CREATE"), LBrace, Token.Terminal("GRAPH"), Bar, Token.Terminal("OR"), Token.Terminal("REPLACE"), Token.Terminal("GRAPH"), RBrace]

  /** Tokens of test_11's text, four at a time. */
  lemma Text11Tokens1()
    ensures |Text11| == 11
    ensures Text11[0] == BlockEnd
    ensures Text11[1] == Token.Nonterminal("create graph statement")
    ensures Text11[2] == Defines
    ensures Text11[3] == Token.Terminal("CREATE")
  {
  }

  /** Tokens of test_11's text, four at a time. */
  lemma Text11Tokens2()
    ensures Text11[4] == LBrace
    ensures Text11[5] == Token.Terminal("GRAPH")
    ensures Text11[6] == Bar
    ensures Text11[7] == Token.Terminal("OR")
  {
  }

  /** Tokens of test_11's text, four at a time. */
  lemma Text11Tokens3()
    ensures Text11[8] == Token.Terminal("REPLACE")
    ensures Text11[9] == Token.Terminal("GRAPH")
    ensures Text11[10] == RBrace
  {
  }

  /** Parser results on test_11's text, in evaluation order (part 1). */
  lemma Parsed11Step1(ts: seq<Token>)
    requires |ts| == 11 && ts[0] == BlockEnd && ts[1] == Token.Nonterminal("create graph statement") && ts[2] == Defines && ts[3] == Token.Terminal("CREATE") && ts[4] == LBrace && ts[5] == Token.Terminal("GRAPH") && ts[6] == Bar && ts[7] == Token.Terminal("OR") && ts[8] == Token.Terminal("REPLACE") && ts[9] == Token.Terminal("GRAPH") && ts[10] == RBrace
    ensures SkipBlank(ts, 1) == 1
    ensures SkipBlank(ts, 0) == 1
    ensures ParseElement(ts, 3) == Parsed(Sym(Symbol.Terminal("CREATE")), 4)
    ensures ParseElement(ts, 5) == Parsed(Sym(Symbol.Terminal("GRAPH")), 6)
  {
  }

  /** Parser results on test_11's text, in evaluation order (part 2). */
  lemma Parsed11Step2(ts: seq<Token>)
    requires |ts| == 11 && ts[0] == BlockEnd && ts[1] == Token.Nonterminal("create graph statement") && ts[2] == Defines && ts[3] == Token.Terminal("CREATE") && ts[4] == LBrace && ts[5] == Token.Terminal("GRAPH") && ts[6] == Bar && ts[7] == Token.Terminal("OR") && ts[8] == Token.Terminal("REPLACE") && ts[9] == Token.Terminal("GRAPH") && ts[10] == RBrace
    ensures ParseItems(ts, 6) == Parsed([], 6)
    ensures [Sym(Symbol.Terminal("GRAPH"))] + [] == [Sym(Symbol.Terminal("GRAPH"))]
    ensures ParseAlternative(ts, 5) == Parsed(Alternative([Sym(Symbol.Terminal("GRAPH"))]), 6)
    ensures ParseElement(ts, 7) == Parsed(Sym(Symbol.Terminal("OR")), 8)
  {
    Parsed11Step1(ts);
  }

  /** Parser results on test_11's text, in evaluation order (part 3). */
  lemma Parsed11Step3(ts: seq<Token>)
    requires |ts| == 11 && ts[0] == BlockEnd && ts[1] == Token.Nonterminal("create graph statement") && ts[2] == Defines && ts[3] == Token.Terminal("CREATE") && ts[4] == LBrace && ts[5] == Token.Terminal("GRAPH") && ts[6] == Bar && ts[7] == Token.Terminal("OR") && ts[8] == Token.Terminal("REPLACE") && ts[9] == Token.Terminal("GRAPH") && ts[10] == RBrace
    ensures ParseElement(ts, 8) == Parsed(Sym(Symbol.Terminal("REPLACE")), 9)
    ensures ParseElement(ts, 9) == Parsed(Sym(Symbol.Terminal("GRAPH")), 10)
    ensures ParseItems(ts, 10) == Parsed([], 10)
    ensures [Sym(Symbol.Terminal("GRAPH"))] + [] == [Sym(Symbol.Terminal("GRAPH"))]
  {
  }

  /** Parser results on test_11's text, in evaluation order (part 4). */
  lemma Parsed11Step4(ts: seq<Token>)
    requires |ts| == 11 && ts[0] == BlockEnd && ts[1] == Token.Nonterminal("create graph statement") && ts[2] == Defines && ts[3] == Token.Terminal("CREATE") && ts[4] == LBrace && ts[5] == Token.Terminal("GRAPH") && ts[6] == Bar && ts[7] == Token.Terminal("OR") && ts[8] == Token.Terminal("REPLACE") && ts[9] == Token.Terminal("GRAPH") && ts[10] == RBrace
    ensures ParseItems(ts, 9) == Parsed([Sym(Symbol.Terminal("GRAPH"))], 10)
    ensures [Sym(Symbol.Terminal("REPLACE"))] + [Sym(Symbol.Terminal("GRAPH"))] == [Sym(Symbol.Terminal("REPLACE")), Sym(Symbol.Terminal("GRAPH"))]
    ensures ParseItems(ts, 8) == Parsed([Sym(Symbol.Terminal("REPLACE")), Sym(Symbol.Terminal("GRAPH"))], 10)
    ensures [Sym(Symbol.Terminal("OR"))] + [Sym(Symbol.Terminal("REPLACE")), Sym(Symbol.Terminal("GRAPH"))] == [Sym(Symbol.Terminal("OR")), Sym(Symbol.Terminal("REPLACE")), Sym(Symbol.Terminal("GRAPH"))]
  {
    Parsed11Step3(ts);
  }

  /** Parser results on test_11's text, in evaluation order (part 5). */
  lemma Parsed11Step5(ts: seq<Token>)
    requires |ts| == 11 && ts[0] == BlockEnd && ts[1] == Token.Nonterminal("create graph statement") && ts[2] == Defines && ts[3] == Token.Terminal("CREATE") && ts[4] == LBrace && ts[5] == Token.Terminal("GRAPH") && ts[6] == Bar && ts[7] == Token.Terminal("OR") && ts[8] == Token.Terminal("REPLACE") && ts[9] == Token.Terminal("GRAPH") && ts[10] == RBrace
    ensures ParseAlternative(ts, 7) == Parsed(Alternative([Sym(Symbol.Terminal("OR")), Sym(Symbol.Terminal("REPLACE")), Sym(Symbol.Terminal("GRAPH"))]), 10)
    ensures ParseMoreAlternatives(ts, 10) == Parsed([], 10)
    ensures [Alternative([Sym(Symbol.Terminal("OR")), Sym(Symbol.Terminal("REPLACE")), Sym(Symbol.Terminal("GRAPH"))])] + [] == [Alternative([Sym(Symbol.Terminal("OR")), Sym(Symbol.Terminal("REPLACE")), Sym(Symbol.Terminal("GRAPH"))])]
    ensures ParseMoreAlternatives(ts, 6) == Parsed([Alternative([Sym(Symbol.Terminal("OR")), Sym(Symbol.Terminal("REPLACE")), Sym(Symbol.Terminal("GRAPH"))])], 10)
  {
    Parsed11Step2(ts);
    Parsed11Step4(ts);
  }

  /** Parser results on test_11's text, in evaluation order (part 6). */
  lemma Parsed11Step6(ts: seq<Token>)
    requires |ts| == 11 && ts[0] == BlockEnd && ts[1] == Token.Nonterminal("create graph statement") && ts[2] == Defines && ts[3] == Token.Terminal("CREATE") && ts[4] == LBrace && ts[5] == Token.Terminal("GRAPH") && ts[6] == Bar && ts[7] == Token.Terminal("OR") && ts[8] == Token.Terminal("REPLACE") && ts[9] == Token.Terminal("GRAPH") && ts[10] == RBrace
    ensures [Alternative([Sym(Symbol.Terminal("GRAPH"))])] + [Alternative([Sym(Symbol.Terminal("OR")), Sym(Symbol.Terminal("REPLACE")), Sym(Symbol.Terminal("GRAPH"))])] == [Alternative([Sym(Symbol.Terminal("GRAPH"))]), Alternative([Sym(Symbol.Terminal("OR")), Sym(Symbol.Terminal("REPLACE")), Sym(Symbol.Terminal("GRAPH"))])]
    ensures ParseAlternatives(ts, 5) == Parsed([Alternative([Sym(Symbol.Terminal("GRAPH"))]), Alternative([Sym(Symbol.Terminal("OR")), Sym(Symbol.Terminal("REPLACE")), Sym(Symbol.Terminal("GRAPH"))])], 10)
    ensures ParseElement(ts, 4) == Parsed(Group([Alternative([Sym(Symbol.Terminal("GRAPH"))]), Alternative([Sym(Symbol.Terminal("OR")), Sym(Symbol.Terminal("REPLACE")), Sym(Symbol.Terminal("GRAPH"))])]), 11)
    ensures ParseItems(ts, 11) == Parsed([], 11)
  {
    Parsed11Step2(ts);
    Parsed11Step5(ts);
  }

  /** Parser results on test_11's text, in evaluation order (part 7). */
  lemma Parsed11Step7(ts: seq<Token>)
    requires |ts| == 11 && ts[0] == BlockEnd && ts[1] == Token.Nonterminal("create graph statement") && ts[2] == Defines && ts[3] == Token.Terminal("CREATE") && ts[4] == LBrace && ts[5] == Token.Terminal("GRAPH") && ts[6] == Bar && ts[7] == Token.Terminal("OR") && ts[8] == Token.Terminal("REPLACE") && ts[9] == Token.Terminal("GRAPH") && ts[10] == RBrace
    ensures [Group([Alternative([Sym(Symbol.Terminal("GRAPH"))]), Alternative([Sym(Symbol.Terminal("OR")), Sym(Symbol.Terminal("REPLACE")), Sym(Symbol.Terminal("GRAPH"))])])] + [] == [Group([Alternative([Sym(Symbol.Terminal("GRAPH"))]), Alternative([Sym(Symbol.Terminal("OR")), Sym(Symbol.Terminal("REPLACE")), Sym(Symbol.Terminal("GRAPH"))])])]
    ensures ParseItems(ts, 4) == Parsed([Group([Alternative([Sym(Symbol.Terminal("GRAPH"))]), Alternative([Sym(Symbol.Terminal("OR")), Sym(Symbol.Terminal("REPLACE")), Sym(Symbol.Terminal("GRAPH"))])])], 11)
    ensures [Sym(Symbol.Terminal("CREATE"))] + [Group([Alternative([Sym(Symbol.Terminal("GRAPH"))]), Alternative([Sym(Symbol.Terminal("OR")), Sym(Symbol.Terminal("REPLACE")), Sym(Symbol.Terminal("GRAPH"))])])] == [Sym(Symbol.Terminal("CREATE")), Group([Alternative([Sym(Symbol.Terminal("GRAPH"))]), Alternative([Sym(Symbol.Terminal("OR")), Sym(Symbol.Terminal("REPLACE")), Sym(Symbol.Terminal("GRAPH"))])])]
    ensures ParseAlternative(ts, 3) == Parsed(Alternative([Sym(Symbol.Terminal("CREATE")), Group([Alternative([Sym(Symbol.Terminal("GRAPH"))]), Alternative([Sym(Symbol.Terminal("OR")), Sym(Symbol.Terminal("REPLACE")), Sym(Symbol.Terminal("GRAPH"))])])]), 11)
  {
    Parsed11Step1(ts);
    Parsed11Step6(ts);
  }

  /** Parser results on test_11's text, in evaluation order (part 8). */
  lemma Parsed11Step8(ts: seq<Token>)
    requires |ts| == 11 && ts[0] == BlockEnd && ts[1] == Token.Nonterminal("create graph statement") && ts[2] == Defines && ts[3] == Token.Terminal("CREATE") && ts[4] == LBrace && ts[5] == Token.Terminal("GRAPH") && ts[6] == Bar && ts[7] == Token.Terminal("OR") && ts[8] == Token.Terminal("REPLACE") && ts[9] == Token.Terminal("GRAPH") && ts[10] == RBrace
    ensures ParseMoreAlternatives(ts, 11) == Parsed([], 11)
    ensures [Alternative([Sym(Symbol.Terminal("CREATE")), Group([Alternative([Sym(Symbol.Terminal("GRAPH"))]), Alternative([Sym(Symbol.Terminal("OR")), Sym(Symbol.Terminal("REPLACE")), Sym(Symbol.Terminal("GRAPH"))])])])] + [] == [Alternative([Sym(Symbol.Terminal("CREATE")), Group([Alternative([Sym(Symbol.Terminal("GRAPH"))]), Alternative([Sym(Symbol.Terminal("OR")), Sym(Symbol.Terminal("REPLACE")), Sym(Symbol.Terminal("GRAPH"))])])])]
    ensures ParseAlternatives(ts, 3) == Parsed([Alternative([Sym(Symbol.Terminal("CREATE")), Group([Alternative([Sym(Symbol.Terminal("GRAPH"))]), Alternative([Sym(Symbol.Terminal("OR")), Sym(Symbol.Terminal("REPLACE")), Sym(Symbol.Terminal("GRAPH"))])])])], 11)
    ensures ParseRuleBody(ts, 3) == Parsed([Alternative([Sym(Symbol.Terminal("CREATE")), Group([Alternative([Sym(Symbol.Terminal("GRAPH"))]), Alternative([Sym(Symbol.Terminal("OR")), Sym(Symbol.Terminal("REPLACE")), Sym(Symbol.Terminal("GRAPH"))])])])], 11)
  {
    Parsed11Step7(ts);
  }

  /** Parser results on test_11's text, in evaluation order (part 9). */
  lemma Parsed11Step9(ts: seq<Token>)
    requires |ts| == 11 && ts[0] == BlockEnd && ts[1] == Token.Nonterminal("create graph statement") && ts[2] == Defines && ts[3] == Token.Terminal("CREATE") && ts[4] == LBrace && ts[5] == Token.Terminal("GRAPH") && ts[6] == Bar && ts[7] == Token.Terminal("OR") && ts[8] == Token.Terminal("REPLACE") && ts[9] == Token.Terminal("GRAPH") && ts[10] == RBrace
    ensures ParseRule(ts, 1) == Parsed(Rule("create graph statement", [Alternative([Sym(Symbol.Terminal("CREATE")), Group([Alternative([Sym(Symbol.Terminal("GRAPH"))]), Alternative([Sym(Symbol.Terminal("OR")), Sym(Symbol.Terminal("REPLACE")), Sym(Symbol.Terminal("GRAPH"))])])])]), 11)
    ensures ParseRules(ts, 1) == Some([Rule("create graph statement", [Alternative([Sym(Symbol.Terminal("CREATE")), Group([Alternative([Sym(Symbol.Terminal("GRAPH"))]), Alternative([Sym(Symbol.Terminal("OR")), Sym(Symbol.Terminal("REPLACE")), Sym(Symbol.Terminal("GRAPH"))])])])])])
  {
    Parsed11Step8(ts);
  }

  /** The rule blocks test_11's text parses to. */
  lemma Parsed11()
    ensures Parse(Text11) == Some([Rule("create graph statement", [Alternative([Sym(Symbol.Terminal("CREATE")), Group([Alternative([Sym(Symbol.Terminal("GRAPH"))]), Alternative([Sym(Symbol.Terminal("OR")), Sym(Symbol.Terminal("REPLACE")), Sym(Symbol.Terminal("GRAPH"))])])])])])
  {
    Text11Tokens1();
    Text11Tokens2();
    Text11Tokens3();
    Parsed11Step1(Text11);
    Parsed11Step2(Text11);
    Parsed11Step3(Text11);
    Parsed11Step4(Text11);
    Parsed11Step5(Text11);
    Parsed11Step6(Text11);
    Parsed11Step7(Text11);
    Parsed11Step8(Text11);
    Parsed11Step9(Text11);
  }

  /** test_11, block 1: its alternatives merged into its entry. */
  lemma Test11Block1Merge()
    ensures var w: Grammar := map[]; w["create_graph_statement" := Lookup(w, "create_graph_statement") + {["CREATE", "GRAPH"], ["CREATE", "OR", "REPLACE", "GRAPH"]}] == map["create_graph_statement" := {["CREATE", "GRAPH"], ["CREATE", "OR", "REPLACE", "GRAPH"]}]
  {
    var w: Grammar := map[];
    assert Lookup(w, "create_graph_statement") == {};
    assert {} + {["CREATE", "GRAPH"], ["CREATE", "OR", "REPLACE", "GRAPH"]} == {["CREATE", "GRAPH"], ["CREATE", "OR", "REPLACE", "GRAPH"]};
  }

  /** test_11: the map after block 1. */
  lemma Test11Block1()
    ensures ApplyRules(map[], [Rule("create graph statement", [Alternative([Sym(Symbol.Terminal("CREATE")), Group([Alternative([Sym(Symbol.Terminal("GRAPH"))]), Alternative([Sym(Symbol.Terminal("OR")), Sym(Symbol.Terminal("REPLACE")), Sym(Symbol.Terminal("GRAPH"))])])])])]) == map["create_graph_statement" := {["CREATE", "GRAPH"], ["CREATE", "OR", "REPLACE", "GRAPH"]}]
  {
    Step94();
    Step95();
    Test11Block1Merge();
    var g: Grammar := map[];
    WithNoLists(g);
    var rules := [Rule("create graph statement", [Alternative([Sym(Symbol.Terminal("CREATE")), Group([Alternative([Sym(Symbol.Terminal("GRAPH"))]), Alternative([Sym(Symbol.Terminal("OR")), Sym(Symbol.Terminal("REPLACE")), Sym(Symbol.Terminal("GRAPH"))])])])])];
    assert rules[..0] == [];
    var w: Grammar := map[];
    BlockStep(rules, g, {}, w, "create_graph_statement", {["CREATE", "GRAPH"], ["CREATE", "OR", "REPLACE", "GRAPH"]}, map["create_graph_statement" := {["CREATE", "GRAPH"], ["CREATE", "OR", "REPLACE", "GRAPH"]}]);
  }

  /** The map the test expects. */
  lemma Test11()
    ensures Convert(Text11) == Some(map["create_graph_statement" := {["CREATE", "GRAPH"], ["CREATE", "OR", "REPLACE", "GRAPH"]}])
  {
    Parsed11();
    Test11Block1();
  }


  // test_12, line 498 of the test file
  /** The grammar text of test_12 as its token sequence. */
  const Text12: seq<Token> := [BlockEnd, Token.Nonterminal("create graph statement"), Defines, Token.Terminal("CREATE"), LBrace, LBrack, Token.Terminal("PROPERTY"), RBrack, Token.Terminal("GRAPH"), LBrack, Token.Terminal("IF"), Token.Terminal("NOT"), Token.Terminal("EXISTS"), RBrack, Bar, Token.Terminal("OR"), Token.Terminal("REPLACE"), LBrack, Token.Terminal("PROPERTY"), RBrack, Token.Terminal("GRAPH"), RBrace]

  /** Tokens of test_12's text, four at a time. */
  lemma Text12Tokens1()
    ensures |Text12| == 22
    ensures Text12[0] == BlockEnd
    ensures Text12[1] == Token.Nonterminal("create graph statement")
    ensures Text12[2] == Defines
    ensures Text12[3] == Token.Terminal("CREATE")
  {
  }

  /** Tokens of test_12's text, four at a time. */
  lemma Text12Tokens2()
    ensures Text12[4] == LBrace
    ensures Text12[5] == LBrack
    ensures Text12[6] == Token.Terminal("PROPERTY")
    ensures Text12[7] == RBrack
  {
  }

  /** Tokens of test_12's text, four at a time. */
  lemma Text12Tokens3()
    ensures Text12[8] == Token.Terminal("GRAPH")
    ensures Text12[9] == LBrack
    ensures Text12[10] == Token.Terminal("IF")
    ensures Text12[11] == Token.Terminal("NOT")
  {
  }

  /** Tokens of test_12's text, four at a time. */
  lemma Text12Tokens4()
    ensures Text12[12] == Token.Terminal("EXISTS")
    ensures Text12[13] == RBrack
    ensures Text12[14] == Bar
    ensures Text12[15] == Token.Terminal("OR")
  {
  }

  /** Tokens of test_12's text, four at a time. */
  lemma Text12Tokens5()
    ensures Text12[16] == Token.Terminal("REPLACE")
    ensures Text12[17] == LBrack
    ensures Text12[18] == Token.Terminal("PROPERTY")
    ensures Text12[19] == RBrack
  {
  }

  /** Tokens of test_12's text, four at a time. */
  lemma Text12Tokens6()
    ensures Text12[20] == Token.Terminal("GRAPH")
    ensures Text12[21] == RBrace
  {
  }

  /** Parser results on test_12's text, in evaluation order (part 1). */
  lemma Parsed12Step1(ts: seq<Token>)
    requires |ts| == 22 && ts[0] == BlockEnd && ts[1] == Token.Nonterminal("create graph statement") && ts[2] == Defines && ts[3] == Token.Terminal("CREATE") && ts[4] == LBrace && ts[5] == LBrack && ts[6] == Token.Terminal("PROPERTY") && ts[7] == RBrack && ts[8] == Token.Terminal("GRAPH") && ts[9] == LBrack && ts[10] == Token.Terminal("IF") && ts[11] == Token.Terminal("NOT") && ts[12] == Token.Terminal("EXISTS") && ts[13] == RBrack && ts[14] == Bar && ts[15] == Token.Terminal("OR") && ts[16] == Token.Terminal("REPLACE") && ts[17] == LBrack && ts[18] == Token.Terminal("PROPERTY") && ts[19] == RBrack && ts[20] == Token.Terminal("GRAPH") && ts[21] == RBrace
    ensures SkipBlank(ts, 1) == 1
    ensures SkipBlank(ts, 0) == 1
    ensures ParseElement(ts, 3) == Parsed(Sym(Symbol.Terminal("CREATE")), 4)
    ensures ParseElement(ts, 6) == Parsed(Sym(Symbol.Terminal("PROPERTY")), 7)
  {
  }

  /** Parser results on test_12's text, in evaluation order (part 2). */
  lemma Parsed12Step2(ts: seq<Token>)
    requires |ts| == 22 && ts[0] == BlockEnd && ts[1] == Token.Nonterminal("create graph statement") && ts[2] == Defines && ts[3] == Token.Terminal("CREATE") && ts[4] == LBrace && ts[5] == LBrack && ts[6] == Token.Terminal("PROPERTY") && ts[7] == RBrack && ts[8] == Token.Terminal("GRAPH") && ts[9] == LBrack && ts[10] == Token.Terminal("IF") && ts[11] == Token.Terminal("NOT") && ts[12] == Token.Terminal("EXISTS") && ts[13] == RBrack && ts[14] == Bar && ts[15] == Token.Terminal("OR") && ts[16] == Token.Terminal("REPLACE") && ts[17] == LBrack && ts[18] == Token.Terminal("PROPERTY") && ts[19] == RBrack && ts[20] == Token.Terminal("GRAPH") && ts[21] == RBrace
    ensures ParseItems(ts, 7) == Parsed([], 7)
    ensures [Sym(Symbol.Terminal("PROPERTY"))] + [] == [Sym(Symbol.Terminal("PROPERTY"))]
    ensures ParseAlternative(ts, 6) == Parsed(Alternative([Sym(Symbol.Terminal("PROPERTY"))]), 7)
    ensures ParseMoreAlternatives(ts, 7) == Parsed([], 7)
  {
    Parsed12Step1(ts);
  }

  /** Parser results on test_12's text, in evaluation order (part 3). */
  lemma Parsed12Step3(ts: seq<Token>)
    requires |ts| == 22 && ts[0] == BlockEnd && ts[1] == Token.Nonterminal("create graph statement") && ts[2] == Defines && ts[3] == Token.Terminal("CREATE") && ts[4] == LBrace && ts[5] == LBrack && ts[6] == Token.Terminal("PROPERTY") && ts[7] == RBrack && ts[8] == Token.Terminal("GRAPH") && ts[9] == LBrack && ts[10] == Token.Terminal("IF") && ts[11] == Token.Terminal("NOT") && ts[12] == Token.Terminal("EXISTS") && ts[13] == RBrack && ts[14] == Bar && ts[15] == Token.Terminal("OR") && ts[16] == Token.Terminal("REPLACE") && ts[17] == LBrack && ts[18] == Token.Terminal("PROPERTY") && ts[19] == RBrack && ts[20] == Token.Terminal("GRAPH") && ts[21] == RBrace
    ensures [Alternative([Sym(Symbol.Terminal("PROPERTY"))])] + [] == [Alternative([Sym(Symbol.Terminal("PROPERTY"))])]
    ensures ParseAlternatives(ts, 6) == Parsed([Alternative([Sym(Symbol.Terminal("PROPERTY"))])], 7)
    ensures ParseElement(ts, 5) == Parsed(Opt([Alternative([Sym(Symbol.Terminal("PROPERTY"))])]), 8)
    ensures ParseElement(ts, 8) == Parsed(Sym(Symbol.Terminal("GRAPH")), 9)
  {
    Parsed12Step2(ts);
  }

  /** Parser results on test_12's text, in evaluation order (part 4). */
  lemma Parsed12Step4(ts: seq<Token>)
    requires |ts| == 22 && ts[0] == BlockEnd && ts[1] == Token.Nonterminal("create graph statement") && ts[2] == Defines && ts[3] == Token.Terminal("CREATE") && ts[4] == LBrace && ts[5] == LBrack && ts[6] == Token.Terminal("PROPERTY") && ts[7] == RBrack && ts[8] == Token.Terminal("GRAPH") && ts[9] == LBrack && ts[10] == Token.Terminal("IF") && ts[11] == Token.Terminal("NOT") && ts[12] == Token.Terminal("EXISTS") && ts[13] == RBrack && ts[14] == Bar && ts[15] == Token.Terminal("OR") && ts[16] == Token.Terminal("REPLACE") && ts[17] == LBrack && ts[18] == Token.Terminal("PROPERTY") && ts[19] == RBrack && ts[20] == Token.Terminal("GRAPH") && ts[21] == RBrace
    ensures ParseElement(ts, 10) == Parsed(Sym(Symbol.Terminal("IF")), 11)
    ensures ParseElement(ts, 11) == Parsed(Sym(Symbol.Terminal("NOT")), 12)
    ensures ParseElement(ts, 12) == Parsed(Sym(Symbol.Terminal("EXISTS")), 13)
    ensures ParseItems(ts, 13) == Parsed([], 13)
  {
  }

  /** Parser results on test_12's text, in evaluation order (part 5). */
  lemma Parsed12Step5(ts: seq<Token>)
    requires |ts| == 22 && ts[0] == BlockEnd && ts[1] == Token.Nonterminal("create graph statement") && ts[2] == Defines && ts[3] == Token.Terminal("CREATE") && ts[4] == LBrace && ts[5] == LBrack && ts[6] == Token.Terminal("PROPERTY") && ts[7] == RBrack && ts[8] == Token.Terminal("GRAPH") && ts[9] == LBrack && ts[10] == Token.Terminal("IF") && ts[11] == Token.Terminal("NOT") && ts[12] == Token.Terminal("EXISTS") && ts[13] == RBrack && ts[14] == Bar && ts[15] == Token.Terminal("OR") && ts[16] == Token.Terminal("REPLACE") && ts[17] == LBrack && ts[18] == Token.Terminal("PROPERTY") && ts[19] == RBrack && ts[20] == Token.Terminal("GRAPH") && ts[21] == RBrace
    ensures [Sym(Symbol.Terminal("EXISTS"))] + [] == [Sym(Symbol.Terminal("EXISTS"))]
    ensures ParseItems(ts, 12) == Parsed([Sym(Symbol.Terminal("EXISTS"))], 13)
    ensures [Sym(Symbol.Terminal("NOT"))] + [Sym(Symbol.Terminal("EXISTS"))] == [Sym(Symbol.Terminal("NOT")), Sym(Symbol.Terminal("EXISTS"))]
    ensures ParseItems(ts, 11) == Parsed([Sym(Symbol.Terminal("NOT")), Sym(Symbol.Terminal("EXISTS"))], 13)
  {
    Parsed12Step4(ts);
  }

  /** Parser results on test_12's text, in evaluation order (part 6). */
  lemma Parsed12Step6(ts: seq<Token>)
    requires |ts| == 22 && ts[0] == BlockEnd && ts[1] == Token.Nonterminal("create graph statement") && ts[2] == Defines && ts[3] == Token.Terminal("CREATE") && ts[4] == LBrace && ts[5] == LBrack && ts[6] == Token.Terminal("PROPERTY") && ts[7] == RBrack && ts[8] == Token.Terminal("GRAPH") && ts[9] == LBrack && ts[10] == Token.Terminal("IF") && ts[11] == Token.Terminal("NOT") && ts[12] == Token.Terminal("EXISTS") && ts[13] == RBrack && ts[14] == Bar && ts[15] == Token.Terminal("OR") && ts[16] == Token.Terminal("REPLACE") && ts[17] == LBrack && ts[18] == Token.Terminal("PROPERTY") && ts[19] == RBrack && ts[20] == Token.Terminal("GRAPH") && ts[21] == RBrace
    ensures [Sym(Symbol.Terminal("IF"))] + [Sym(Symbol.Terminal("NOT")), Sym(Symbol.Terminal("EXISTS"))] == [Sym(Symbol.Terminal("IF")), Sym(Symbol.Terminal("NOT")), Sym(Symbol.Terminal("EXISTS"))]
    ensures ParseAlternative(ts, 10) == Parsed(Alternative([Sym(Symbol.Terminal("IF")), Sym(Symbol.Terminal("NOT")), Sym(Symbol.Terminal("EXISTS"))]), 13)
    ensures ParseMoreAlternatives(ts, 13) == Parsed([], 13)
    ensures [Alternative([Sym(Symbol.Terminal("IF")), Sym(Symbol.Terminal("NOT")), Sym(Symbol.Terminal("EXISTS"))])] + [] == [Alternative([Sym(Symbol.Terminal("IF")), Sym(Symbol.Terminal("NOT")), Sym(Symbol.Terminal("EXISTS"))])]
  {
    Parsed12Step4(ts);
    Parsed12Step5(ts);
  }

  /** Parser results on test_12's text, in evaluation order (part 7). */
  lemma Parsed12Step7(ts: seq<Token>)
    requires |ts| == 22 && ts[0] == BlockEnd && ts[1] == Token.Nonterminal("create graph statement") && ts[2] == Defines && ts[3] == Token.Terminal("CREATE") && ts[4] == LBrace && ts[5] == LBrack && ts[6] == Token.Terminal("PROPERTY") && ts[7] == RBrack && ts[8] == Token.Terminal("GRAPH") && ts[9] == LBrack && ts[10] == Token.Terminal("IF") && ts[11] == Token.Terminal("NOT") && ts[12] == Token.Terminal("EXISTS") && ts[13] == RBrack && ts[14] == Bar && ts[15] == Token.Terminal("OR") && ts[16] == Token.Terminal("REPLACE") && ts[17] == LBrack && ts[18] == Token.Terminal("PROPERTY") && ts[19] == RBrack && ts[20] == Token.Terminal("GRAPH") && ts[21] == RBrace
    ensures ParseAlternatives(ts, 10) == Parsed([Alternative([Sym(Symbol.Terminal("IF")), Sym(Symbol.Terminal("NOT")), Sym(Symbol.Terminal("EXISTS"))])], 13)
    ensures ParseElement(ts, 9) == Parsed(Opt([Alternative([Sym(Symbol.Terminal("IF")), Sym(Symbol.Terminal("NOT")), Sym(Symbol.Terminal("EXISTS"))])]), 14)
    ensures ParseItems(ts, 14) == Parsed([], 14)
    ensures [Opt([Alternative([Sym(Symbol.Terminal("IF")), Sym(Symbol.Terminal("NOT")), Sym(Symbol.Terminal("EXISTS"))])])] + [] == [Opt([Alternative([Sym(Symbol.Terminal("IF")), Sym(Symbol.Terminal("NOT")), Sym(Symbol.Terminal("EXISTS"))])])]
  {
    Parsed12Step6(ts);
  }

  /** Parser results on test_12's text, in evaluation order (part 8). */
  lemma Parsed12Step8(ts: seq<Token>)
    requires |ts| == 22 && ts[0] == BlockEnd && ts[1] == Token.Nonterminal("create graph statement") && ts[2] == Defines && ts[3] == Token.Terminal("CREATE") && ts[4] == LBrace && ts[5] == LBrack && ts[6] == Token.Terminal("PROPERTY") && ts[7] == RBrack && ts[8] == Token.Terminal("GRAPH") && ts[9] == LBrack && ts[10] == Token.Terminal("IF") && ts[11] == Token.Terminal("NOT") && ts[12] == Token.Terminal("EXISTS") && ts[13] == RBrack && ts[14] == Bar && ts[15] == Token.Terminal("OR") && ts[16] == Token.Terminal("REPLACE") && ts[17] == LBrack && ts[18] == Token.Terminal("PROPERTY") && ts[19] == RBrack && ts[20] == Token.Terminal("GRAPH") && ts[21] == RBrace
    ensures ParseItems(ts, 9) == Parsed([Opt([Alternative([Sym(Symbol.Terminal("IF")), Sym(Symbol.Terminal("NOT")), Sym(Symbol.Terminal("EXISTS"))])])], 14)
    ensures [Sym(Symbol.Terminal("GRAPH"))] + [Opt([Alternative([Sym(Symbol.Terminal("IF")), Sym(Symbol.Terminal("NOT")), Sym(Symbol.Terminal("EXISTS"))])])] == [Sym(Symbol.Terminal("GRAPH")), Opt([Alternative([Sym(Symbol.Terminal("IF")), Sym(Symbol.Terminal("NOT")), Sym(Symbol.Terminal("EXISTS"))])])]
    ensures ParseItems(ts, 8) == Parsed([Sym(Symbol.Terminal("GRAPH")), Opt([Alternative([Sym(Symbol.Terminal("IF")), Sym(Symbol.Terminal("NOT")), Sym(Symbol.Terminal("EXISTS"))])])], 14)
    ensures [Opt([Alternative([Sym(Symbol.Terminal("PROPERTY"))])])] + [Sym(Symbol.Terminal("GRAPH")), Opt([Alternative([Sym(Symbol.Terminal("IF")), Sym(Symbol.Terminal("NOT")), Sym(Symbol.Terminal("EXISTS"))])])] == [Opt([Alternative([Sym(Symbol.Terminal("PROPERTY"))])]), Sym(Symbol.Terminal("GRAPH")), Opt([Alternative([Sym(Symbol.Terminal("IF")), Sym(Symbol.Terminal("NOT")), Sym(Symbol.Terminal("EXISTS"))])])]
  {
    Parsed12Step3(ts);
    Parsed12Step7(ts);
  }

  /** Parser results on test_12's text, in evaluation order (part 9). */
  lemma Parsed12Step9(ts: seq<Token>)
    requires |ts| == 22 && ts[0] == BlockEnd && ts[1] == Token.Nonterminal("create graph statement") && ts[2] == Defines && ts[3] == Token.Terminal("CREATE") && ts[4] == LBrace && ts[5] == LBrack && ts[6] == Token.Terminal("PROPERTY") && ts[7] == RBrack && ts[8] == Token.Terminal("GRAPH") && ts[9] == LBrack && ts[10] == Token.Terminal("IF") && ts[11] == Token.Terminal("NOT") && ts[12] == Token.Terminal("EXISTS") && ts[13] == RBrack && ts[14] == Bar && ts[15] == Token.Terminal("OR") && ts[16] == Token.Terminal("REPLACE") && ts[17] == LBrack && ts[18] == Token.Terminal("PROPERTY") && ts[19] == RBrack && ts[20] == Token.Terminal("GRAPH") && ts[21] == RBrace
    ensures ParseAlternative(ts, 5) == Parsed(Alternative([Opt([Alternative([Sym(Symbol.Terminal("PROPERTY"))])]), Sym(Symbol.Terminal("GRAPH")), Opt([Alternative([Sym(Symbol.Terminal("IF")), Sym(Symbol.Terminal("NOT")), Sym(Symbol.Terminal("EXISTS"))])])]), 14)
    ensures ParseElement(ts, 15) == Parsed(Sym(Symbol.Terminal("OR")), 16)
    ensures ParseElement(ts, 16) == Parsed(Sym(Symbol.Terminal("REPLACE")), 17)
    ensures ParseElement(ts, 18) == Parsed(Sym(Symbol.Terminal("PROPERTY")), 19)
  {
    Parsed12Step3(ts);
    Parsed12Step8(ts);
  }

  /** Parser results on test_12's text, in evaluation order (part 10). */
  lemma Parsed12Step10(ts: seq<Token>)
    requires |ts| == 22 && ts[0] == BlockEnd && ts[1] == Token.Nonterminal("create graph statement") && ts[2] == Defines && ts[3] == Token.Terminal("CREATE") && ts[4] == LBrace && ts[5] == LBrack && ts[6] == Token.Terminal("PROPERTY") && ts[7] == RBrack && ts[8] == Token.Terminal("GRAPH") && ts[9] == LBrack && ts[10] == Token.Terminal("IF") && ts[11] == Token.Terminal("NOT") && ts[12] == Token.Terminal("EXISTS") && ts[13] == RBrack && ts[14] == Bar && ts[15] == Token.Terminal("OR") && ts[16] == Token.Terminal("REPLACE") && ts[17] == LBrack && ts[18] == Token.Terminal("PROPERTY") && ts[19] == RBrack && ts[20] == Token.Terminal("GRAPH") && ts[21] == RBrace
    ensures ParseItems(ts, 19) == Parsed([], 19)
    ensures [Sym(Symbol.Terminal("PROPERTY"))] + [] == [Sym(Symbol.Terminal("PROPERTY"))]
    ensures ParseAlternative(ts, 18) == Parsed(Alternative([Sym(Symbol.Terminal("PROPERTY"))]), 19)
    ensures ParseMoreAlternatives(ts, 19) == Parsed([], 19)
  {
    Parsed12Step9(ts);
  }

  /** Parser results on test_12's text, in evaluation order (part 11). */
  lemma Parsed12Step11(ts: seq<Token>)
    requires |ts| == 22 && ts[0] == BlockEnd && ts[1] == Token.Nonterminal("create graph statement") && ts[2] == Defines && ts[3] == Token.Terminal("CREATE") && ts[4] == LBrace && ts[5] == LBrack && ts[6] == Token.Terminal("PROPERTY") && ts[7] == RBrack && ts[8] == Token.Terminal("GRAPH") && ts[9] == LBrack && ts[10] == Token.Terminal("IF") && ts[11] == Token.Terminal("NOT") && ts[12] == Token.Terminal("EXISTS") && ts[13] == RBrack && ts[14] == Bar && ts[15] == Token.Terminal("OR") && ts[16] == Token.Terminal("REPLACE") && ts[17] == LBrack && ts[18] == Token.Terminal("PROPERTY") && ts[19] == RBrack && ts[20] == Token.Terminal("GRAPH") && ts[21] == RBrace
    ensures [Alternative([Sym(Symbol.Terminal("PROPERTY"))])] + [] == [Alternative([Sym(Symbol.Terminal("PROPERTY"))])]
    ensures ParseAlternatives(ts, 18) == Parsed([Alternative([Sym(Symbol.Terminal("PROPERTY"))])], 19)
    ensures ParseElement(ts, 17) == Parsed(Opt([Alternative([Sym(Symbol.Terminal("PROPERTY"))])]), 20)
    ensures ParseElement(ts, 20) == Parsed(Sym(Symbol.Terminal("GRAPH")), 21)
  {
    Parsed12Step10(ts);
  }

  /** Parser results on test_12's text, in evaluation order (part 12). */
  lemma Parsed12Step12(ts: seq<Token>)
    requires |ts| == 22 && ts[0] == BlockEnd && ts[1] == Token.Nonterminal("create graph statement") && ts[2] == Defines && ts[3] == Token.Terminal("CREATE") && ts[4] == LBrace && ts[5] == LBrack && ts[6] == Token.Terminal("PROPERTY") && ts[7] == RBrack && ts[8] == Token.Terminal("GRAPH") && ts[9] == LBrack && ts[10] == Token.Terminal("IF") && ts[11] == Token.Terminal("NOT") && ts[12] == Token.Terminal("EXISTS") && ts[13] == RBrack && ts[14] == Bar && ts[15] == Token.Terminal("OR") && ts[16] == Token.Terminal("REPLACE") && ts[17] == LBrack && ts[18] == Token.Terminal("PROPERTY") && ts[19] == RBrack && ts[20] == Token.Terminal("GRAPH") && ts[21] == RBrace
    ensures ParseItems(ts, 21) == Parsed([], 21)
    ensures [Sym(Symbol.Terminal("GRAPH"))] + [] == [Sym(Symbol.Terminal("GRAPH"))]
    ensures ParseItems(ts, 20) == Parsed([Sym(Symbol.Terminal("GRAPH"))], 21)
    ensures [Opt([Alternative([Sym(Symbol.Terminal("PROPERTY"))])])] + [Sym(Symbol.Terminal("GRAPH"))] == [Opt([Alternative([Sym(Symbol.Terminal("PROPERTY"))])]), Sym(Symbol.Terminal("GRAPH"))]
  {
    Parsed12Step11(ts);
  }

  /** Parser results on test_12's text, in evaluation order (part 13). */
  lemma Parsed12Step13(ts: seq<Token>)
    requires |ts| == 22 && ts[0] == BlockEnd && ts[1] == Token.Nonterminal("create graph statement") && ts[2] == Defines && ts[3] == Token.Terminal("CREATE") && ts[4] == LBrace && ts[5] == LBrack && ts[6] == Token.Terminal("PROPERTY") && ts[7] == RBrack && ts[8] == Token.Terminal("GRAPH") && ts[9] == LBrack && ts[10] == Token.Terminal("IF") && ts[11] == Token.Terminal("NOT") && ts[12] == Token.Terminal("EXISTS") && ts[13] == RBrack && ts[14] == Bar && ts[15] == Token.Terminal("OR") && ts[16] == Token.Terminal("REPLACE") && ts[17] == LBrack && ts[18] == Token.Terminal("PROPERTY") && ts[19] == RBrack && ts[20] == Token.Terminal("GRAPH") && ts[21] == RBrace
    ensures ParseItems(ts, 17) == Parsed([Opt([Alternative([Sym(Symbol.Terminal("PROPERTY"))])]), Sym(Symbol.Terminal("GRAPH"))], 21)
    ensures [Sym(Symbol.Terminal("REPLACE"))] + [Opt([Alternative([Sym(Symbol.Terminal("PROPERTY"))])]), Sym(Symbol.Terminal("GRAPH"))] == [Sym(Symbol.Terminal("REPLACE")), Opt([Alternative([Sym(Symbol.Terminal("PROPERTY"))])]), Sym(Symbol.Terminal("GRAPH"))]
    ensures ParseItems(ts, 16) == Parsed([Sym(Symbol.Terminal("REPLACE")), Opt([Alternative([Sym(Symbol.Terminal("PROPERTY"))])]), Sym(Symbol.Terminal("GRAPH"))], 21)
    ensures [Sym(Symbol.Terminal("OR"))] + [Sym(Symbol.Terminal("REPLACE")), Opt([Alternative([Sym(Symbol.Terminal("PROPERTY"))])]), Sym(Symbol.Terminal("GRAPH"))] == [Sym(Symbol.Terminal("OR")), Sym(Symbol.Terminal("REPLACE")), Opt([Alternative([Sym(Symbol.Terminal("PROPERTY"))])]), Sym(Symbol.Terminal("GRAPH"))]
  {
    Parsed12Step9(ts);
    Parsed12Step11(ts);
    Parsed12Step12(ts);
  }

  /** Parser results on test_12's text, in evaluation order (part 14). */
  lemma Parsed12Step14(ts: seq<Token>)
    requires |ts| == 22 && ts[0] == BlockEnd && ts[1] == Token.Nonterminal("create graph statement") && ts[2] == Defines && ts[3] == Token.Terminal("CREATE") && ts[4] == LBrace && ts[5] == LBrack && ts[6] == Token.Terminal("PROPERTY") && ts[7] == RBrack && ts[8] == Token.Terminal("GRAPH") && ts[9] == LBrack && ts[10] == Token.Terminal("IF") && ts[11] == Token.Terminal("NOT") && ts[12] == Token.Terminal("EXISTS") && ts[13] == RBrack && ts[14] == Bar && ts[15] == Token.Terminal("OR") && ts[16] == Token.Terminal("REPLACE") && ts[17] == LBrack && ts[18] == Token.Terminal("PROPERTY") && ts[19] == RBrack && ts[20] == Token.Terminal("GRAPH") && ts[21] == RBrace
    ensures ParseAlternative(ts, 15) == Parsed(Alternative([Sym(Symbol.Terminal("OR")), Sym(Symbol.Terminal("REPLACE")), Opt([Alternative([Sym(Symbol.Terminal("PROPERTY"))])]), Sym(Symbol.Terminal("GRAPH"))]), 21)
    ensures ParseMoreAlternatives(ts, 21) == Parsed([], 21)
    ensures [Alternative([Sym(Symbol.Terminal("OR")), Sym(Symbol.Terminal("REPLACE")), Opt([Alternative([Sym(Symbol.Terminal("PROPERTY"))])]), Sym(Symbol.Terminal("GRAPH"))])] + [] == [Alternative([Sym(Symbol.Terminal("OR")), Sym(Symbol.Terminal("REPLACE")), Opt([Alternative([Sym(Symbol.Terminal("PROPERTY"))])]), Sym(Symbol.Terminal("GRAPH"))])]
    ensures ParseMoreAlternatives(ts, 14) == Parsed([Alternative([Sym(Symbol.Terminal("OR")), Sym(Symbol.Terminal("REPLACE")), Opt([Alternative([Sym(Symbol.Terminal("PROPERTY"))])]), Sym(Symbol.Terminal("GRAPH"))])], 21)
  {
    Parsed12Step9(ts);
    Parsed12Step13(ts);
  }

  /** Parser results on test_12's text, in evaluation order (part 15). */
  lemma Parsed12Step15(ts: seq<Token>)
    requires |ts| == 22 && ts[0] == BlockEnd && ts[1] == Token.Nonterminal("create graph statement") && ts[2] == Defines && ts[3] == Token.Terminal("CREATE") && ts[4] == LBrace && ts[5] == LBrack && ts[6] == Token.Terminal("PROPERTY") && ts[7] == RBrack && ts[8] == Token.Terminal("GRAPH") && ts[9] == LBrack && ts[10] == Token.Terminal("IF") && ts[11] == Token.Terminal("NOT") && ts[12] == Token.Terminal("EXISTS") && ts[13] == RBrack && ts[14] == Bar && ts[15] == Token.Terminal("OR") && ts[16] == Token.Terminal("REPLACE") && ts[17] == LBrack && ts[18] == Token.Terminal("PROPERTY") && ts[19] == RBrack && ts[20] == Token.Terminal("GRAPH") && ts[21] == RBrace
    ensures [Alternative([Opt([Alternative([Sym(Symbol.Terminal("PROPERTY"))])]), Sym(Symbol.Terminal("GRAPH")), Opt([Alternative([Sym(Symbol.Terminal("IF")), Sym(Symbol.Terminal("NOT")), Sym(Symbol.Terminal("EXISTS"))])])])] + [Alternative([Sym(Symbol.Terminal("OR")), Sym(Symbol.Terminal("REPLACE")), Opt([Alternative([Sym(Symbol.Terminal("PROPERTY"))])]), Sym(Symbol.Terminal("GRAPH"))])] == [Alternative([Opt([Alternative([Sym(Symbol.Terminal("PROPERTY"))])]), Sym(Symbol.Terminal("GRAPH")), Opt([Alternative([Sym(Symbol.Terminal("IF")), Sym(Symbol.Terminal("NOT")), Sym(Symbol.Terminal("EXISTS"))])])]), Alternative([Sym(Symbol.Terminal("OR")), Sym(Symbol.Terminal("REPLACE")), Opt([Alternative([Sym(Symbol.Terminal("PROPERTY"))])]), Sym(Symbol.Terminal("GRAPH"))])]
    ensures ParseAlternatives(ts, 5) == Parsed([Alternative([Opt([Alternative([Sym(Symbol.Terminal("PROPERTY"))])]), Sym(Symbol.Terminal("GRAPH")), Opt([Alternative([Sym(Symbol.Terminal("IF")), Sym(Symbol.Terminal("NOT")), Sym(Symbol.Terminal("EXISTS"))])])]), Alternative([Sym(Symbol.Terminal("OR")), Sym(Symbol.Terminal("REPLACE")), Opt([Alternative([Sym(Symbol.Terminal("PROPERTY"))])]), Sym(Symbol.Terminal("GRAPH"))])], 21)
    ensures ParseElement(ts, 4) == Parsed(Group([Alternative([Opt([Alternative([Sym(Symbol.Terminal("PROPERTY"))])]), Sym(Symbol.Terminal("GRAPH")), Opt([Alternative([Sym(Symbol.Terminal("IF")), Sym(Symbol.Terminal("NOT")), Sym(Symbol.Terminal("EXISTS"))])])]), Alternative([Sym(Symbol.Terminal("OR")), Sym(Symbol.Terminal("REPLACE")), Opt([Alternative([Sym(Symbol.Terminal("PROPERTY"))])]), Sym(Symbol.Terminal("GRAPH"))])]), 22)
    ensures ParseItems(ts, 22) == Parsed([], 22)
  {
    Parsed12Step9(ts);
    Parsed12Step14(ts);
  }

  /** Parser results on test_12's text, in evaluation order (part 16). */
  lemma Parsed12Step16(ts: seq<Token>)
    requires |ts| == 22 && ts[0] == BlockEnd && ts[1] == Token.Nonterminal("create graph statement") && ts[2] == Defines && ts[3] == Token.Terminal("CREATE") && ts[4] == LBrace && ts[5] == LBrack && ts[6] == Token.Terminal("PROPERTY") && ts[7] == RBrack && ts[8] == Token.Terminal("GRAPH") && ts[9] == LBrack && ts[10] == Token.Terminal("IF") && ts[11] == Token.Terminal("NOT") && ts[12] == Token.Terminal("EXISTS") && ts[13] == RBrack && ts[14] == Bar && ts[15] == Token.Terminal("OR") && ts[16] == Token.Terminal("REPLACE") && ts[17] == LBrack && ts[18] == Token.Terminal("PROPERTY") && ts[19] == RBrack && ts[20] == Token.Terminal("GRAPH") && ts[21] == RBrace
    ensures [Group([Alternative([Opt([Alternative([Sym(Symbol.Terminal("PROPERTY"))])]), Sym(Symbol.Terminal("GRAPH")), Opt([Alternative([Sym(Symbol.Terminal("IF")), Sym(Symbol.Terminal("NOT")), Sym(Symbol.Terminal("EXISTS"))])])]), Alternative([Sym(Symbol.Terminal("OR")), Sym(Symbol.Terminal("REPLACE")), Opt([Alternative([Sym(Symbol.Terminal("PROPERTY"))])]), Sym(Symbol.Terminal("GRAPH"))])])] + [] == [Group([Alternative([Opt([Alternative([Sym(Symbol.Terminal("PROPERTY"))])]), Sym(Symbol.Terminal("GRAPH")), Opt([Alternative([Sym(Symbol.Terminal("IF")), Sym(Symbol.Terminal("NOT")), Sym(Symbol.Terminal("EXISTS"))])])]), Alternative([Sym(Symbol.Terminal("OR")), Sym(Symbol.Terminal("REPLACE")), Opt([Alternative([Sym(Symbol.Terminal("PROPERTY"))])]), Sym(Symbol.Terminal("GRAPH"))])])]
    ensures ParseItems(ts, 4) == Parsed([Group([Alternative([Opt([Alternative([Sym(Symbol.Terminal("PROPERTY"))])]), Sym(Symbol.Terminal("GRAPH")), Opt([Alternative([Sym(Symbol.Terminal("IF")), Sym(Symbol.Terminal("NOT")), Sym(Symbol.Terminal("EXISTS"))])])]), Alternative([Sym(Symbol.Terminal("OR")), Sym(Symbol.Terminal("REPLACE")), Opt([Alternative([Sym(Symbol.Terminal("PROPERTY"))])]), Sym(Symbol.Terminal("GRAPH"))])])], 22)
    ensures [Sym(Symbol.Terminal("CREATE"))] + [Group([Alternative([Opt([Alternative([Sym(Symbol.Terminal("PROPERTY"))])]), Sym(Symbol.Terminal("GRAPH")), Opt([Alternative([Sym(Symbol.Terminal("IF")), Sym(Symbol.Terminal("NOT")), Sym(Symbol.Terminal("EXISTS"))])])]), Alternative([Sym(Symbol.Terminal("OR")), Sym(Symbol.Terminal("REPLACE")), Opt([Alternative([Sym(Symbol.Terminal("PROPERTY"))])]), Sym(Symbol.Terminal("GRAPH"))])])] == [Sym(Symbol.Terminal("CREATE")), Group([Alternative([Opt([Alternative([Sym(Symbol.Terminal("PROPERTY"))])]), Sym(Symbol.Terminal("GRAPH")), Opt([Alternative([Sym(Symbol.Terminal("IF")), Sym(Symbol.Terminal("NOT")), Sym(Symbol.Terminal("EXISTS"))])])]), Alternative([Sym(Symbol.Terminal("OR")), Sym(Symbol.Terminal("REPLACE")), Opt([Alternative([Sym(Symbol.Terminal("PROPERTY"))])]), Sym(Symbol.Terminal("GRAPH"))])])]
    ensures ParseAlternative(ts, 3) == Parsed(Alternative([Sym(Symbol.Terminal("CREATE")), Group([Alternative([Opt([Alternative([Sym(Symbol.Terminal("PROPERTY"))])]), Sym(Symbol.Terminal("GRAPH")), Opt([Alternative([Sym(Symbol.Terminal("IF")), Sym(Symbol.Terminal("NOT")), Sym(Symbol.Terminal("EXISTS"))])])]), Alternative([Sym(Symbol.Terminal("OR")), Sym(Symbol.Terminal("REPLACE")), Opt([Alternative([Sym(Symbol.Terminal("PROPERTY"))])]), Sym(Symbol.Terminal("GRAPH"))])])]), 22)
  {
    Parsed12Step1(ts);
    Parsed12Step15(ts);
  }

  /** Parser results on test_12's text, in evaluation order (part 17). */
  lemma Parsed12Step17(ts: seq<Token>)
    requires |ts| == 22 && ts[0] == BlockEnd && ts[1] == Token.Nonterminal("create graph statement") && ts[2] == Defines && ts[3] == Token.Terminal("CREATE") && ts[4] == LBrace && ts[5] == LBrack && ts[6] == Token.Terminal("PROPERTY") && ts[7] == RBrack && ts[8] == Token.Terminal("GRAPH") && ts[9] == LBrack && ts[10] == Token.Terminal("IF") && ts[11] == Token.Terminal("NOT") && ts[12] == Token.Terminal("EXISTS") && ts[13] == RBrack && ts[14] == Bar && ts[15] == Token.Terminal("OR") && ts[16] == Token.Terminal("REPLACE") && ts[17] == LBrack && ts[18] == Token.Terminal("PROPERTY") && ts[19] == RBrack && ts[20] == Token.Terminal("GRAPH") && ts[21] == RBrace
    ensures ParseMoreAlternatives(ts, 22) == Parsed([], 22)
    ensures [Alternative([Sym(Symbol.Terminal("CREATE")), Group([Alternative([Opt([Alternative([Sym(Symbol.Terminal("PROPERTY"))])]), Sym(Symbol.Terminal("GRAPH")), Opt([Alternative([Sym(Symbol.Terminal("IF")), Sym(Symbol.Terminal("NOT")), Sym(Symbol.Terminal("EXISTS"))])])]), Alternative([Sym(Symbol.Terminal("OR")), Sym(Symbol.Terminal("REPLACE")), Opt([Alternative([Sym(Symbol.Terminal("PROPERTY"))])]), Sym(Symbol.Terminal("GRAPH"))])])])] + [] == [Alternative([Sym(Symbol.Terminal("CREATE")), Group([Alternative([Opt([Alternative([Sym(Symbol.Terminal("PROPERTY"))])]), Sym(Symbol.Terminal("GRAPH")), Opt([Alternative([Sym(Symbol.Terminal("IF")), Sym(Symbol.Terminal("NOT")), Sym(Symbol.Terminal("EXISTS"))])])]), Alternative([Sym(Symbol.Terminal("OR")), Sym(Symbol.Terminal("REPLACE")), Opt([Alternative([Sym(Symbol.Terminal("PROPERTY"))])]), Sym(Symbol.Terminal("GRAPH"))])])])]
    ensures ParseAlternatives(ts, 3) == Parsed([Alternative([Sym(Symbol.Terminal("CREATE")), Group([Alternative([Opt([Alternative([Sym(Symbol.Terminal("PROPERTY"))])]), Sym(Symbol.Terminal("GRAPH")), Opt([Alternative([Sym(Symbol.Terminal("IF")), Sym(Symbol.Terminal("NOT")), Sym(Symbol.Terminal("EXISTS"))])])]), Alternative([Sym(Symbol.Terminal("OR")), Sym(Symbol.Terminal("REPLACE")), Opt([Alternative([Sym(Symbol.Terminal("PROPERTY"))])]), Sym(Symbol.Terminal("GRAPH"))])])])], 22)
    ensures ParseRuleBody(ts, 3) == Parsed([Alternative([Sym(Symbol.Terminal("CREATE")), Group([Alternative([Opt([Alternative([Sym(Symbol.Terminal("PROPERTY"))])]), Sym(Symbol.Terminal("GRAPH")), Opt([Alternative([Sym(Symbol.Terminal("IF")), Sym(Symbol.Terminal("NOT")), Sym(Symbol.Terminal("EXISTS"))])])]), Alternative([Sym(Symbol.Terminal("OR")), Sym(Symbol.Terminal("REPLACE")), Opt([Alternative([Sym(Symbol.Terminal("PROPERTY"))])]), Sym(Symbol.Terminal("GRAPH"))])])])], 22)
  {
    Parsed12Step16(ts);
  }

  /** Parser results on test_12's text, in evaluation order (part 18). */
  lemma Parsed12Step18(ts: seq<Token>)
    requires |ts| == 22 && ts[0] == BlockEnd && ts[1] == Token.Nonterminal("create graph statement") && ts[2] == Defines && ts[3] == Token.Terminal("CREATE") && ts[4] == LBrace && ts[5] == LBrack && ts[6] == Token.Terminal("PROPERTY") && ts[7] == RBrack && ts[8] == Token.Terminal("GRAPH") && ts[9] == LBrack && ts[10] == Token.Terminal("IF") && ts[11] == Token.Terminal("NOT") && ts[12] == Token.Terminal("EXISTS") && ts[13] == RBrack && ts[14] == Bar && ts[15] == Token.Terminal("OR") && ts[16] == Token.Terminal("REPLACE") && ts[17] == LBrack && ts[18] == Token.Terminal("PROPERTY") && ts[19] == RBrack && ts[20] == Token.Terminal("GRAPH") && ts[21] == RBrace
    ensures ParseRule(ts, 1) == Parsed(Rule("create graph statement", [Alternative([Sym(Symbol.Terminal("CREATE")), Group([Alternative([Opt([Alternative([Sym(Symbol.Terminal("PROPERTY"))])]), Sym(Symbol.Terminal("GRAPH")), Opt([Alternative([Sym(Symbol.Terminal("IF")), Sym(Symbol.Terminal("NOT")), Sym(Symbol.Terminal("EXISTS"))])])]), Alternative([Sym(Symbol.Terminal("OR")), Sym(Symbol.Terminal("REPLACE")), Opt([Alternative([Sym(Symbol.Terminal("PROPERTY"))])]), Sym(Symbol.Terminal("GRAPH"))])])])]), 22)
    ensures ParseRules(ts, 1) == Some([Rule("create graph statement", [Alternative([Sym(Symbol.Terminal("CREATE")), Group([Alternative([Opt([Alternative([Sym(Symbol.Terminal("PROPERTY"))])]), Sym(Symbol.Terminal("GRAPH")), Opt([Alternative([Sym(Symbol.Terminal("IF")), Sym(Symbol.Terminal("NOT")), Sym(Symbol.Terminal("EXISTS"))])])]), Alternative([Sym(Symbol.Terminal("OR")), Sym(Symbol.Terminal("REPLACE")), Opt([Alternative([Sym(Symbol.Terminal("PROPERTY"))])]), Sym(Symbol.Terminal("GRAPH"))])])])])])
  {
    Parsed12Step17(ts);
  }

  /** The rule blocks test_12's text parses to. */
  lemma Parsed12()
    ensures Parse(Text12) == Some([Rule("create graph statement", [Alternative([Sym(Symbol.Terminal("CREATE")), Group([Alternative([Opt([Alternative([Sym(Symbol.Terminal("PROPERTY"))])]), Sym(Symbol.Terminal("GRAPH")), Opt([Alternative([Sym(Symbol.Terminal("IF")), Sym(Symbol.Terminal("NOT")), Sym(Symbol.Terminal("EXISTS"))])])]), Alternative([Sym(Symbol.Terminal("OR")), Sym(Symbol.Terminal("REPLACE")), Opt([Alternative([Sym(Symbol.Terminal("PROPERTY"))])]), Sym(Symbol.Terminal("GRAPH"))])])])])])
  {
    Text12Tokens1();
    Text12Tokens2();
    Text12Tokens3();
    Text12Tokens4();
    Text12Tokens5();
    Text12Tokens6();
    Parsed12Step1(Text12);
    Parsed12Step2(Text12);
    Parsed12Step3(Text12);
    Parsed12Step4(Text12);
    Parsed12Step5(Text12);
    Parsed12Step6(Text12);
    Parsed12Step7(Text12);
    Parsed12Step8(Text12);
    Parsed12Step9(Text12);
    Parsed12Step10(Text12);
    Parsed12Step11(Text12);
    Parsed12Step12(Text12);
    Parsed12Step13(Text12);
    Parsed12Step14(Text12);
    Parsed12Step15(Text12);
    Parsed12Step16(Text12);
    Parsed12Step17(Text12);
    Parsed12Step18(Text12);
  }

  /** test_12, block 1: its alternatives merged into its entry. */
  lemma Test12Block1Merge()
    ensures var w: Grammar := map[]; w["create_graph_statement" := Lookup(w, "create_graph_statement") + {["CREATE", "PROPERTY", "GRAPH", "IF", "NOT", "EXISTS"], ["CREATE", "PROPERTY", "GRAPH"], ["CREATE", "GRAPH", "IF", "NOT", "EXISTS"], ["CREATE", "GRAPH"], ["CREATE", "OR", "REPLACE", "PROPERTY", "GRAPH"], ["CREATE", "OR", "REPLACE", "GRAPH"]}] == map["create_graph_statement" := {["CREATE", "PROPERTY", "GRAPH", "IF", "NOT", "EXISTS"], ["CREATE", "PROPERTY", "GRAPH"], ["CREATE", "GRAPH", "IF", "NOT", "EXISTS"], ["CREATE", "GRAPH"], ["CREATE", "OR", "REPLACE", "PROPERTY", "GRAPH"], ["CREATE", "OR", "REPLACE", "GRAPH"]}]
  {
    var w: Grammar := map[];
    assert Lookup(w, "create_graph_statement") == {};
    assert {} + {["CREATE", "PROPERTY", "GRAPH", "IF", "NOT", "EXISTS"], ["CREATE", "PROPERTY", "GRAPH"], ["CREATE", "GRAPH", "IF", "NOT", "EXISTS"], ["CREATE", "GRAPH"], ["CREATE", "OR", "REPLACE", "PROPERTY", "GRAPH"], ["CREATE", "OR", "REPLACE", "GRAPH"]} == {["CREATE", "PROPERTY", "GRAPH", "IF", "NOT", "EXISTS"], ["CREATE", "PROPERTY", "GRAPH"], ["CREATE", "GRAPH", "IF", "NOT", "EXISTS"], ["CREATE", "GRAPH"], ["CREATE", "OR", "REPLACE", "PROPERTY", "GRAPH"], ["CREATE", "OR", "REPLACE", "GRAPH"]};
  }

  /** test_12: the map after block 1. */
  lemma Test12Block1()
    ensures ApplyRules(map[], [Rule("create graph statement", [Alternative([Sym(Symbol.Terminal("CREATE")), Group([Alternative([Opt([Alternative([Sym(Symbol.Terminal("PROPERTY"))])]), Sym(Symbol.Terminal("GRAPH")), Opt([Alternative([Sym(Symbol.Terminal("IF")), Sym(Symbol.Terminal("NOT")), Sym(Symbol.Terminal("EXISTS"))])])]), Alternative([Sym(Symbol.Terminal("OR")), Sym(Symbol.Terminal("REPLACE")), Opt([Alternative([Sym(Symbol.Terminal("PROPERTY"))])]), Sym(Symbol.Terminal("GRAPH"))])])])])]) == map["create_graph_statement" := {["CREATE", "PROPERTY", "GRAPH", "IF", "NOT", "EXISTS"], ["CREATE", "PROPERTY", "GRAPH"], ["CREATE", "GRAPH", "IF", "NOT", "EXISTS"], ["CREATE", "GRAPH"], ["CREATE", "OR", "REPLACE", "PROPERTY", "GRAPH"], ["CREATE", "OR", "REPLACE", "GRAPH"]}]
  {
    Step132();
    Step95();
    Test12Block1Merge();
    var g: Grammar := map[];
    WithNoLists(g);
    var rules := [Rule("create graph statement", [Alternative([Sym(Symbol.Terminal("CREATE")), Group([Alternative([Opt([Alternative([Sym(Symbol.Terminal("PROPERTY"))])]), Sym(Symbol.Terminal("GRAPH")), Opt([Alternative([Sym(Symbol.Terminal("IF")), Sym(Symbol.Terminal("NOT")), Sym(Symbol.Terminal("EXISTS"))])])]), Alternative([Sym(Symbol.Terminal("OR")), Sym(Symbol.Terminal("REPLACE")), Opt([Alternative([Sym(Symbol.Terminal("PROPERTY"))])]), Sym(Symbol.Terminal("GRAPH"))])])])])];
    assert rules[..0] == [];
    var w: Grammar := map[];
    BlockStep(rules, g, {}, w, "create_graph_statement", {["CREATE", "PROPERTY", "GRAPH", "IF", "NOT", "EXISTS"], ["CREATE", "PROPERTY", "GRAPH"], ["CREATE", "GRAPH", "IF", "NOT", "EXISTS"], ["CREATE", "GRAPH"], ["CREATE", "OR", "REPLACE", "PROPERTY", "GRAPH"], ["CREATE", "OR", "REPLACE", "GRAPH"]}, map["create_graph_statement" := {["CREATE", "PROPERTY", "GRAPH", "IF", "NOT", "EXISTS"], ["CREATE", "PROPERTY", "GRAPH"], ["CREATE", "GRAPH", "IF", "NOT", "EXISTS"], ["CREATE", "GRAPH"], ["CREATE", "OR", "REPLACE", "PROPERTY", "GRAPH"], ["CREATE", "OR", "REPLACE", "GRAPH"]}]);
  }

  /** The map the test expects. */
  lemma Test12()
    ensures Convert(Text12) == Some(map["create_graph_statement" := {["CREATE", "PROPERTY", "GRAPH", "IF", "NOT", "EXISTS"], ["CREATE", "PROPERTY", "GRAPH"], ["CREATE", "GRAPH", "IF", "NOT", "EXISTS"], ["CREATE", "GRAPH"], ["CREATE", "OR", "REPLACE", "PROPERTY", "GRAPH"], ["CREATE", "OR", "REPLACE", "GRAPH"]}])
  {
    Parsed12();
    Test12Block1();
  }


  // test_13, line 538 of the test file
  /** The grammar text of test_13 as its token sequence. */
  const Text13: seq<Token> := [BlockEnd, Token.Nonterminal("create graph statement"), Defines, Token.Terminal("CREATE"), LBrace, LBrack, Token.Terminal("PROPERTY"), RBrack, Token.Terminal("GRAPH"), LBrack, Token.Terminal("IF"), Token.Terminal("NOT"), Token.Terminal("EXISTS"), RBrack, Bar, Token.Terminal("OR"), Token.Terminal("REPLACE"), LBrack, Token.Terminal("PROPERTY"), RBrack, Token.Terminal("GRAPH"), RBrace, Token.Nonterminal("catalog graph parent and name")]

  /** Tokens of test_13's text, four at a time. */
  lemma Text13Tokens1()
    ensures |Text13| == 23
    ensures Text13[0] == BlockEnd
    ensures Text13[1] == Token.Nonterminal("create graph statement")
    ensures Text13[2] == Defines
    ensures Text13[3] == Token.Terminal("CREATE")
  {
  }

  /** Tokens of test_13's text, four at a time. */
  lemma Text13Tokens2()
    ensures Text13[4] == LBrace
    ensures Text13[5] == LBrack
    ensures Text13[6] == Token.Terminal("PROPERTY")
    ensures Text13[7] == RBrack
  {
  }

  /** Tokens of test_13's text, four at a time. */
  lemma Text13Tokens3()
    ensures Text13[8] == Token.Terminal("GRAPH")
    ensures Text13[9] == LBrack
    ensures Text13[10] == Token.Terminal("IF")
    ensures Text13[11] == Token.Terminal("NOT")
  {
  }

  /** Tokens of test_13's text, four at a time. */
  lemma Text13Tokens4()
    ensures Text13[12] == Token.Terminal("EXISTS")
    ensures Text13[13] == RBrack
    ensures Text13[14] == Bar
    ensures Text13[15] == Token.Terminal("OR")
  {
  }

  /** Tokens of test_13's text, four at a time. */
  lemma Text13Tokens5()
    ensures Text13[16] == Token.Terminal("REPLACE")
    ensures Text13[17] == LBrack
    ensures Text13[18] == Token.Terminal("PROPERTY")
    ensures Text13[19] == RBrack
  {
  }

  /** Tokens of test_13's text, four at a time. */
  lemma Text13Tokens6()
    ensures Text13[20] == Token.Terminal("GRAPH")
    ensures Text13[21] == RBrace
    ensures Text13[22] == Token.Nonterminal("catalog graph parent and name")
  {
  }

  /** Parser results on test_13's text, in evaluation order (part 1). */
  lemma Parsed13Step1(ts: seq<Token>)
    requires |ts| == 23 && ts[0] == BlockEnd && ts[1] == Token.Nonterminal("create graph statement") && ts[2] == Defines && ts[3] == Token.Terminal("CREATE") && ts[4] == LBrace && ts[5] == LBrack && ts[6] == Token.Terminal("PROPERTY") && ts[7] == RBrack && ts[8] == Token.Terminal("GRAPH") && ts[9] == LBrack && ts[10] == Token.Terminal("IF") && ts[11] == Token.Terminal("NOT") && ts[12] == Token.Terminal("EXISTS") && ts[13] == RBrack && ts[14] == Bar && ts[15] == Token.Terminal("OR") && ts[16] == Token.Terminal("REPLACE") && ts[17] == LBrack && ts[18] == Token.Terminal("PROPERTY") && ts[19] == RBrack && ts[20] == Token.Terminal("GRAPH") && ts[21] == RBrace && ts[22] == Token.Nonterminal("catalog graph parent and name")
    ensures SkipBlank(ts, 1) == 1
    ensures SkipBlank(ts, 0) == 1
    ensures ParseElement(ts, 3) == Parsed(Sym(Symbol.Terminal("CREATE")), 4)
    ensures ParseElement(ts, 6) == Parsed(Sym(Symbol.Terminal("PROPERTY")), 7)
  {
  }

  /** Parser results on test_13's text, in evaluation order (part 2). */
  lemma Parsed13Step2(ts: seq<Token>)
    requires |ts| == 23 && ts[0] == BlockEnd && ts[1] == Token.Nonterminal("create graph statement") && ts[2] == Defines && ts[3] == Token.Terminal("CREATE") && ts[4] == LBrace && ts[5] == LBrack && ts[6] == Token.Terminal("PROPERTY") && ts[7] == RBrack && ts[8] == Token.Terminal("GRAPH") && ts[9] == LBrack && ts[10] == Token.Terminal("IF") && ts[11] == Token.Terminal("NOT") && ts[12] == Token.Terminal("EXISTS") && ts[13] == RBrack && ts[14] == Bar && ts[15] == Token.Terminal("OR") && ts[16] == Token.Terminal("REPLACE") && ts[17] == LBrack && ts[18] == Token.Terminal("PROPERTY") && ts[19] == RBrack && ts[20] == Token.Terminal("GRAPH") && ts[21] == RBrace && ts[22] == Token.Nonterminal("catalog graph parent and name")
    ensures ParseItems(ts, 7) == Parsed([], 7)
    ensures [Sym(Symbol.Terminal("PROPERTY"))] + [] == [Sym(Symbol.Terminal("PROPERTY"))]
    ensures ParseAlternative(ts, 6) == Parsed(Alternative([Sym(Symbol.Terminal("PROPERTY"))]), 7)
    ensures ParseMoreAlternatives(ts, 7) == Parsed([], 7)
  {
    Parsed13Step1(ts);
  }

  /** Parser results on test_13's text, in evaluation order (part 3). */
  lemma Parsed13Step3(ts: seq<Token>)
    requires |ts| == 23 && ts[0] == BlockEnd && ts[1] == Token.Nonterminal("create graph statement") && ts[2] == Defines && ts[3] == Token.Terminal("CREATE") && ts[4] == LBrace && ts[5] == LBrack && ts[6] == Token.Terminal("PROPERTY") && ts[7] == RBrack && ts[8] == Token.Terminal("GRAPH") && ts[9] == LBrack && ts[10] == Token.Terminal("IF") && ts[11] == Token.Terminal("NOT") && ts[12] == Token.Terminal("EXISTS") && ts[13] == RBrack && ts[14] == Bar && ts[15] == Token.Terminal("OR") && ts[16] == Token.Terminal("REPLACE") && ts[17] == LBrack && ts[18] == Token.Terminal("PROPERTY") && ts[19] == RBrack && ts[20] == Token.Terminal("GRAPH") && ts[21] == RBrace && ts[22] == Token.Nonterminal("catalog graph parent and name")
    ensures [Alternative([Sym(Symbol.Terminal("PROPERTY"))])] + [] == [Alternative([Sym(Symbol.Terminal("PROPERTY"))])]
    ensures ParseAlternatives(ts, 6) == Parsed([Alternative([Sym(Symbol.Terminal("PROPERTY"))])], 7)
    ensures ParseElement(ts, 5) == Parsed(Opt([Alternative([Sym(Symbol.Terminal("PROPERTY"))])]), 8)
    ensures ParseElement(ts, 8) == Parsed(Sym(Symbol.Terminal("GRAPH")), 9)
  {
    Parsed13Step2(ts);
  }

  /** Parser results on test_13's text, in evaluation order (part 4). */
  lemma Parsed13Step4(ts: seq<Token>)
    requires |ts| == 23 && ts[0] == BlockEnd && ts[1] == Token.Nonterminal("create graph statement") && ts[2] == Defines && ts[3] == Token.Terminal("CREATE") && ts[4] == LBrace && ts[5] == LBrack && ts[6] == Token.Terminal("PROPERTY") && ts[7] == RBrack && ts[8] == Token.Terminal("GRAPH") && ts[9] == LBrack && ts[10] == Token.Terminal("IF") && ts[11] == Token.Terminal("NOT") && ts[12] == Token.Terminal("EXISTS") && ts[13] == RBrack && ts[14] == Bar && ts[15] == Token.Terminal("OR") && ts[16] == Token.Terminal("REPLACE") && ts[17] == LBrack && ts[18] == Token.Terminal("PROPERTY") && ts[19] == RBrack && ts[20] == Token.Terminal("GRAPH") && ts[21] == RBrace && ts[22] == Token.Nonterminal("catalog graph parent and name")
    ensures ParseElement(ts, 10) == Parsed(Sym(Symbol.Terminal("IF")), 11)
    ensures ParseElement(ts, 11) == Parsed(Sym(Symbol.Terminal("NOT")), 12)
    ensures ParseElement(ts, 12) == Parsed(Sym(Symbol.Terminal("EXISTS")), 13)
    ensures ParseItems(ts, 13) == Parsed([], 13)
  {
  }

  /** Parser results on test_13's text, in evaluation order (part 5). */
  lemma Parsed13Step5(ts: seq<Token>)
    requires |ts| == 23 && ts[0] == BlockEnd && ts[1] == Token.Nonterminal("create graph statement") && ts[2] == Defines && ts[3] == Token.Terminal("CREATE") && ts[4] == LBrace && ts[5] == LBrack && ts[6] == Token.Terminal("PROPERTY") && ts[7] == RBrack && ts[8] == Token.Terminal("GRAPH") && ts[9] == LBrack && ts[10] == Token.Terminal("IF") && ts[11] == Token.Terminal("NOT") && ts[12] == Token.Terminal("EXISTS") && ts[13] == RBrack && ts[14] == Bar && ts[15] == Token.Terminal("OR") && ts[16] == Token.Terminal("REPLACE") && ts[17] == LBrack && ts[18] == Token.Terminal("PROPERTY") && ts[19] == RBrack && ts[20] == Token.Terminal("GRAPH") && ts[21] == RBrace && ts[22] == Token.Nonterminal("catalog graph parent and name")
    ensures [Sym(Symbol.Terminal("EXISTS"))] + [] == [Sym(Symbol.Terminal("EXISTS"))]
    ensures ParseItems(ts, 12) == Parsed([Sym(Symbol.Terminal("EXISTS"))], 13)
    ensures [Sym(Symbol.Terminal("NOT"))] + [Sym(Symbol.Terminal("EXISTS"))] == [Sym(Symbol.Terminal("NOT")), Sym(Symbol.Terminal("EXISTS"))]
    ensures ParseItems(ts, 11) == Parsed([Sym(Symbol.Terminal("NOT")), Sym(Symbol.Terminal("EXISTS"))], 13)
  {
    Parsed13Step4(ts);
  }

  /** Parser results on test_13's text, in evaluation order (part 6). */
  lemma Parsed13Step6(ts: seq<Token>)
    requires |ts| == 23 && ts[0] == BlockEnd && ts[1] == Token.Nonterminal("create graph statement") && ts[2] == Defines && ts[3] == Token.Terminal("CREATE") && ts[4] == LBrace && ts[5] == LBrack && ts[6] == Token.Terminal("PROPERTY") && ts[7] == RBrack && ts[8] == Token.Terminal("GRAPH") && ts[9] == LBrack && ts[10] == Token.Terminal("IF") && ts[11] == Token.Terminal("NOT") && ts[12] == Token.Terminal("EXISTS") && ts[13] == RBrack && ts[14] == Bar && ts[15] == Token.Terminal("OR") && ts[16] == Token.Terminal("REPLACE") && ts[17] == LBrack && ts[18] == Token.Terminal("PROPERTY") && ts[19] == RBrack && ts[20] == Token.Terminal("GRAPH") && ts[21] == RBrace && ts[22] == Token.Nonterminal("catalog graph parent and name")
    ensures [Sym(Symbol.Terminal("IF"))] + [Sym(Symbol.Terminal("NOT")), Sym(Symbol.Terminal("EXISTS"))] == [Sym(Symbol.Terminal("IF")), Sym(Symbol.Terminal("NOT")), Sym(Symbol.Terminal("EXISTS"))]
    ensures ParseAlternative(ts, 10) == Parsed(Alternative([Sym(Symbol.Terminal("IF")), Sym(Symbol.Terminal("NOT")), Sym(Symbol.Terminal("EXISTS"))]), 13)
    ensures ParseMoreAlternatives(ts, 13) == Parsed([], 13)
    ensures [Alternative([Sym(Symbol.Terminal("IF")), Sym(Symbol.Terminal("NOT")), Sym(Symbol.Terminal("EXISTS"))])] + [] == [Alternative([Sym(Symbol.Terminal("IF")), Sym(Symbol.Terminal("NOT")), Sym(Symbol.Terminal("EXISTS"))])]
  {
    Parsed13Step4(ts);
    Parsed13Step5(ts);
  }

  /** Parser results on test_13's text, in evaluation order (part 7). */
  lemma Parsed13Step7(ts: seq<Token>)
    requires |ts| == 23 && ts[0] == BlockEnd && ts[1] == Token.Nonterminal("create graph statement") && ts[2] == Defines && ts[3] == Token.Terminal("CREATE") && ts[4] == LBrace && ts[5] == LBrack && ts[6] == Token.Terminal("PROPERTY") && ts[7] == RBrack && ts[8] == Token.Terminal("GRAPH") && ts[9] == LBrack && ts[10] == Token.Terminal("IF") && ts[11] == Token.Terminal("NOT") && ts[12] == Token.Terminal("EXISTS") && ts[13] == RBrack && ts[14] == Bar && ts[15] == Token.Terminal("OR") && ts[16] == Token.Terminal("REPLACE") && ts[17] == LBrack && ts[18] == Token.Terminal("PROPERTY") && ts[19] == RBrack && ts[20] == Token.Terminal("GRAPH") && ts[21] == RBrace && ts[22] == Token.Nonterminal("catalog graph parent and name")
    ensures ParseAlternatives(ts, 10) == Parsed([Alternative([Sym(Symbol.Terminal("IF")), Sym(Symbol.Terminal("NOT")), Sym(Symbol.Terminal("EXISTS"))])], 13)
    ensures ParseElement(ts, 9) == Parsed(Opt([Alternative([Sym(Symbol.Terminal("IF")), Sym(Symbol.Terminal("NOT")), Sym(Symbol.Terminal("EXISTS"))])]), 14)
    ensures ParseItems(ts, 14) == Parsed([], 14)
    ensures [Opt([Alternative([Sym(Symbol.Terminal("IF")), Sym(Symbol.Terminal("NOT")), Sym(Symbol.Terminal("EXISTS"))])])] + [] == [Opt([Alternative([Sym(Symbol.Terminal("IF")), Sym(Symbol.Terminal("NOT")), Sym(Symbol.Terminal("EXISTS"))])])]
  {
    Parsed13Step6(ts);
  }

  /** Parser results on test_13's text, in evaluation order (part 8). */
  lemma Parsed13Step8(ts: seq<Token>)
    requires |ts| == 23 && ts[0] == BlockEnd && ts[1] == Token.Nonterminal("create graph statement") && ts[2] == Defines && ts[3] == Token.Terminal("CREATE") && ts[4] == LBrace && ts[5] == LBrack && ts[6] == Token.Terminal("PROPERTY") && ts[7] == RBrack && ts[8] == Token.Terminal("GRAPH") && ts[9] == LBrack && ts[10] == Token.Terminal("IF") && ts[11] == Token.Terminal("NOT") && ts[12] == Token.Terminal("EXISTS") && ts[13] == RBrack && ts[14] == Bar && ts[15] == Token.Terminal("OR") && ts[16] == Token.Terminal("REPLACE") && ts[17] == LBrack && ts[18] == Token.Terminal("PROPERTY") && ts[19] == RBrack && ts[20] == Token.Terminal("GRAPH") && ts[21] == RBrace && ts[22] == Token.Nonterminal("catalog graph parent and name")
    ensures ParseItems(ts, 9) == Parsed([Opt([Alternative([Sym(Symbol.Terminal("IF")), Sym(Symbol.Terminal("NOT")), Sym(Symbol.Terminal("EXISTS"))])])], 14)
    ensures [Sym(Symbol.Terminal("GRAPH"))] + [Opt([Alternative([Sym(Symbol.Terminal("IF")), Sym(Symbol.Terminal("NOT")), Sym(Symbol.Terminal("EXISTS"))])])] == [Sym(Symbol.Terminal("GRAPH")), Opt([Alternative([Sym(Symbol.Terminal("IF")), Sym(Symbol.Terminal("NOT")), Sym(Symbol.Terminal("EXISTS"))])])]
    ensures ParseItems(ts, 8) == Parsed([Sym(Symbol.Terminal("GRAPH")), Opt([Alternative([Sym(Symbol.Terminal("IF")), Sym(Symbol.Terminal("NOT")), Sym(Symbol.Terminal("EXISTS"))])])], 14)
    ensures [Opt([Alternative([Sym(Symbol.Terminal("PROPERTY"))])])] + [Sym(Symbol.Terminal("GRAPH")), Opt([Alternative([Sym(Symbol.Terminal("IF")), Sym(Symbol.Terminal("NOT")), Sym(Symbol.Terminal("EXISTS"))])])] == [Opt([Alternative([Sym(Symbol.Terminal("PROPERTY"))])]), Sym(Symbol.Terminal("GRAPH")), Opt([Alternative([Sym(Symbol.Terminal("IF")), Sym(Symbol.Terminal("NOT")), Sym(Symbol.Terminal("EXISTS"))])])]
  {
    Parsed13Step3(ts);
    Parsed13Step7(ts);
  }

  /** Parser results on test_13's text, in evaluation order (part 9). */
  lemma Parsed13Step9(ts: seq<Token>)
    requires |ts| == 23 && ts[0] == BlockEnd && ts[1] == Token.Nonterminal("create graph statement") && ts[2] == Defines && ts[3] == Token.Terminal("CREATE") && ts[4] == LBrace && ts[5] == LBrack && ts[6] == Token.Terminal("PROPERTY") && ts[7] == RBrack && ts[8] == Token.Terminal("GRAPH") && ts[9] == LBrack && ts[10] == Token.Terminal("IF") && ts[11] == Token.Terminal("NOT") && ts[12] == Token.Terminal("EXISTS") && ts[13] == RBrack && ts[14] == Bar && ts[15] == Token.Terminal("OR") && ts[16] == Token.Terminal("REPLACE") && ts[17] == LBrack && ts[18] == Token.Terminal("PROPERTY") && ts[19] == RBrack && ts[20] == Token.Terminal("GRAPH") && ts[21] == RBrace && ts[22] == Token.Nonterminal("catalog graph parent and name")
    ensures ParseAlternative(ts, 5) == Parsed(Alternative([Opt([Alternative([Sym(Symbol.Terminal("PROPERTY"))])]), Sym(Symbol.Terminal("GRAPH")), Opt([Alternative([Sym(Symbol.Terminal("IF")), Sym(Symbol.Terminal("NOT")), Sym(Symbol.Terminal("EXISTS"))])])]), 14)
    ensures ParseElement(ts, 15) == Parsed(Sym(Symbol.Terminal("OR")), 16)
    ensures ParseElement(ts, 16) == Parsed(Sym(Symbol.Terminal("REPLACE")), 17)
    ensures ParseElement(ts, 18) == Parsed(Sym(Symbol.Terminal("PROPERTY")), 19)
  {
    Parsed13Step3(ts);
    Parsed13Step8(ts);
  }

  /** Parser results on test_13's text, in evaluation order (part 10). */
  lemma Parsed13Step10(ts: seq<Token>)
    requires |ts| == 23 && ts[0] == BlockEnd && ts[1] == Token.Nonterminal("create graph statement") && ts[2] == Defines && ts[3] == Token.Terminal("CREATE") && ts[4] == LBrace && ts[5] == LBrack && ts[6] == Token.Terminal("PROPERTY") && ts[7] == RBrack && ts[8] == Token.Terminal("GRAPH") && ts[9] == LBrack && ts[10] == Token.Terminal("IF") && ts[11] == Token.Terminal("NOT") && ts[12] == Token.Terminal("EXISTS") && ts[13] == RBrack && ts[14] == Bar && ts[15] == Token.Terminal("OR") && ts[16] == Token.Terminal("REPLACE") && ts[17] == LBrack && ts[18] == Token.Terminal("PROPERTY") && ts[19] == RBrack && ts[20] == Token.Terminal("GRAPH") && ts[21] == RBrace && ts[22] == Token.Nonterminal("catalog graph parent and name")
    ensures ParseItems(ts, 19) == Parsed([], 19)
    ensures [Sym(Symbol.Terminal("PROPERTY"))] + [] == [Sym(Symbol.Terminal("PROPERTY"))]
    ensures ParseAlternative(ts, 18) == Parsed(Alternative([Sym(Symbol.Terminal("PROPERTY"))]), 19)
    ensures ParseMoreAlternatives(ts, 19) == Parsed([], 19)
  {
    Parsed13Step9(ts);
  }

  /** Parser results on test_13's text, in evaluation order (part 11). */
  lemma Parsed13Step11(ts: seq<Token>)
    requires |ts| == 23 && ts[0] == BlockEnd && ts[1] == Token.Nonterminal("create graph statement") && ts[2] == Defines && ts[3] == Token.Terminal("CREATE") && ts[4] == LBrace && ts[5] == LBrack && ts[6] == Token.Terminal("PROPERTY") && ts[7] == RBrack && ts[8] == Token.Terminal("GRAPH") && ts[9] == LBrack && ts[10] == Token.Terminal("IF") && ts[11] == Token.Terminal("NOT") && ts[12] == Token.Terminal("EXISTS") && ts[13] == RBrack && ts[14] == Bar && ts[15] == Token.Terminal("OR") && ts[16] == Token.Terminal("REPLACE") && ts[17] == LBrack && ts[18] == Token.Terminal("PROPERTY") && ts[19] == RBrack && ts[20] == Token.Terminal("GRAPH") && ts[21] == RBrace && ts[22] == Token.Nonterminal("catalog graph parent and name")
    ensures [Alternative([Sym(Symbol.Terminal("PROPERTY"))])] + [] == [Alternative([Sym(Symbol.Terminal("PROPERTY"))])]
    ensures ParseAlternatives(ts, 18) == Parsed([Alternative([Sym(Symbol.Terminal("PROPERTY"))])], 19)
    ensures ParseElement(ts, 17) == Parsed(Opt([Alternative([Sym(Symbol.Terminal("PROPERTY"))])]), 20)
    ensures ParseElement(ts, 20) == Parsed(Sym(Symbol.Terminal("GRAPH")), 21)
  {
    Parsed13Step10(ts);
  }

  /** Parser results on test_13's text, in evaluation order (part 12). */
  lemma Parsed13Step12(ts: seq<Token>)
    requires |ts| == 23 && ts[0] == BlockEnd && ts[1] == Token.Nonterminal("create graph statement") && ts[2] == Defines && ts[3] == Token.Terminal("CREATE") && ts[4] == LBrace && ts[5] == LBrack && ts[6] == Token.Terminal("PROPERTY") && ts[7] == RBrack && ts[8] == Token.Terminal("GRAPH") && ts[9] == LBrack && ts[10] == Token.Terminal("IF") && ts[11] == Token.Terminal("NOT") && ts[12] == Token.Terminal("EXISTS") && ts[13] == RBrack && ts[14] == Bar && ts[15] == Token.Terminal("OR") && ts[16] == Token.Terminal("REPLACE") && ts[17] == LBrack && ts[18] == Token.Terminal("PROPERTY") && ts[19] == RBrack && ts[20] == Token.Terminal("GRAPH") && ts[21] == RBrace && ts[22] == Token.Nonterminal("catalog graph parent and name")
    ensures ParseItems(ts, 21) == Parsed([], 21)
    ensures [Sym(Symbol.Terminal("GRAPH"))] + [] == [Sym(Symbol.Terminal("GRAPH"))]
    ensures ParseItems(ts, 20) == Parsed([Sym(Symbol.Terminal("GRAPH"))], 21)
    ensures [Opt([Alternative([Sym(Symbol.Terminal("PROPERTY"))])])] + [Sym(Symbol.Terminal("GRAPH"))] == [Opt([Alternative([Sym(Symbol.Terminal("PROPERTY"))])]), Sym(Symbol.Terminal("GRAPH"))]
  {
    Parsed13Step11(ts);
  }

  /** Parser results on test_13's text, in evaluation order (part 13). */
  lemma Parsed13Step13(ts: seq<Token>)
    requires |ts| == 23 && ts[0] == BlockEnd && ts[1] == Token.Nonterminal("create graph statement") && ts[2] == Defines && ts[3] == Token.Terminal("CREATE") && ts[4] == LBrace && ts[5] == LBrack && ts[6] == Token.Terminal("PROPERTY") && ts[7] == RBrack && ts[8] == Token.Terminal("GRAPH") && ts[9] == LBrack && ts[10] == Token.Terminal("IF") && ts[11] == Token.Terminal("NOT") && ts[12] == Token.Terminal("EXISTS") && ts[13] == RBrack && ts[14] == Bar && ts[15] == Token.Terminal("OR") && ts[16] == Token.Terminal("REPLACE") && ts[17] == LBrack && ts[18] == Token.Terminal("PROPERTY") && ts[19] == RBrack && ts[20] == Token.Terminal("GRAPH") && ts[21] == RBrace && ts[22] == Token.Nonterminal("catalog graph parent and name")
    ensures ParseItems(ts, 17) == Parsed([Opt([Alternative([Sym(Symbol.Terminal("PROPERTY"))])]), Sym(Symbol.Terminal("GRAPH"))], 21)
    ensures [Sym(Symbol.Terminal("REPLACE"))] + [Opt([Alternative([Sym(Symbol.Terminal("PROPERTY"))])]), Sym(Symbol.Terminal("GRAPH"))] == [Sym(Symbol.Terminal("REPLACE")), Opt([Alternative([Sym(Symbol.Terminal("PROPERTY"))])]), Sym(Symbol.Terminal("GRAPH"))]
    ensures ParseItems(ts, 16) == Parsed([Sym(Symbol.Terminal("REPLACE")), Opt([Alternative([Sym(Symbol.Terminal("PROPERTY"))])]), Sym(Symbol.Terminal("GRAPH"))], 21)
    ensures [Sym(Symbol.Terminal("OR"))] + [Sym(Symbol.Terminal("REPLACE")), Opt([Alternative([Sym(Symbol.Terminal("PROPERTY"))])]), Sym(Symbol.Terminal("GRAPH"))] == [Sym(Symbol.Terminal("OR")), Sym(Symbol.Terminal("REPLACE")), Opt([Alternative([Sym(Symbol.Terminal("PROPERTY"))])]), Sym(Symbol.Terminal("GRAPH"))]
  {
    Parsed13Step9(ts);
    Parsed13Step11(ts);
    Parsed13Step12(ts);
  }

  /** Parser results on test_13's text, in evaluation order (part 14). */
  lemma Parsed13Step14(ts: seq<Token>)
    requires |ts| == 23 && ts[0] == BlockEnd && ts[1] == Token.Nonterminal("create graph statement") && ts[2] == Defines && ts[3] == Token.Terminal("CREATE") && ts[4] == LBrace && ts[5] == LBrack && ts[6] == Token.Terminal("PROPERTY") && ts[7] == RBrack && ts[8] == Token.Terminal("GRAPH") && ts[9] == LBrack && ts[10] == Token.Terminal("IF") && ts[11] == Token.Terminal("NOT") && ts[12] == Token.Terminal("EXISTS") && ts[13] == RBrack && ts[14] == Bar && ts[15] == Token.Terminal("OR") && ts[16] == Token.Terminal("REPLACE") && ts[17] == LBrack && ts[18] == Token.Terminal("PROPERTY") && ts[19] == RBrack && ts[20] == Token.Terminal("GRAPH") && ts[21] == RBrace && ts[22] == Token.Nonterminal("catalog graph parent and name")
    ensures ParseAlternative(ts, 15) == Parsed(Alternative([Sym(Symbol.Terminal("OR")), Sym(Symbol.Terminal("REPLACE")), Opt([Alternative([Sym(Symbol.Terminal("PROPERTY"))])]), Sym(Symbol.Terminal("GRAPH"))]), 21)
    ensures ParseMoreAlternatives(ts, 21) == Parsed([], 21)
    ensures [Alternative([Sym(Symbol.Terminal("OR")), Sym(Symbol.Terminal("REPLACE")), Opt([Alternative([Sym(Symbol.Terminal("PROPERTY"))])]), Sym(Symbol.Terminal("GRAPH"))])] + [] == [Alternative([Sym(Symbol.Terminal("OR")), Sym(Symbol.Terminal("REPLACE")), Opt([Alternative([Sym(Symbol.Terminal("PROPERTY"))])]), Sym(Symbol.Terminal("GRAPH"))])]
    ensures ParseMoreAlternatives(ts, 14) == Parsed([Alternative([Sym(Symbol.Terminal("OR")), Sym(Symbol.Terminal("REPLACE")), Opt([Alternative([Sym(Symbol.Terminal("PROPERTY"))])]), Sym(Symbol.Terminal("GRAPH"))])], 21)
  {
    Parsed13Step9(ts);
    Parsed13Step13(ts);
  }

  /** Parser results on test_13's text, in evaluation order (part 15). */
  lemma Parsed13Step15(ts: seq<Token>)
    requires |ts| == 23 && ts[0] == BlockEnd && ts[1] == Token.Nonterminal("create graph statement") && ts[2] == Defines && ts[3] == Token.Terminal("CREATE") && ts[4] == LBrace && ts[5] == LBrack && ts[6] == Token.Terminal("PROPERTY") && ts[7] == RBrack && ts[8] == Token.Terminal("GRAPH") && ts[9] == LBrack && ts[10] == Token.Terminal("IF") && ts[11] == Token.Terminal("NOT") && ts[12] == Token.Terminal("EXISTS") && ts[13] == RBrack && ts[14] == Bar && ts[15] == Token.Terminal("OR") && ts[16] == Token.Terminal("REPLACE") && ts[17] == LBrack && ts[18] == Token.Terminal("PROPERTY") && ts[19] == RBrack && ts[20] == Token.Terminal("GRAPH") && ts[21] == RBrace && ts[22] == Token.Nonterminal("catalog graph parent and name")
    ensures [Alternative([Opt([Alternative([Sym(Symbol.Terminal("PROPERTY"))])]), Sym(Symbol.Terminal("GRAPH")), Opt([Alternative([Sym(Symbol.Terminal("IF")), Sym(Symbol.Terminal("NOT")), Sym(Symbol.Terminal("EXISTS"))])])])] + [Alternative([Sym(Symbol.Terminal("OR")), Sym(Symbol.Terminal("REPLACE")), Opt([Alternative([Sym(Symbol.Terminal("PROPERTY"))])]), Sym(Symbol.Terminal("GRAPH"))])] == [Alternative([Opt([Alternative([Sym(Symbol.Terminal("PROPERTY"))])]), Sym(Symbol.Terminal("GRAPH")), Opt([Alternative([Sym(Symbol.Terminal("IF")), Sym(Symbol.Terminal("NOT")), Sym(Symbol.Terminal("EXISTS"))])])]), Alternative([Sym(Symbol.Terminal("OR")), Sym(Symbol.Terminal("REPLACE")), Opt([Alternative([Sym(Symbol.Terminal("PROPERTY"))])]), Sym(Symbol.Terminal("GRAPH"))])]
    ensures ParseAlternatives(ts, 5) == Parsed([Alternative([Opt([Alternative([Sym(Symbol.Terminal("PROPERTY"))])]), Sym(Symbol.Terminal("GRAPH")), Opt([Alternative([Sym(Symbol.Terminal("IF")), Sym(Symbol.Terminal("NOT")), Sym(Symbol.Terminal("EXISTS"))])])]), Alternative([Sym(Symbol.Terminal("OR")), Sym(Symbol.Terminal("REPLACE")), Opt([Alternative([Sym(Symbol.Terminal("PROPERTY"))])]), Sym(Symbol.Terminal("GRAPH"))])], 21)
    ensures ParseElement(ts, 4) == Parsed(Group([Alternative([Opt([Alternative([Sym(Symbol.Terminal("PROPERTY"))])]), Sym(Symbol.Terminal("GRAPH")), Opt([Alternative([Sym(Symbol.Terminal("IF")), Sym(Symbol.Terminal("NOT")), Sym(Symbol.Terminal("EXISTS"))])])]), Alternative([Sym(Symbol.Terminal("OR")), Sym(Symbol.Terminal("REPLACE")), Opt([Alternative([Sym(Symbol.Terminal("PROPERTY"))])]), Sym(Symbol.Terminal("GRAPH"))])]), 22)
    ensures ParseElement(ts, 22) == Parsed(Sym(Symbol.Nonterminal("catalog graph parent and name")), 23)
  {
    Parsed13Step9(ts);
    Parsed13Step14(ts);
  }

  /** Parser results on test_13's text, in evaluation order (part 16). */
  lemma Parsed13Step16(ts: seq<Token>)
    requires |ts| == 23 && ts[0] == BlockEnd && ts[1] == Token.Nonterminal("create graph statement") && ts[2] == Defines && ts[3] == Token.Terminal("CREATE") && ts[4] == LBrace && ts[5] == LBrack && ts[6] == Token.Terminal("PROPERTY") && ts[7] == RBrack && ts[8] == Token.Terminal("GRAPH") && ts[9] == LBrack && ts[10] == Token.Terminal("IF") && ts[11] == Token.Terminal("NOT") && ts[12] == Token.Terminal("EXISTS") && ts[13] == RBrack && ts[14] == Bar && ts[15] == Token.Terminal("OR") && ts[16] == Token.Terminal("REPLACE") && ts[17] == LBrack && ts[18] == Token.Terminal("PROPERTY") && ts[19] == RBrack && ts[20] == Token.Terminal("GRAPH") && ts[21] == RBrace && ts[22] == Token.Nonterminal("catalog graph parent and name")
    ensures ParseItems(ts, 23) == Parsed([], 23)
    ensures [Sym(Symbol.Nonterminal("catalog graph parent and name"))] + [] == [Sym(Symbol.Nonterminal("catalog graph parent and name"))]
    ensures ParseItems(ts, 22) == Parsed([Sym(Symbol.Nonterminal("catalog graph parent and name"))], 23)
    ensures [Group([Alternative([Opt([Alternative([Sym(Symbol.Terminal("PROPERTY"))])]), Sym(Symbol.Terminal("GRAPH")), Opt([Alternative([Sym(Symbol.Terminal("IF")), Sym(Symbol.Terminal("NOT")), Sym(Symbol.Terminal("EXISTS"))])])]), Alternative([Sym(Symbol.Terminal("OR")), Sym(Symbol.Terminal("REPLACE")), Opt([Alternative([Sym(Symbol.Terminal("PROPERTY"))])]), Sym(Symbol.Terminal("GRAPH"))])])] + [Sym(Symbol.Nonterminal("catalog graph parent and name"))] == [Group([Alternative([Opt([Alternative([Sym(Symbol.Terminal("PROPERTY"))])]), Sym(Symbol.Terminal("GRAPH")), Opt([Alternative([Sym(Symbol.Terminal("IF")), Sym(Symbol.Terminal("NOT")), Sym(Symbol.Terminal("EXISTS"))])])]), Alternative([Sym(Symbol.Terminal("OR")), Sym(Symbol.Terminal("REPLACE")), Opt([Alternative([Sym(Symbol.Terminal("PROPERTY"))])]), Sym(Symbol.Terminal("GRAPH"))])]), Sym(Symbol.Nonterminal("catalog graph parent and name"))]
  {
    Parsed13Step15(ts);
  }

  /** Parser results on test_13's text, in evaluation order (part 17). */
  lemma Parsed13Step17(ts: seq<Token>)
    requires |ts| == 23 && ts[0] == BlockEnd && ts[1] == Token.Nonterminal("create graph statement") && ts[2] == Defines && ts[3] == Token.Terminal("CREATE") && ts[4] == LBrace && ts[5] == LBrack && ts[6] == Token.Terminal("PROPERTY") && ts[7] == RBrack && ts[8] == Token.Terminal("GRAPH") && ts[9] == LBrack && ts[10] == Token.Terminal("IF") && ts[11] == Token.Terminal("NOT") && ts[12] == Token.Terminal("EXISTS") && ts[13] == RBrack && ts[14] == Bar && ts[15] == Token.Terminal("OR") && ts[16] == Token.Terminal("REPLACE") && ts[17] == LBrack && ts[18] == Token.Terminal("PROPERTY") && ts[19] == RBrack && ts[20] == Token.Terminal("GRAPH") && ts[21] == RBrace && ts[22] == Token.Nonterminal("catalog graph parent and name")
    ensures ParseItems(ts, 4) == Parsed([Group([Alternative([Opt([Alternative([Sym(Symbol.Terminal("PROPERTY"))])]), Sym(Symbol.Terminal("GRAPH")), Opt([Alternative([Sym(Symbol.Terminal("IF")), Sym(Symbol.Terminal("NOT")), Sym(Symbol.Terminal("EXISTS"))])])]), Alternative([Sym(Symbol.Terminal("OR")), Sym(Symbol.Terminal("REPLACE")), Opt([Alternative([Sym(Symbol.Terminal("PROPERTY"))])]), Sym(Symbol.Terminal("GRAPH"))])]), Sym(Symbol.Nonterminal("catalog graph parent and name"))], 23)
    ensures [Sym(Symbol.Terminal("CREATE"))] + [Group([Alternative([Opt([Alternative([Sym(Symbol.Terminal("PROPERTY"))])]), Sym(Symbol.Terminal("GRAPH")), Opt([Alternative([Sym(Symbol.Terminal("IF")), Sym(Symbol.Terminal("NOT")), Sym(Symbol.Terminal("EXISTS"))])])]), Alternative([Sym(Symbol.Terminal("OR")), Sym(Symbol.Terminal("REPLACE")), Opt([Alternative([Sym(Symbol.Terminal("PROPERTY"))])]), Sym(Symbol.Terminal("GRAPH"))])]), Sym(Symbol.Nonterminal("catalog graph parent and name"))] == [Sym(Symbol.Terminal("CREATE")), Group([Alternative([Opt([Alternative([Sym(Symbol.Terminal("PROPERTY"))])]), Sym(Symbol.Terminal("GRAPH")), Opt([Alternative([Sym(Symbol.Terminal("IF")), Sym(Symbol.Terminal("NOT")), Sym(Symbol.Terminal("EXISTS"))])])]), Alternative([Sym(Symbol.Terminal("OR")), Sym(Symbol.Terminal("REPLACE")), Opt([Alternative([Sym(Symbol.Terminal("PROPERTY"))])]), Sym(Symbol.Terminal("GRAPH"))])]), Sym(Symbol.Nonterminal("catalog graph parent and name"))]
    ensures ParseAlternative(ts, 3) == Parsed(Alternative([Sym(Symbol.Terminal("CREATE")), Group([Alternative([Opt([Alternative([Sym(Symbol.Terminal("PROPERTY"))])]), Sym(Symbol.Terminal("GRAPH")), Opt([Alternative([Sym(Symbol.Terminal("IF")), Sym(Symbol.Terminal("NOT")), Sym(Symbol.Terminal("EXISTS"))])])]), Alternative([Sym(Symbol.Terminal("OR")), Sym(Symbol.Terminal("REPLACE")), Opt([Alternative([Sym(Symbol.Terminal("PROPERTY"))])]), Sym(Symbol.Terminal("GRAPH"))])]), Sym(Symbol.Nonterminal("catalog graph parent and name"))]), 23)
    ensures ParseMoreAlternatives(ts, 23) == Parsed([], 23)
  {
    Parsed13Step1(ts);
    Parsed13Step15(ts);
    Parsed13Step16(ts);
  }

  /** Parser results on test_13's text, in evaluation order (part 18). */
  lemma Parsed13Step18(ts: seq<Token>)
    requires |ts| == 23 && ts[0] == BlockEnd && ts[1] == Token.Nonterminal("create graph statement") && ts[2] == Defines && ts[3] == Token.Terminal("CREATE") && ts[4] == LBrace && ts[5] == LBrack && ts[6] == Token.Terminal("PROPERTY") && ts[7] == RBrack && ts[8] == Token.Terminal("GRAPH") && ts[9] == LBrack && ts[10] == Token.Terminal("IF") && ts[11] == Token.Terminal("NOT") && ts[12] == Token.Terminal("EXISTS") && ts[13] == RBrack && ts[14] == Bar && ts[15] == Token.Terminal("OR") && ts[16] == Token.Terminal("REPLACE") && ts[17] == LBrack && ts[18] == Token.Terminal("PROPERTY") && ts[19] == RBrack && ts[20] == Token.Terminal("GRAPH") && ts[21] == RBrace && ts[22] == Token.Nonterminal("catalog graph parent and name")
    ensures [Alternative([Sym(Symbol.Terminal("CREATE")), Group([Alternative([Opt([Alternative([Sym(Symbol.Terminal("PROPERTY"))])]), Sym(Symbol.Terminal("GRAPH")), Opt([Alternative([Sym(Symbol.Terminal("IF")), Sym(Symbol.Terminal("NOT")), Sym(Symbol.Terminal("EXISTS"))])])]), Alternative([Sym(Symbol.Terminal("OR")), Sym(Symbol.Terminal("REPLACE")), Opt([Alternative([Sym(Symbol.Terminal("PROPERTY"))])]), Sym(Symbol.Terminal("GRAPH"))])]), Sym(Symbol.Nonterminal("catalog graph parent and name"))])] + [] == [Alternative([Sym(Symbol.Terminal("CREATE")), Group([Alternative([Opt([Alternative([Sym(Symbol.Terminal("PROPERTY"))])]), Sym(Symbol.Terminal("GRAPH")), Opt([Alternative([Sym(Symbol.Terminal("IF")), Sym(Symbol.Terminal("NOT")), Sym(Symbol.Terminal("EXISTS"))])])]), Alternative([Sym(Symbol.Terminal("OR")), Sym(Symbol.Terminal("REPLACE")), Opt([Alternative([Sym(Symbol.Terminal("PROPERTY"))])]), Sym(Symbol.Terminal("GRAPH"))])]), Sym(Symbol.Nonterminal("catalog graph parent and name"))])]
    ensures ParseAlternatives(ts, 3) == Parsed([Alternative([Sym(Symbol.Terminal("CREATE")), Group([Alternative([Opt([Alternative([Sym(Symbol.Terminal("PROPERTY"))])]), Sym(Symbol.Terminal("GRAPH")), Opt([Alternative([Sym(Symbol.Terminal("IF")), Sym(Symbol.Terminal("NOT")), Sym(Symbol.Terminal("EXISTS"))])])]), Alternative([Sym(Symbol.Terminal("OR")), Sym(Symbol.Terminal("REPLACE")), Opt([Alternative([Sym(Symbol.Terminal("PROPERTY"))])]), Sym(Symbol.Terminal("GRAPH"))])]), Sym(Symbol.Nonterminal("catalog graph parent and name"))])], 23)
    ensures ParseRuleBody(ts, 3) == Parsed([Alternative([Sym(Symbol.Terminal("CREATE")), Group([Alternative([Opt([Alternative([Sym(Symbol.Terminal("PROPERTY"))])]), Sym(Symbol.Terminal("GRAPH")), Opt([Alternative([Sym(Symbol.Terminal("IF")), Sym(Symbol.Terminal("NOT")), Sym(Symbol.Terminal("EXISTS"))])])]), Alternative([Sym(Symbol.Terminal("OR")), Sym(Symbol.Terminal("REPLACE")), Opt([Alternative([Sym(Symbol.Terminal("PROPERTY"))])]), Sym(Symbol.Terminal("GRAPH"))])]), Sym(Symbol.Nonterminal("catalog graph parent and name"))])], 23)
    ensures ParseRule(ts, 1) == Parsed(Rule("create graph statement", [Alternative([Sym(Symbol.Terminal("CREATE")), Group([Alternative([Opt([Alternative([Sym(Symbol.Terminal("PROPERTY"))])]), Sym(Symbol.Terminal("GRAPH")), Opt([Alternative([Sym(Symbol.Terminal("IF")), Sym(Symbol.Terminal("NOT")), Sym(Symbol.Terminal("EXISTS"))])])]), Alternative([Sym(Symbol.Terminal("OR")), Sym(Symbol.Terminal("REPLACE")), Opt([Alternative([Sym(Symbol.Terminal("PROPERTY"))])]), Sym(Symbol.Terminal("GRAPH"))])]), Sym(Symbol.Nonterminal("catalog graph parent and name"))])]), 23)
  {
    Parsed13Step17(ts);
  }

  /** Parser results on test_13's text, in evaluation order (part 19). */
  lemma Parsed13Step19(ts: seq<Token>)
    requires |ts| == 23 && ts[0] == BlockEnd && ts[1] == Token.Nonterminal("create graph statement") && ts[2] == Defines && ts[3] == Token.Terminal("CREATE") && ts[4] == LBrace && ts[5] == LBrack && ts[6] == Token.Terminal("PROPERTY") && ts[7] == RBrack && ts[8] == Token.Terminal("GRAPH") && ts[9] == LBrack && ts[10] == Token.Terminal("IF") && ts[11] == Token.Terminal("NOT") && ts[12] == Token.Terminal("EXISTS") && ts[13] == RBrack && ts[14] == Bar && ts[15] == Token.Terminal("OR") && ts[16] == Token.Terminal("REPLACE") && ts[17] == LBrack && ts[18] == Token.Terminal("PROPERTY") && ts[19] == RBrack && ts[20] == Token.Terminal("GRAPH") && ts[21] == RBrace && ts[22] == Token.Nonterminal("catalog graph parent and name")
    ensures ParseRules(ts, 1) == Some([Rule("create graph statement", [Alternative([Sym(Symbol.Terminal("CREATE")), Group([Alternative([Opt([Alternative([Sym(Symbol.Terminal("PROPERTY"))])]), Sym(Symbol.Terminal("GRAPH")), Opt([Alternative([Sym(Symbol.Terminal("IF")), Sym(Symbol.Terminal("NOT")), Sym(Symbol.Terminal("EXISTS"))])])]), Alternative([Sym(Symbol.Terminal("OR")), Sym(Symbol.Terminal("REPLACE")), Opt([Alternative([Sym(Symbol.Terminal("PROPERTY"))])]), Sym(Symbol.Terminal("GRAPH"))])]), Sym(Symbol.Nonterminal("catalog graph parent and name"))])])])
  {
    Parsed13Step18(ts);
  }

  /** The rule blocks test_13's text parses to. */
  lemma Parsed13()
    ensures Parse(Text13) == Some([Rule("create graph statement", [Alternative([Sym(Symbol.Terminal("CREATE")), Group([Alternative([Opt([Alternative([Sym(Symbol.Terminal("PROPERTY"))])]), Sym(Symbol.Terminal("GRAPH")), Opt([Alternative([Sym(Symbol.Terminal("IF")), Sym(Symbol.Terminal("NOT")), Sym(Symbol.Terminal("EXISTS"))])])]), Alternative([Sym(Symbol.Terminal("OR")), Sym(Symbol.Terminal("REPLACE")), Opt([Alternative([Sym(Symbol.Terminal("PROPERTY"))])]), Sym(Symbol.Terminal("GRAPH"))])]), Sym(Symbol.Nonterminal("catalog graph parent and name"))])])])
  {
    Text13Tokens1();
    Text13Tokens2();
    Text13Tokens3();
    Text13Tokens4();
    Text13Tokens5();
    Text13Tokens6();
    Parsed13Step1(Text13);
    Parsed13Step2(Text13);
    Parsed13Step3(Text13);
    Parsed13Step4(Text13);
    Parsed13Step5(Text13);
    Parsed13Step6(Text13);
    Parsed13Step7(Text13);
    Parsed13Step8(Text13);
    Parsed13Step9(Text13);
    Parsed13Step10(Text13);
    Parsed13Step11(Text13);
    Parsed13Step12(Text13);
    Parsed13Step13(Text13);
    Parsed13Step14(Text13);
    Parsed13Step15(Text13);
    Parsed13Step16(Text13);
    Parsed13Step17(Text13);
    Parsed13Step18(Text13);
    Parsed13Step19(Text13);
  }

  /** test_13, block 1: its alternatives merged into its entry. */
  lemma Test13Block1Merge()
    ensures var w: Grammar := map[]; w["create_graph_statement" := Lookup(w, "create_graph_statement") + {["CREATE", "PROPERTY", "GRAPH", "IF", "NOT", "EXISTS", "catalog_graph_parent_and_name"], ["CREATE", "PROPERTY", "GRAPH", "catalog_graph_parent_and_name"], ["CREATE", "GRAPH", "IF", "NOT", "EXISTS", "catalog_graph_parent_and_name"], ["CREATE", "GRAPH", "catalog_graph_parent_and_name"], ["CREATE", "OR", "REPLACE", "PROPERTY", "GRAPH", "catalog_graph_parent_and_name"], ["CREATE", "OR", "REPLACE", "GRAPH", "catalog_graph_parent_and_name"]}] == map["create_graph_statement" := {["CREATE", "PROPERTY", "GRAPH", "IF", "NOT", "EXISTS", "catalog_graph_parent_and_name"], ["CREATE", "PROPERTY", "GRAPH", "catalog_graph_parent_and_name"], ["CREATE", "GRAPH", "IF", "NOT", "EXISTS", "catalog_graph_parent_and_name"], ["CREATE", "GRAPH", "catalog_graph_parent_and_name"], ["CREATE", "OR", "REPLACE", "PROPERTY", "GRAPH", "catalog_graph_parent_and_name"], ["CREATE", "OR", "REPLACE", "GRAPH", "catalog_graph_parent_and_name"]}]
  {
    var w: Grammar := map[];
    assert Lookup(w, "create_graph_statement") == {};
    assert {} + {["CREATE", "PROPERTY", "GRAPH", "IF", "NOT", "EXISTS", "catalog_graph_parent_and_name"], ["CREATE", "PROPERTY", "GRAPH", "catalog_graph_parent_and_name"], ["CREATE", "GRAPH", "IF", "NOT", "EXISTS", "catalog_graph_parent_and_name"], ["CREATE", "GRAPH", "catalog_graph_parent_and_name"], ["CREATE", "OR", "REPLACE", "PROPERTY", "GRAPH", "catalog_graph_parent_and_name"], ["CREATE", "OR", "REPLACE", "GRAPH", "catalog_graph_parent_and_name"]} == {["CREATE", "PROPERTY", "GRAPH", "IF", "NOT", "EXISTS", "catalog_graph_parent_and_name"], ["CREATE", "PROPERTY", "GRAPH", "catalog_graph_parent_and_name"], ["CREATE", "GRAPH", "IF", "NOT", "EXISTS", "catalog_graph_parent_and_name"], ["CREATE", "GRAPH", "catalog_graph_parent_and_name"], ["CREATE", "OR", "REPLACE", "PROPERTY", "GRAPH", "catalog_graph_parent_and_name"], ["CREATE", "OR", "REPLACE", "GRAPH", "catalog_graph_parent_and_name"]};
  }

  /** test_13: the map after block 1. */
  lemma Test13Block1()
    ensures ApplyRules(map[], [Rule("create graph statement", [Alternative([Sym(Symbol.Terminal("CREATE")), Group([Alternative([Opt([Alternative([Sym(Symbol.Terminal("PROPERTY"))])]), Sym(Symbol.Terminal("GRAPH")), Opt([Alternative([Sym(Symbol.Terminal("IF")), Sym(Symbol.Terminal("NOT")), Sym(Symbol.Terminal("EXISTS"))])])]), Alternative([Sym(Symbol.Terminal("OR")), Sym(Symbol.Terminal("REPLACE")), Opt([Alternative([Sym(Symbol.Terminal("PROPERTY"))])]), Sym(Symbol.Terminal("GRAPH"))])]), Sym(Symbol.Nonterminal("catalog graph parent and name"))])])]) == map["create_graph_statement" := {["CREATE", "PROPERTY", "GRAPH", "IF", "NOT", "EXISTS", "catalog_graph_parent_and_name"], ["CREATE", "PROPERTY", "GRAPH", "catalog_graph_parent_and_name"], ["CREATE", "GRAPH", "IF", "NOT", "EXISTS", "catalog_graph_parent_and_name"], ["CREATE", "GRAPH", "catalog_graph_parent_and_name"], ["CREATE", "OR", "REPLACE", "PROPERTY", "GRAPH", "catalog_graph_parent_and_name"], ["CREATE", "OR", "REPLACE", "GRAPH", "catalog_graph_parent_and_name"]}]
  {
    Step141();
    Step95();
    Test13Block1Merge();
    var g: Grammar := map[];
    WithNoLists(g);
    var rules := [Rule("create graph statement", [Alternative([Sym(Symbol.Terminal("CREATE")), Group([Alternative([Opt([Alternative([Sym(Symbol.Terminal("PROPERTY"))])]), Sym(Symbol.Terminal("GRAPH")), Opt([Alternative([Sym(Symbol.Terminal("IF")), Sym(Symbol.Terminal("NOT")), Sym(Symbol.Terminal("EXISTS"))])])]), Alternative([Sym(Symbol.Terminal("OR")), Sym(Symbol.Terminal("REPLACE")), Opt([Alternative([Sym(Symbol.Terminal("PROPERTY"))])]), Sym(Symbol.Terminal("GRAPH"))])]), Sym(Symbol.Nonterminal("catalog graph parent and name"))])])];
    assert rules[..0] == [];
    var w: Grammar := map[];
    BlockStep(rules, g, {}, w, "create_graph_statement", {["CREATE", "PROPERTY", "GRAPH", "IF", "NOT", "EXISTS", "catalog_graph_parent_and_name"], ["CREATE", "PROPERTY", "GRAPH", "catalog_graph_parent_and_name"], ["CREATE", "GRAPH", "IF", "NOT", "EXISTS", "catalog_graph_parent_and_name"], ["CREATE", "GRAPH", "catalog_graph_parent_and_name"], ["CREATE", "OR", "REPLACE", "PROPERTY", "GRAPH", "catalog_graph_parent_and_name"], ["CREATE", "OR", "REPLACE", "GRAPH", "catalog_graph_parent_and_name"]}, map["create_graph_statement" := {["CREATE", "PROPERTY", "GRAPH", "IF", "NOT", "EXISTS", "catalog_graph_parent_and_name"], ["CREATE", "PROPERTY", "GRAPH", "catalog_graph_parent_and_name"], ["CREATE", "GRAPH", "IF", "NOT", "EXISTS", "catalog_graph_parent_and_name"], ["CREATE", "GRAPH", "catalog_graph_parent_and_name"], ["CREATE", "OR", "REPLACE", "PROPERTY", "GRAPH", "catalog_graph_parent_and_name"], ["CREATE", "OR", "REPLACE", "GRAPH", "catalog_graph_parent_and_name"]}]);
  }

  /** The map the test expects. */
  lemma Test13()
    ensures Convert(Text13) == Some(map["create_graph_statement" := {["CREATE", "PROPERTY", "GRAPH", "IF", "NOT", "EXISTS", "catalog_graph_parent_and_name"], ["CREATE", "PROPERTY", "GRAPH", "catalog_graph_parent_and_name"], ["CREATE", "GRAPH", "IF", "NOT", "EXISTS", "catalog_graph_parent_and_name"], ["CREATE", "GRAPH", "catalog_graph_parent_and_name"], ["CREATE", "OR", "REPLACE", "PROPERTY", "GRAPH", "catalog_graph_parent_and_name"], ["CREATE", "OR", "REPLACE", "GRAPH", "catalog_graph_parent_and_name"]}])
  {
    Parsed13();
    Test13Block1();
  }


  // test_14, line 579 of the test file
  /** The grammar text of test_14 as its token sequence. */
  const Text14: seq<Token> := [BlockEnd, Token.Nonterminal("create graph statement"), Defines, Token.Terminal("CREATE"), LBrace, LBrack, Token.Terminal("PROPERTY"), RBrack, Token.Terminal("GRAPH"), LBrack, Token.Terminal("IF"), Token.Terminal("NOT"), Token.Terminal("EXISTS"), RBrack, Bar, Token.Terminal("OR"), Token.Terminal("REPLACE"), LBrack, Token.Terminal("PROPERTY"), RBrack, Token.Terminal("GRAPH"), RBrace, Token.Nonterminal("catalog graph parent and name"), LBrace, Token.Nonterminal("open graph type"), Bar, Token.Nonterminal("of graph type"), RBrace]

  /** Tokens of test_14's text, four at a time. */
  lemma Text14Tokens1()
    ensures |Text14| == 28
    ensures Text14[0] == BlockEnd
    ensures Text14[1] == Token.Nonterminal("create graph statement")
    ensures Text14[2] == Defines
    ensures Text14[3] == Token.Terminal("CREATE")
  {
  }

  /** Tokens of test_14's text, four at a time. */
  lemma Text14Tokens2()
    ensures Text14[4] == LBrace
    ensures Text14[5] == LBrack
    ensures Text14[6] == Token.Terminal("PROPERTY")
    ensures Text14[7] == RBrack
  {
  }

  /** Tokens of test_14's text, four at a time. */
  lemma Text14Tokens3()
    ensures Text14[8] == Token.Terminal("GRAPH")
    ensures Text14[9] == LBrack
    ensures Text14[10] == Token.Terminal("IF")
    ensures Text14[11] == Token.Terminal("NOT")
  {
  }

  /** Tokens of test_14's text, four at a time. */
  lemma Text14Tokens4()
    ensures Text14[12] == Token.Terminal("EXISTS")
    ensures Text14[13] == RBrack
    ensures Text14[14] == Bar
    ensures Text14[15] == Token.Terminal("OR")
  {
  }

  /** Tokens of test_14's text, four at a time. */
  lemma Text14Tokens5()
    ensures Text14[16] == Token.Terminal("REPLACE")
    ensures Text14[17] == LBrack
    ensures Text14[18] == Token.Terminal("PROPERTY")
    ensures Text14[19] == RBrack
  {
  }

  /** Tokens of test_14's text, four at a time. */
  lemma Text14Tokens6()
    ensures Text14[20] == Token.Terminal("GRAPH")
    ensures Text14[21] == RBrace
    ensures Text14[22] == Token.Nonterminal("catalog graph parent and name")
    ensures Text14[23] == LBrace
  {
  }

  /** Tokens of test_14's text, four at a time. */
  lemma Text14Tokens7()
    ensures Text14[24] == Token.Nonterminal("open graph type")
    ensures Text14[25] == Bar
    ensures Text14[26] == Token.Nonterminal("of graph type")
    ensures Text14[27] == RBrace
  {
  }

  /** Parser results on test_14's text, in evaluation order (part 1). */
  lemma Parsed14Step1(ts: seq<Token>)
    requires |ts| == 28 && ts[0] == BlockEnd && ts[1] == Token.Nonterminal("create graph statement") && ts[2] == Defines && ts[3] == Token.Terminal("CREATE") && ts[4] == LBrace && ts[5] == LBrack && ts[6] == Token.Terminal("PROPERTY") && ts[7] == RBrack && ts[8] == Token.Terminal("GRAPH") && ts[9] == LBrack && ts[10] == Token.Terminal("IF") && ts[11] == Token.Terminal("NOT") && ts[12] == Token.Terminal("EXISTS") && ts[13] == RBrack && ts[14] == Bar && ts[15] == Token.Terminal("OR") && ts[16] == Token.Terminal("REPLACE") && ts[17] == LBrack && ts[18] == Token.Terminal("PROPERTY") && ts[19] == RBrack && ts[20] == Token.Terminal("GRAPH") && ts[21] == RBrace && ts[22] == Token.Nonterminal("catalog graph parent and name") && ts[23] == LBrace && ts[24] == Token.Nonterminal("open graph type") && ts[25] == Bar && ts[26] == Token.Nonterminal("of graph type") && ts[27] == RBrace
    ensures SkipBlank(ts, 1) == 1
    ensures SkipBlank(ts, 0) == 1
    ensures ParseElement(ts, 3) == Parsed(Sym(Symbol.Terminal("CREATE")), 4)
    ensures ParseElement(ts, 6) == Parsed(Sym(Symbol.Terminal("PROPERTY")), 7)
  {
  }

  /** Parser results on test_14's text, in evaluation order (part 2). */
  lemma Parsed14Step2(ts: seq<Token>)
    requires |ts| == 28 && ts[0] == BlockEnd && ts[1] == Token.Nonterminal("create graph statement") && ts[2] == Defines && ts[3] == Token.Terminal("CREATE") && ts[4] == LBrace && ts[5] == LBrack && ts[6] == Token.Terminal("PROPERTY") && ts[7] == RBrack && ts[8] == Token.Terminal("GRAPH") && ts[9] == LBrack && ts[10] == Token.Terminal("IF") && ts[11] == Token.Terminal("NOT") && ts[12] == Token.Terminal("EXISTS") && ts[13] == RBrack && ts[14] == Bar && ts[15] == Token.Terminal("OR") && ts[16] == Token.Terminal("REPLACE") && ts[17] == LBrack && ts[18] == Token.Terminal("PROPERTY") && ts[19] == RBrack && ts[20] == Token.Terminal("GRAPH") && ts[21] == RBrace && ts[22] == Token.Nonterminal("catalog graph parent and name") && ts[23] == LBrace && ts[24] == Token.Nonterminal("open graph type") && ts[25] == Bar && ts[26] == Token.Nonterminal("of graph type") && ts[27] == RBrace
    ensures ParseItems(ts, 7) == Parsed([], 7)
    ensures [Sym(Symbol.Terminal("PROPERTY"))] + [] == [Sym(Symbol.Terminal("PROPERTY"))]
    ensures ParseAlternative(ts, 6) == Parsed(Alternative([Sym(Symbol.Terminal("PROPERTY"))]), 7)
    ensures ParseMoreAlternatives(ts, 7) == Parsed([], 7)
  {
    Parsed14Step1(ts);
  }

  /** Parser results on test_14's text, in evaluation order (part 3). */
  lemma Parsed14Step3(ts: seq<Token>)
    requires |ts| == 28 && ts[0] == BlockEnd && ts[1] == Token.Nonterminal("create graph statement") && ts[2] == Defines && ts[3] == Token.Terminal("CREATE") && ts[4] == LBrace && ts[5] == LBrack && ts[6] == Token.Terminal("PROPERTY") && ts[7] == RBrack && ts[8] == Token.Terminal("GRAPH") && ts[9] == LBrack && ts[10] == Token.Terminal("IF") && ts[11] == Token.Terminal("NOT") && ts[12] == Token.Terminal("EXISTS") && ts[13] == RBrack && ts[14] == Bar && ts[15] == Token.Terminal("OR") && ts[16] == Token.Terminal("REPLACE") && ts[17] == LBrack && ts[18] == Token.Terminal("PROPERTY") && ts[19] == RBrack && ts[20] == Token.Terminal("GRAPH") && ts[21] == RBrace && ts[22] == Token.Nonterminal("catalog graph parent and name") && ts[23] == LBrace && ts[24] == Token.Nonterminal("open graph type") && ts[25] == Bar && ts[26] == Token.Nonterminal("of graph type") && ts[27] == RBrace
    ensures [Alternative([Sym(Symbol.Terminal("PROPERTY"))])] + [] == [Alternative([Sym(Symbol.Terminal("PROPERTY"))])]
    ensures ParseAlternatives(ts, 6) == Parsed([Alternative([Sym(Symbol.Terminal("PROPERTY"))])], 7)
    ensures ParseElement(ts, 5) == Parsed(Opt([Alternative([Sym(Symbol.Terminal("PROPERTY"))])]), 8)
    ensures ParseElement(ts, 8) == Parsed(Sym(Symbol.Terminal("GRAPH")), 9)
  {
    Parsed14Step2(ts);
  }

  /** Parser results on test_14's text, in evaluation order (part 4). */
  lemma Parsed14Step4(ts: seq<Token>)
    requires |ts| == 28 && ts[0] == BlockEnd && ts[1] == Token.Nonterminal("create graph statement") && ts[2] == Defines && ts[3] == Token.Terminal("CREATE") && ts[4] == LBrace && ts[5] == LBrack && ts[6] == Token.Terminal("PROPERTY") && ts[7] == RBrack && ts[8] == Token.Terminal("GRAPH") && ts[9] == LBrack && ts[10] == Token.Terminal("IF") && ts[11] == Token.Terminal("NOT") && ts[12] == Token.Terminal("EXISTS") && ts[13] == RBrack && ts[14] == Bar && ts[15] == Token.Terminal("OR") && ts[16] == Token.Terminal("REPLACE") && ts[17] == LBrack && ts[18] == Token.Terminal("PROPERTY") && ts[19] == RBrack && ts[20] == Token.Terminal("GRAPH") && ts[21] == RBrace && ts[22] == Token.Nonterminal("catalog graph parent and name") && ts[23] == LBrace && ts[24] == Token.Nonterminal("open graph type") && ts[25] == Bar && ts[26] == Token.Nonterminal("of graph type") && ts[27] == RBrace
    ensures ParseElement(ts, 10) == Parsed(Sym(Symbol.Terminal("IF")), 11)
    ensures ParseElement(ts, 11) == Parsed(Sym(Symbol.Terminal("NOT")), 12)
    ensures ParseElement(ts, 12) == Parsed(Sym(Symbol.Terminal("EXISTS")), 13)
    ensures ParseItems(ts, 13) == Parsed([], 13)
  {
  }

  /** Parser results on test_14's text, in evaluation order (part 5). */
  lemma Parsed14Step5(ts: seq<Token>)
    requires |ts| == 28 && ts[0] == BlockEnd && ts[1] == Token.Nonterminal("create graph statement") && ts[2] == Defines && ts[3] == Token.Terminal("CREATE") && ts[4] == LBrace && ts[5] == LBrack && ts[6] == Token.Terminal("PROPERTY") && ts[7] == RBrack && ts[8] == Token.Terminal("GRAPH") && ts[9] == LBrack && ts[10] == Token.Terminal("IF") && ts[11] == Token.Terminal("NOT") && ts[12] == Token.Terminal("EXISTS") && ts[13] == RBrack && ts[14] == Bar && ts[15] == Token.Terminal("OR") && ts[16] == Token.Terminal("REPLACE") && ts[17] == LBrack && ts[18] == Token.Terminal("PROPERTY") && ts[19] == RBrack && ts[20] == Token.Terminal("GRAPH") && ts[21] == RBrace && ts[22] == Token.Nonterminal("catalog graph parent and name") && ts[23] == LBrace && ts[24] == Token.Nonterminal("open graph type") && ts[25] == Bar && ts[26] == Token.Nonterminal("of graph type") && ts[27] == RBrace
    ensures [Sym(Symbol.Terminal("EXISTS"))] + [] == [Sym(Symbol.Terminal("EXISTS"))]
    ensures ParseItems(ts, 12) == Parsed([Sym(Symbol.Terminal("EXISTS"))], 13)
    ensures [Sym(Symbol.Terminal("NOT"))] + [Sym(Symbol.Terminal("EXISTS"))] == [Sym(Symbol.Terminal("NOT")), Sym(Symbol.Terminal("EXISTS"))]
    ensures ParseItems(ts, 11) == Parsed([Sym(Symbol.Terminal("NOT")), Sym(Symbol.Terminal("EXISTS"))], 13)
  {
    Parsed14Step4(ts);
  }

  /** Parser results on test_14's text, in evaluation order (part 6). */
  lemma Parsed14Step6(ts: seq<Token>)
    requires |ts| == 28 && ts[0] == BlockEnd && ts[1] == Token.Nonterminal("create graph statement") && ts[2] == Defines && ts[3] == Token.Terminal("CREATE") && ts[4] == LBrace && ts[5] == LBrack && ts[6] == Token.Terminal("PROPERTY") && ts[7] == RBrack && ts[8] == Token.Terminal("GRAPH") && ts[9] == LBrack && ts[10] == Token.Terminal("IF") && ts[11] == Token.Terminal("NOT") && ts[12] == Token.Terminal("EXISTS") && ts[13] == RBrack && ts[14] == Bar && ts[15] == Token.Terminal("OR") && ts[16] == Token.Terminal("REPLACE") && ts[17] == LBrack && ts[18] == Token.Terminal("PROPERTY") && ts[19] == RBrack && ts[20] == Token.Terminal("GRAPH") && ts[21] == RBrace && ts[22] == Token.Nonterminal("catalog graph parent and name") && ts[23] == LBrace && ts[24] == Token.Nonterminal("open graph type") && ts[25] == Bar && ts[26] == Token.Nonterminal("of graph type") && ts[27] == RBrace
    ensures [Sym(Symbol.Terminal("IF"))] + [Sym(Symbol.Terminal("NOT")), Sym(Symbol.Terminal("EXISTS"))] == [Sym(Symbol.Terminal("IF")), Sym(Symbol.Terminal("NOT")), Sym(Symbol.Terminal("EXISTS"))]
    ensures ParseAlternative(ts, 10) == Parsed(Alternative([Sym(Symbol.Terminal("IF")), Sym(Symbol.Terminal("NOT")), Sym(Symbol.Terminal("EXISTS"))]), 13)
    ensures ParseMoreAlternatives(ts, 13) == Parsed([], 13)
    ensures [Alternative([Sym(Symbol.Terminal("IF")), Sym(Symbol.Terminal("NOT")), Sym(Symbol.Terminal("EXISTS"))])] + [] == [Alternative([Sym(Symbol.Terminal("IF")), Sym(Symbol.Terminal("NOT")), Sym(Symbol.Terminal("EXISTS"))])]
  {
    Parsed14Step4(ts);
    Parsed14Step5(ts);
  }

  /** Parser results on test_14's text, in evaluation order (part 7). */
  lemma Parsed14Step7(ts: seq<Token>)
    requires |ts| == 28 && ts[0] == BlockEnd && ts[1] == Token.Nonterminal("create graph statement") && ts[2] == Defines && ts[3] == Token.Terminal("CREATE") && ts[4] == LBrace && ts[5] == LBrack && ts[6] == Token.Terminal("PROPERTY") && ts[7] == RBrack && ts[8] == Token.Terminal("GRAPH") && ts[9] == LBrack && ts[10] == Token.Terminal("IF") && ts[11] == Token.Terminal("NOT") && ts[12] == Token.Terminal("EXISTS") && ts[13] == RBrack && ts[14] == Bar && ts[15] == Token.Terminal("OR") && ts[16] == Token.Terminal("REPLACE") && ts[17] == LBrack && ts[18] == Token.Terminal("PROPERTY") && ts[19] == RBrack && ts[20] == Token.Terminal("GRAPH") && ts[21] == RBrace && ts[22] == Token.Nonterminal("catalog graph parent and name") && ts[23] == LBrace && ts[24] == Token.Nonterminal("open graph type") && ts[25] == Bar && ts[26] == Token.Nonterminal("of graph type") && ts[27] == RBrace
    ensures ParseAlternatives(ts, 10) == Parsed([Alternative([Sym(Symbol.Terminal("IF")), Sym(Symbol.Terminal("NOT")), Sym(Symbol.Terminal("EXISTS"))])], 13)
    ensures ParseElement(ts, 9) == Parsed(Opt([Alternative([Sym(Symbol.Terminal("IF")), Sym(Symbol.Terminal("NOT")), Sym(Symbol.Terminal("EXISTS"))])]), 14)
    ensures ParseItems(ts, 14) == Parsed([], 14)
    ensures [Opt([Alternative([Sym(Symbol.Terminal("IF")), Sym(Symbol.Terminal("NOT")), Sym(Symbol.Terminal("EXISTS"))])])] + [] == [Opt([Alternative([Sym(Symbol.Terminal("IF")), Sym(Symbol.Terminal("NOT")), Sym(Symbol.Terminal("EXISTS"))])])]
  {
    Parsed14Step6(ts);
  }

  /** Parser results on test_14's text, in evaluation order (part 8). */
  lemma Parsed14Step8(ts: seq<Token>)
    requires |ts| == 28 && ts[0] == BlockEnd && ts[1] == Token.Nonterminal("create graph statement") && ts[2] == Defines && ts[3] == Token.Terminal("CREATE") && ts[4] == LBrace && ts[5] == LBrack && ts[6] == Token.Terminal("PROPERTY") && ts[7] == RBrack && ts[8] == Token.Terminal("GRAPH") && ts[9] == LBrack && ts[10] == Token.Terminal("IF") && ts[11] == Token.Terminal("NOT") && ts[12] == Token.Terminal("EXISTS") && ts[13] == RBrack && ts[14] == Bar && ts[15] == Token.Terminal("OR") && ts[16] == Token.Terminal("REPLACE") && ts[17] == LBrack && ts[18] == Token.Terminal("PROPERTY") && ts[19] == RBrack && ts[20] == Token.Terminal("GRAPH") && ts[21] == RBrace && ts[22] == Token.Nonterminal("catalog graph parent and name") && ts[23] == LBrace && ts[24] == Token.Nonterminal("open graph type") && ts[25] == Bar && ts[26] == Token.Nonterminal("of graph type") && ts[27] == RBrace
    ensures ParseItems(ts, 9) == Parsed([Opt([Alternative([Sym(Symbol.Terminal("IF")), Sym(Symbol.Terminal("NOT")), Sym(Symbol.Terminal("EXISTS"))])])], 14)
    ensures [Sym(Symbol.Terminal("GRAPH"))] + [Opt([Alternative([Sym(Symbol.Terminal("IF")), Sym(Symbol.Terminal("NOT")), Sym(Symbol.Terminal("EXISTS"))])])] == [Sym(Symbol.Terminal("GRAPH")), Opt([Alternative([Sym(Symbol.Terminal("IF")), Sym(Symbol.Terminal("NOT")), Sym(Symbol.Terminal("EXISTS"))])])]
    ensures ParseItems(ts, 8) == Parsed([Sym(Symbol.Terminal("GRAPH")), Opt([Alternative([Sym(Symbol.Terminal("IF")), Sym(Symbol.Terminal("NOT")), Sym(Symbol.Terminal("EXISTS"))])])], 14)
    ensures [Opt([Alternative([Sym(Symbol.Terminal("PROPERTY"))])])] + [Sym(Symbol.Terminal("GRAPH")), Opt([Alternative([Sym(Symbol.Terminal("IF")), Sym(Symbol.Terminal("NOT")), Sym(Symbol.Terminal("EXISTS"))])])] == [Opt([Alternative([Sym(Symbol.Terminal("PROPERTY"))])]), Sym(Symbol.Terminal("GRAPH")), Opt([Alternative([Sym(Symbol.Terminal("IF")), Sym(Symbol.Terminal("NOT")), Sym(Symbol.Terminal("EXISTS"))])])]
  {
    Parsed14Step3(ts);
    Parsed14Step7(ts);
  }

  /** Parser results on test_14's text, in evaluation order (part 9). */
  lemma Parsed14Step9(ts: seq<Token>)
    requires |ts| == 28 && ts[0] == BlockEnd && ts[1] == Token.Nonterminal("create graph statement") && ts[2] == Defines && ts[3] == Token.Terminal("CREATE") && ts[4] == LBrace && ts[5] == LBrack && ts[6] == Token.Terminal("PROPERTY") && ts[7] == RBrack && ts[8] == Token.Terminal("GRAPH") && ts[9] == LBrack && ts[10] == Token.Terminal("IF") && ts[11] == Token.Terminal("NOT") && ts[12] == Token.Terminal("EXISTS") && ts[13] == RBrack && ts[14] == Bar && ts[15] == Token.Terminal("OR") && ts[16] == Token.Terminal("REPLACE") && ts[17] == LBrack && ts[18] == Token.Terminal("PROPERTY") && ts[19] == RBrack && ts[20] == Token.Terminal("GRAPH") && ts[21] == RBrace && ts[22] == Token.Nonterminal("catalog graph parent and name") && ts[23] == LBrace && ts[24] == Token.Nonterminal("open graph type") && ts[25] == Bar && ts[26] == Token.Nonterminal("of graph type") && ts[27] == RBrace
    ensures ParseAlternative(ts, 5) == Parsed(Alternative([Opt([Alternative([Sym(Symbol.Terminal("PROPERTY"))])]), Sym(Symbol.Terminal("GRAPH")), Opt([Alternative([Sym(Symbol.Terminal("IF")), Sym(Symbol.Terminal("NOT")), Sym(Symbol.Terminal("EXISTS"))])])]), 14)
    ensures ParseElement(ts, 15) == Parsed(Sym(Symbol.Terminal("OR")), 16)
    ensures ParseElement(ts, 16) == Parsed(Sym(Symbol.Terminal("REPLACE")), 17)
    ensures ParseElement(ts, 18) == Parsed(Sym(Symbol.Terminal("PROPERTY")), 19)
  {
    Parsed14Step3(ts);
    Parsed14Step8(ts);
  }

  /** Parser results on test_14's text, in evaluation order (part 10). */
  lemma Parsed14Step10(ts: seq<Token>)
    requires |ts| == 28 && ts[0] == BlockEnd && ts[1] == Token.Nonterminal("create graph statement") && ts[2] == Defines && ts[3] == Token.Terminal("CREATE") && ts[4] == LBrace && ts[5] == LBrack && ts[6] == Token.Terminal("PROPERTY") && ts[7] == RBrack && ts[8] == Token.Terminal("GRAPH") && ts[9] == LBrack && ts[10] == Token.Terminal("IF") && ts[11] == Token.Terminal("NOT") && ts[12] == Token.Terminal("EXISTS") && ts[13] == RBrack && ts[14] == Bar && ts[15] == Token.Terminal("OR") && ts[16] == Token.Terminal("REPLACE") && ts[17] == LBrack && ts[18] == Token.Terminal("PROPERTY") && ts[19] == RBrack && ts[20] == Token.Terminal("GRAPH") && ts[21] == RBrace && ts[22] == Token.Nonterminal("catalog graph parent and name") && ts[23] == LBrace && ts[24] == Token.Nonterminal("open graph type") && ts[25] == Bar && ts[26] == Token.Nonterminal("of graph type") && ts[27] == RBrace
    ensures ParseItems(ts, 19) == Parsed([], 19)
    ensures [Sym(Symbol.Terminal("PROPERTY"))] + [] == [Sym(Symbol.Terminal("PROPERTY"))]
    ensures ParseAlternative(ts, 18) == Parsed(Alternative([Sym(Symbol.Terminal("PROPERTY"))]), 19)
    ensures ParseMoreAlternatives(ts, 19) == Parsed([], 19)
  {
    Parsed14Step9(ts);
  }

  /** Parser results on test_14's text, in evaluation order (part 11). */
  lemma Parsed14Step11(ts: seq<Token>)
    requires |ts| == 28 && ts[0] == BlockEnd && ts[1] == Token.Nonterminal("create graph statement") && ts[2] == Defines && ts[3] == Token.Terminal("CREATE") && ts[4] == LBrace && ts[5] == LBrack && ts[6] == Token.Terminal("PROPERTY") && ts[7] == RBrack && ts[8] == Token.Terminal("GRAPH") && ts[9] == LBrack && ts[10] == Token.Terminal("IF") && ts[11] == Token.Terminal("NOT") && ts[12] == Token.Terminal("EXISTS") && ts[13] == RBrack && ts[14] == Bar && ts[15] == Token.Terminal("OR") && ts[16] == Token.Terminal("REPLACE") && ts[17] == LBrack && ts[18] == Token.Terminal("PROPERTY") && ts[19] == RBrack && ts[20] == Token.Terminal("GRAPH") && ts[21] == RBrace && ts[22] == Token.Nonterminal("catalog graph parent and name") && ts[23] == LBrace && ts[24] == Token.Nonterminal("open graph type") && ts[25] == Bar && ts[26] == Token.Nonterminal("of graph type") && ts[27] == RBrace
    ensures [Alternative([Sym(Symbol.Terminal("PROPERTY"))])] + [] == [Alternative([Sym(Symbol.Terminal("PROPERTY"))])]
    ensures ParseAlternatives(ts, 18) == Parsed([Alternative([Sym(Symbol.Terminal("PROPERTY"))])], 19)
    ensures ParseElement(ts, 17) == Parsed(Opt([Alternative([Sym(Symbol.Terminal("PROPERTY"))])]), 20)
    ensures ParseElement(ts, 20) == Parsed(Sym(Symbol.Terminal("GRAPH")), 21)
  {
    Parsed14Step10(ts);
  }

  /** Parser results on test_14's text, in evaluation order (part 12). */
  lemma Parsed14Step12(ts: seq<Token>)
    requires |ts| == 28 && ts[0] == BlockEnd && ts[1] == Token.Nonterminal("create graph statement") && ts[2] == Defines && ts[3] == Token.Terminal("CREATE") && ts[4] == LBrace && ts[5] == LBrack && ts[6] == Token.Terminal("PROPERTY") && ts[7] == RBrack && ts[8] == Token.Terminal("GRAPH") && ts[9] == LBrack && ts[10] == Token.Terminal("IF") && ts[11] == Token.Terminal("NOT") && ts[12] == Token.Terminal("EXISTS") && ts[13] == RBrack && ts[14] == Bar && ts[15] == Token.Terminal("OR") && ts[16] == Token.Terminal("REPLACE") && ts[17] == LBrack && ts[18] == Token.Terminal("PROPERTY") && ts[19] == RBrack && ts[20] == Token.Terminal("GRAPH") && ts[21] == RBrace && ts[22] == Token.Nonterminal("catalog graph parent and name") && ts[23] == LBrace && ts[24] == Token.Nonterminal("open graph type") && ts[25] == Bar && ts[26] == Token.Nonterminal("of graph type") && ts[27] == RBrace
    ensures ParseItems(ts, 21) == Parsed([], 21)
    ensures [Sym(Symbol.Terminal("GRAPH"))] + [] == [Sym(Symbol.Terminal("GRAPH"))]
    ensures ParseItems(ts, 20) == Parsed([Sym(Symbol.Terminal("GRAPH"))], 21)
    ensures [Opt([Alternative([Sym(Symbol.Terminal("PROPERTY"))])])] + [Sym(Symbol.Terminal("GRAPH"))] == [Opt([Alternative([Sym(Symbol.Terminal("PROPERTY"))])]), Sym(Symbol.Terminal("GRAPH"))]
  {
    Parsed14Step11(ts);
  }

  /** Parser results on test_14's text, in evaluation order (part 13). */
  lemma Parsed14Step13(ts: seq<Token>)
    requires |ts| == 28 && ts[0] == BlockEnd && ts[1] == Token.Nonterminal("create graph statement") && ts[2] == Defines && ts[3] == Token.Terminal("CREATE") && ts[4] == LBrace && ts[5] == LBrack && ts[6] == Token.Terminal("PROPERTY") && ts[7] == RBrack && ts[8] == Token.Terminal("GRAPH") && ts[9] == LBrack && ts[10] == Token.Terminal("IF") && ts[11] == Token.Terminal("NOT") && ts[12] == Token.Terminal("EXISTS") && ts[13] == RBrack && ts[14] == Bar && ts[15] == Token.Terminal("OR") && ts[16] == Token.Terminal("REPLACE") && ts[17] == LBrack && ts[18] == Token.Terminal("PROPERTY") && ts[19] == RBrack && ts[20] == Token.Terminal("GRAPH") && ts[21] == RBrace && ts[22] == Token.Nonterminal("catalog graph parent and name") && ts[23] == LBrace && ts[24] == Token.Nonterminal("open graph type") && ts[25] == Bar && ts[26] == Token.Nonterminal("of graph type") && ts[27] == RBrace
    ensures ParseItems(ts, 17) == Parsed([Opt([Alternative([Sym(Symbol.Terminal("PROPERTY"))])]), Sym(Symbol.Terminal("GRAPH"))], 21)
    ensures [Sym(Symbol.Terminal("REPLACE"))] + [Opt([Alternative([Sym(Symbol.Terminal("PROPERTY"))])]), Sym(Symbol.Terminal("GRAPH"))] == [Sym(Symbol.Terminal("REPLACE")), Opt([Alternative([Sym(Symbol.Terminal("PROPERTY"))])]), Sym(Symbol.Terminal("GRAPH"))]
    ensures ParseItems(ts, 16) == Parsed([Sym(Symbol.Terminal("REPLACE")), Opt([Alternative([Sym(Symbol.Terminal("PROPERTY"))])]), Sym(Symbol.Terminal("GRAPH"))], 21)
    ensures [Sym(Symbol.Terminal("OR"))] + [Sym(Symbol.Terminal("REPLACE")), Opt([Alternative([Sym(Symbol.Terminal("PROPERTY"))])]), Sym(Symbol.Terminal("GRAPH"))] == [Sym(Symbol.Terminal("OR")), Sym(Symbol.Terminal("REPLACE")), Opt([Alternative([Sym(Symbol.Terminal("PROPERTY"))])]), Sym(Symbol.Terminal("GRAPH"))]
  {
    Parsed14Step9(ts);
    Parsed14Step11(ts);
    Parsed14Step12(ts);
  }

  /** Parser results on test_14's text, in evaluation order (part 14). */
  lemma Parsed14Step14(ts: seq<Token>)
    requires |ts| == 28 && ts[0] == BlockEnd && ts[1] == Token.Nonterminal("create graph statement") && ts[2] == Defines && ts[3] == Token.Terminal("CREATE") && ts[4] == LBrace && ts[5] == LBrack && ts[6] == Token.Terminal("PROPERTY") && ts[7] == RBrack && ts[8] == Token.Terminal("GRAPH") && ts[9] == LBrack && ts[10] == Token.Terminal("IF") && ts[11] == Token.Terminal("NOT") && ts[12] == Token.Terminal("EXISTS") && ts[13] == RBrack && ts[14] == Bar && ts[15] == Token.Terminal("OR") && ts[16] == Token.Terminal("REPLACE") && ts[17] == LBrack && ts[18] == Token.Terminal("PROPERTY") && ts[19] == RBrack && ts[20] == Token.Terminal("GRAPH") && ts[21] == RBrace && ts[22] == Token.Nonterminal("catalog graph parent and name") && ts[23] == LBrace && ts[24] == Token.Nonterminal("open graph type") && ts[25] == Bar && ts[26] == Token.Nonterminal("of graph type") && ts[27] == RBrace
    ensures ParseAlternative(ts, 15) == Parsed(Alternative([Sym(Symbol.Terminal("OR")), Sym(Symbol.Terminal("REPLACE")), Opt([Alternative([Sym(Symbol.Terminal("PROPERTY"))])]), Sym(Symbol.Terminal("GRAPH"))]), 21)
    ensures ParseMoreAlternatives(ts, 21) == Parsed([], 21)
    ensures [Alternative([Sym(Symbol.Terminal("OR")), Sym(Symbol.Terminal("REPLACE")), Opt([Alternative([Sym(Symbol.Terminal("PROPERTY"))])]), Sym(Symbol.Terminal("GRAPH"))])] + [] == [Alternative([Sym(Symbol.Terminal("OR")), Sym(Symbol.Terminal("REPLACE")), Opt([Alternative([Sym(Symbol.Terminal("PROPERTY"))])]), Sym(Symbol.Terminal("GRAPH"))])]
    ensures ParseMoreAlternatives(ts, 14) == Parsed([Alternative([Sym(Symbol.Terminal("OR")), Sym(Symbol.Terminal("REPLACE")), Opt([Alternative([Sym(Symbol.Terminal("PROPERTY"))])]), Sym(Symbol.Terminal("GRAPH"))])], 21)
  {
    Parsed14Step9(ts);
    Parsed14Step13(ts);
  }

  /** Parser results on test_14's text, in evaluation order (part 15). */
  lemma Parsed14Step15(ts: seq<Token>)
    requires |ts| == 28 && ts[0] == BlockEnd && ts[1] == Token.Nonterminal("create graph statement") && ts[2] == Defines && ts[3] == Token.Terminal("CREATE") && ts[4] == LBrace && ts[5] == LBrack && ts[6] == Token.Terminal("PROPERTY") && ts[7] == RBrack && ts[8] == Token.Terminal("GRAPH") && ts[9] == LBrack && ts[10] == Token.Terminal("IF") && ts[11] == Token.Terminal("NOT") && ts[12] == Token.Terminal("EXISTS") && ts[13] == RBrack && ts[14] == Bar && ts[15] == Token.Terminal("OR") && ts[16] == Token.Terminal("REPLACE") && ts[17] == LBrack && ts[18] == Token.Terminal("PROPERTY") && ts[19] == RBrack && ts[20] == Token.Terminal("GRAPH") && ts[21] == RBrace && ts[22] == Token.Nonterminal("catalog graph parent and name") && ts[23] == LBrace && ts[24] == Token.Nonterminal("open graph type") && ts[25] == Bar && ts[26] == Token.Nonterminal("of graph type") && ts[27] == RBrace
    ensures [Alternative([Opt([Alternative([Sym(Symbol.Terminal("PROPERTY"))])]), Sym(Symbol.Terminal("GRAPH")), Opt([Alternative([Sym(Symbol.Terminal("IF")), Sym(Symbol.Terminal("NOT")), Sym(Symbol.Terminal("EXISTS"))])])])] + [Alternative([Sym(Symbol.Terminal("OR")), Sym(Symbol.Terminal("REPLACE")), Opt([Alternative([Sym(Symbol.Terminal("PROPERTY"))])]), Sym(Symbol.Terminal("GRAPH"))])] == [Alternative([Opt([Alternative([Sym(Symbol.Terminal("PROPERTY"))])]), Sym(Symbol.Terminal("GRAPH")), Opt([Alternative([Sym(Symbol.Terminal("IF")), Sym(Symbol.Terminal("NOT")), Sym(Symbol.Terminal("EXISTS"))])])]), Alternative([Sym(Symbol.Terminal("OR")), Sym(Symbol.Terminal("REPLACE")), Opt([Alternative([Sym(Symbol.Terminal("PROPERTY"))])]), Sym(Symbol.Terminal("GRAPH"))])]
    ensures ParseAlternatives(ts, 5) == Parsed([Alternative([Opt([Alternative([Sym(Symbol.Terminal("PROPERTY"))])]), Sym(Symbol.Terminal("GRAPH")), Opt([Alternative([Sym(Symbol.Terminal("IF")), Sym(Symbol.Terminal("NOT")), Sym(Symbol.Terminal("EXISTS"))])])]), Alternative([Sym(Symbol.Terminal("OR")), Sym(Symbol.Terminal("REPLACE")), Opt([Alternative([Sym(Symbol.Terminal("PROPERTY"))])]), Sym(Symbol.Terminal("GRAPH"))])], 21)
    ensures ParseElement(ts, 4) == Parsed(Group([Alternative([Opt([Alternative([Sym(Symbol.Terminal("PROPERTY"))])]), Sym(Symbol.Terminal("GRAPH")), Opt([Alternative([Sym(Symbol.Terminal("IF")), Sym(Symbol.Terminal("NOT")), Sym(Symbol.Terminal("EXISTS"))])])]), Alternative([Sym(Symbol.Terminal("OR")), Sym(Symbol.Terminal("REPLACE")), Opt([Alternative([Sym(Symbol.Terminal("PROPERTY"))])]), Sym(Symbol.Terminal("GRAPH"))])]), 22)
    ensures ParseElement(ts, 22) == Parsed(Sym(Symbol.Nonterminal("catalog graph parent and name")), 23)
  {
    Parsed14Step9(ts);
    Parsed14Step14(ts);
  }

  /** Parser results on test_14's text, in evaluation order (part 16). */
  lemma Parsed14Step16(ts: seq<Token>)
    requires |ts| == 28 && ts[0] == BlockEnd && ts[1] == Token.Nonterminal("create graph statement") && ts[2] == Defines && ts[3] == Token.Terminal("CREATE") && ts[4] == LBrace && ts[5] == LBrack && ts[6] == Token.Terminal("PROPERTY") && ts[7] == RBrack && ts[8] == Token.Terminal("GRAPH") && ts[9] == LBrack && ts[10] == Token.Terminal("IF") && ts[11] == Token.Terminal("NOT") && ts[12] == Token.Terminal("EXISTS") && ts[13] == RBrack && ts[14] == Bar && ts[15] == Token.Terminal("OR") && ts[16] == Token.Terminal("REPLACE") && ts[17] == LBrack && ts[18] == Token.Terminal("PROPERTY") && ts[19] == RBrack && ts[20] == Token.Terminal("GRAPH") && ts[21] == RBrace && ts[22] == Token.Nonterminal("catalog graph parent and name") && ts[23] == LBrace && ts[24] == Token.Nonterminal("open graph type") && ts[25] == Bar && ts[26] == Token.Nonterminal("of graph type") && ts[27] == RBrace
    ensures ParseElement(ts, 24) == Parsed(Sym(Symbol.Nonterminal("open graph type")), 25)
    ensures ParseItems(ts, 25) == Parsed([], 25)
    ensures [Sym(Symbol.Nonterminal("open graph type"))] + [] == [Sym(Symbol.Nonterminal("open graph type"))]
    ensures ParseAlternative(ts, 24) == Parsed(Alternative([Sym(Symbol.Nonterminal("open graph type"))]), 25)
  {
  }

  /** Parser results on test_14's text, in evaluation order (part 17). */
  lemma Parsed14Step17(ts: seq<Token>)
    requires |ts| == 28 && ts[0] == BlockEnd && ts[1] == Token.Nonterminal("create graph statement") && ts[2] == Defines && ts[3] == Token.Terminal("CREATE") && ts[4] == LBrace && ts[5] == LBrack && ts[6] == Token.Terminal("PROPERTY") && ts[7] == RBrack && ts[8] == Token.Terminal("GRAPH") && ts[9] == LBrack && ts[10] == Token.Terminal("IF") && ts[11] == Token.Terminal("NOT") && ts[12] == Token.Terminal("EXISTS") && ts[13] == RBrack && ts[14] == Bar && ts[15] == Token.Terminal("OR") && ts[16] == Token.Terminal("REPLACE") && ts[17] == LBrack && ts[18] == Token.Terminal("PROPERTY") && ts[19] == RBrack && ts[20] == Token.Terminal("GRAPH") && ts[21] == RBrace && ts[22] == Token.Nonterminal("catalog graph parent and name") && ts[23] == LBrace && ts[24] == Token.Nonterminal("open graph type") && ts[25] == Bar && ts[26] == Token.Nonterminal("of graph type") && ts[27] == RBrace
    ensures ParseElement(ts, 26) == Parsed(Sym(Symbol.Nonterminal("of graph type")), 27)
    ensures ParseItems(ts, 27) == Parsed([], 27)
    ensures [Sym(Symbol.Nonterminal("of graph type"))] + [] == [Sym(Symbol.Nonterminal("of graph type"))]
    ensures ParseAlternative(ts, 26) == Parsed(Alternative([Sym(Symbol.Nonterminal("of graph type"))]), 27)
  {
  }

  /** Parser results on test_14's text, in evaluation order (part 18). */
  lemma Parsed14Step18(ts: seq<Token>)
    requires |ts| == 28 && ts[0] == BlockEnd && ts[1] == Token.Nonterminal("create graph statement") && ts[2] == Defines && ts[3] == Token.Terminal("CREATE") && ts[4] == LBrace && ts[5] == LBrack && ts[6] == Token.Terminal("PROPERTY") && ts[7] == RBrack && ts[8] == Token.Terminal("GRAPH") && ts[9] == LBrack && ts[10] == Token.Terminal("IF") && ts[11] == Token.Terminal("NOT") && ts[12] == Token.Terminal("EXISTS") && ts[13] == RBrack && ts[14] == Bar && ts[15] == Token.Terminal("OR") && ts[16] == Token.Terminal("REPLACE") && ts[17] == LBrack && ts[18] == Token.Terminal("PROPERTY") && ts[19] == RBrack && ts[20] == Token.Terminal("GRAPH") && ts[21] == RBrace && ts[22] == Token.Nonterminal("catalog graph parent and name") && ts[23] == LBrace && ts[24] == Token.Nonterminal("open graph type") && ts[25] == Bar && ts[26] == Token.Nonterminal("of graph type") && ts[27] == RBrace
    ensures ParseMoreAlternatives(ts, 27) == Parsed([], 27)
    ensures [Alternative([Sym(Symbol.Nonterminal("of graph type"))])] + [] == [Alternative([Sym(Symbol.Nonterminal("of graph type"))])]
    ensures ParseMoreAlternatives(ts, 25) == Parsed([Alternative([Sym(Symbol.Nonterminal("of graph type"))])], 27)
    ensures [Alternative([Sym(Symbol.Nonterminal("open graph type"))])] + [Alternative([Sym(Symbol.Nonterminal("of graph type"))])] == [Alternative([Sym(Symbol.Nonterminal("open graph type"))]), Alternative([Sym(Symbol.Nonterminal("of graph type"))])]
  {
    Parsed14Step17(ts);
  }

  /** Parser results on test_14's text, in evaluation order (part 19). */
  lemma Parsed14Step19(ts: seq<Token>)
    requires |ts| == 28 && ts[0] == BlockEnd && ts[1] == Token.Nonterminal("create graph statement") && ts[2] == Defines && ts[3] == Token.Terminal("CREATE") && ts[4] == LBrace && ts[5] == LBrack && ts[6] == Token.Terminal("PROPERTY") && ts[7] == RBrack && ts[8] == Token.Terminal("GRAPH") && ts[9] == LBrack && ts[10] == Token.Terminal("IF") && ts[11] == Token.Terminal("NOT") && ts[12] == Token.Terminal("EXISTS") && ts[13] == RBrack && ts[14] == Bar && ts[15] == Token.Terminal("OR") && ts[16] == Token.Terminal("REPLACE") && ts[17] == LBrack && ts[18] == Token.Terminal("PROPERTY") && ts[19] == RBrack && ts[20] == Token.Terminal("GRAPH") && ts[21] == RBrace && ts[22] == Token.Nonterminal("catalog graph parent and name") && ts[23] == LBrace && ts[24] == Token.Nonterminal("open graph type") && ts[25] == Bar && ts[26] == Token.Nonterminal("of graph type") && ts[27] == RBrace
    ensures ParseAlternatives(ts, 24) == Parsed([Alternative([Sym(Symbol.Nonterminal("open graph type"))]), Alternative([Sym(Symbol.Nonterminal("of graph type"))])], 27)
    ensures ParseElement(ts, 23) == Parsed(Group([Alternative([Sym(Symbol.Nonterminal("open graph type"))]), Alternative([Sym(Symbol.Nonterminal("of graph type"))])]), 28)
    ensures ParseItems(ts, 28) == Parsed([], 28)
    ensures [Group([Alternative([Sym(Symbol.Nonterminal("open graph type"))]), Alternative([Sym(Symbol.Nonterminal("of graph type"))])])] + [] == [Group([Alternative([Sym(Symbol.Nonterminal("open graph type"))]), Alternative([Sym(Symbol.Nonterminal("of graph type"))])])]
  {
    Parsed14Step16(ts);
    Parsed14Step18(ts);
  }

  /** Parser results on test_14's text, in evaluation order (part 20). */
  lemma Parsed14Step20(ts: seq<Token>)
    requires |ts| == 28 && ts[0] == BlockEnd && ts[1] == Token.Nonterminal("create graph statement") && ts[2] == Defines && ts[3] == Token.Terminal("CREATE") && ts[4] == LBrace && ts[5] == LBrack && ts[6] == Token.Terminal("PROPERTY") && ts[7] == RBrack && ts[8] == Token.Terminal("GRAPH") && ts[9] == LBrack && ts[10] == Token.Terminal("IF") && ts[11] == Token.Terminal("NOT") && ts[12] == Token.Terminal("EXISTS") && ts[13] == RBrack && ts[14] == Bar && ts[15] == Token.Terminal("OR") && ts[16] == Token.Terminal("REPLACE") && ts[17] == LBrack && ts[18] == Token.Terminal("PROPERTY") && ts[19] == RBrack && ts[20] == Token.Terminal("GRAPH") && ts[21] == RBrace && ts[22] == Token.Nonterminal("catalog graph parent and name") && ts[23] == LBrace && ts[24] == Token.Nonterminal("open graph type") && ts[25] == Bar && ts[26] == Token.Nonterminal("of graph type") && ts[27] == RBrace
    ensures ParseItems(ts, 23) == Parsed([Group([Alternative([Sym(Symbol.Nonterminal("open graph type"))]), Alternative([Sym(Symbol.Nonterminal("of graph type"))])])], 28)
    ensures [Sym(Symbol.Nonterminal("catalog graph parent and name"))] + [Group([Alternative([Sym(Symbol.Nonterminal("open graph type"))]), Alternative([Sym(Symbol.Nonterminal("of graph type"))])])] == [Sym(Symbol.Nonterminal("catalog graph parent and name")), Group([Alternative([Sym(Symbol.Nonterminal("open graph type"))]), Alternative([Sym(Symbol.Nonterminal("of graph type"))])])]
    ensures ParseItems(ts, 22) == Parsed([Sym(Symbol.Nonterminal("catalog graph parent and name")), Group([Alternative([Sym(Symbol.Nonterminal("open graph type"))]), Alternative([Sym(Symbol.Nonterminal("of graph type"))])])], 28)
    ensures [Group([Alternative([Opt([Alternative([Sym(Symbol.Terminal("PROPERTY"))])]), Sym(Symbol.Terminal("GRAPH")), Opt([Alternative([Sym(Symbol.Terminal("IF")), Sym(Symbol.Terminal("NOT")), Sym(Symbol.Terminal("EXISTS"))])])]), Alternative([Sym(Symbol.Terminal("OR")), Sym(Symbol.Terminal("REPLACE")), Opt([Alternative([Sym(Symbol.Terminal("PROPERTY"))])]), Sym(Symbol.Terminal("GRAPH"))])])] + [Sym(Symbol.Nonterminal("catalog graph parent and name")), Group([Alternative([Sym(Symbol.Nonterminal("open graph type"))]), Alternative([Sym(Symbol.Nonterminal("of graph type"))])])] == [Group([Alternative([Opt([Alternative([Sym(Symbol.Terminal("PROPERTY"))])]), Sym(Symbol.Terminal("GRAPH")), Opt([Alternative([Sym(Symbol.Terminal("IF")), Sym(Symbol.Terminal("NOT")), Sym(Symbol.Terminal("EXISTS"))])])]), Alternative([Sym(Symbol.Terminal("OR")), Sym(Symbol.Terminal("REPLACE")), Opt([Alternative([Sym(Symbol.Terminal("PROPERTY"))])]), Sym(Symbol.Terminal("GRAPH"))])]), Sym(Symbol.Nonterminal("catalog graph parent and name")), Group([Alternative([Sym(Symbol.Nonterminal("open graph type"))]), Alternative([Sym(Symbol.Nonterminal("of graph type"))])])]
  {
    Parsed14Step15(ts);
    Parsed14Step19(ts);
  }

  /** Parser results on test_14's text, in evaluation order (part 21). */
  lemma Parsed14Step21(ts: seq<Token>)
    requires |ts| == 28 && ts[0] == BlockEnd && ts[1] == Token.Nonterminal("create graph statement") && ts[2] == Defines && ts[3] == Token.Terminal("CREATE") && ts[4] == LBrace && ts[5] == LBrack && ts[6] == Token.Terminal("PROPERTY") && ts[7] == RBrack && ts[8] == Token.Terminal("GRAPH") && ts[9] == LBrack && ts[10] == Token.Terminal("IF") && ts[11] == Token.Terminal("NOT") && ts[12] == Token.Terminal("EXISTS") && ts[13] == RBrack && ts[14] == Bar && ts[15] == Token.Terminal("OR") && ts[16] == Token.Terminal("REPLACE") && ts[17] == LBrack && ts[18] == Token.Terminal("PROPERTY") && ts[19] == RBrack && ts[20] == Token.Terminal("GRAPH") && ts[21] == RBrace && ts[22] == Token.Nonterminal("catalog graph parent and name") && ts[23] == LBrace && ts[24] == Token.Nonterminal("open graph type") && ts[25] == Bar && ts[26] == Token.Nonterminal("of graph type") && ts[27] == RBrace
    ensures ParseItems(ts, 4) == Parsed([Group([Alternative([Opt([Alternative([Sym(Symbol.Terminal("PROPERTY"))])]), Sym(Symbol.Terminal("GRAPH")), Opt([Alternative([Sym(Symbol.Terminal("IF")), Sym(Symbol.Terminal("NOT")), Sym(Symbol.Terminal("EXISTS"))])])]), Alternative([Sym(Symbol.Terminal("OR")), Sym(Symbol.Terminal("REPLACE")), Opt([Alternative([Sym(Symbol.Terminal("PROPERTY"))])]), Sym(Symbol.Terminal("GRAPH"))])]), Sym(Symbol.Nonterminal("catalog graph parent and name")), Group([Alternative([Sym(Symbol.Nonterminal("open graph type"))]), Alternative([Sym(Symbol.Nonterminal("of graph type"))])])], 28)
    ensures [Sym(Symbol.Terminal("CREATE"))] + [Group([Alternative([Opt([Alternative([Sym(Symbol.Terminal("PROPERTY"))])]), Sym(Symbol.Terminal("GRAPH")), Opt([Alternative([Sym(Symbol.Terminal("IF")), Sym(Symbol.Terminal("NOT")), Sym(Symbol.Terminal("EXISTS"))])])]), Alternative([Sym(Symbol.Terminal("OR")), Sym(Symbol.Terminal("REPLACE")), Opt([Alternative([Sym(Symbol.Terminal("PROPERTY"))])]), Sym(Symbol.Terminal("GRAPH"))])]), Sym(Symbol.Nonterminal("catalog graph parent and name")), Group([Alternative([Sym(Symbol.Nonterminal("open graph type"))]), Alternative([Sym(Symbol.Nonterminal("of graph type"))])])] == [Sym(Symbol.Terminal("CREATE")), Group([Alternative([Opt([Alternative([Sym(Symbol.Terminal("PROPERTY"))])]), Sym(Symbol.Terminal("GRAPH")), Opt([Alternative([Sym(Symbol.Terminal("IF")), Sym(Symbol.Terminal("NOT")), Sym(Symbol.Terminal("EXISTS"))])])]), Alternative([Sym(Symbol.Terminal("OR")), Sym(Symbol.Terminal("REPLACE")), Opt([Alternative([Sym(Symbol.Terminal("PROPERTY"))])]), Sym(Symbol.Terminal("GRAPH"))])]), Sym(Symbol.Nonterminal("catalog graph parent and name")), Group([Alternative([Sym(Symbol.Nonterminal("open graph type"))]), Alternative([Sym(Symbol.Nonterminal("of graph type"))])])]
    ensures ParseAlternative(ts, 3) == Parsed(Alternative([Sym(Symbol.Terminal("CREATE")), Group([Alternative([Opt([Alternative([Sym(Symbol.Terminal("PROPERTY"))])]), Sym(Symbol.Terminal("GRAPH")), Opt([Alternative([Sym(Symbol.Terminal("IF")), Sym(Symbol.Terminal("NOT")), Sym(Symbol.Terminal("EXISTS"))])])]), Alternative([Sym(Symbol.Terminal("OR")), Sym(Symbol.Terminal("REPLACE")), Opt([Alternative([Sym(Symbol.Terminal("PROPERTY"))])]), Sym(Symbol.Terminal("GRAPH"))])]), Sym(Symbol.Nonterminal("catalog graph parent and name")), Group([Alternative([Sym(Symbol.Nonterminal("open graph type"))]), Alternative([Sym(Symbol.Nonterminal("of graph type"))])])]), 28)
    ensures ParseMoreAlternatives(ts, 28) == Parsed([], 28)
  {
    Parsed14Step1(ts);
    Parsed14Step15(ts);
    Parsed14Step20(ts);
  }

  /** Parser results on test_14's text, in evaluation order (part 22). */
  lemma Parsed14Step22(ts: seq<Token>)
    requires |ts| == 28 && ts[0] == BlockEnd && ts[1] == Token.Nonterminal("create graph statement") && ts[2] == Defines && ts[3] == Token.Terminal("CREATE") && ts[4] == LBrace && ts[5] == LBrack && ts[6] == Token.Terminal("PROPERTY") && ts[7] == RBrack && ts[8] == Token.Terminal("GRAPH") && ts[9] == LBrack && ts[10] == Token.Terminal("IF") && ts[11] == Token.Terminal("NOT") && ts[12] == Token.Terminal("EXISTS") && ts[13] == RBrack && ts[14] == Bar && ts[15] == Token.Terminal("OR") && ts[16] == Token.Terminal("REPLACE") && ts[17] == LBrack && ts[18] == Token.Terminal("PROPERTY") && ts[19] == RBrack && ts[20] == Token.Terminal("GRAPH") && ts[21] == RBrace && ts[22] == Token.Nonterminal("catalog graph parent and name") && ts[23] == LBrace && ts[24] == Token.Nonterminal("open graph type") && ts[25] == Bar && ts[26] == Token.Nonterminal("of graph type") && ts[27] == RBrace
    ensures [Alternative([Sym(Symbol.Terminal("CREATE")), Group([Alternative([Opt([Alternative([Sym(Symbol.Terminal("PROPERTY"))])]), Sym(Symbol.Terminal("GRAPH")), Opt([Alternative([Sym(Symbol.Terminal("IF")), Sym(Symbol.Terminal("NOT")), Sym(Symbol.Terminal("EXISTS"))])])]), Alternative([Sym(Symbol.Terminal("OR")), Sym(Symbol.Terminal("REPLACE")), Opt([Alternative([Sym(Symbol.Terminal("PROPERTY"))])]), Sym(Symbol.Terminal("GRAPH"))])]), Sym(Symbol.Nonterminal("catalog graph parent and name")), Group([Alternative([Sym(Symbol.Nonterminal("open graph type"))]), Alternative([Sym(Symbol.Nonterminal("of graph type"))])])])] + [] == [Alternative([Sym(Symbol.Terminal("CREATE")), Group([Alternative([Opt([Alternative([Sym(Symbol.Terminal("PROPERTY"))])]), Sym(Symbol.Terminal("GRAPH")), Opt([Alternative([Sym(Symbol.Terminal("IF")), Sym(Symbol.Terminal("NOT")), Sym(Symbol.Terminal("EXISTS"))])])]), Alternative([Sym(Symbol.Terminal("OR")), Sym(Symbol.Terminal("REPLACE")), Opt([Alternative([Sym(Symbol.Terminal("PROPERTY"))])]), Sym(Symbol.Terminal("GRAPH"))])]), Sym(Symbol.Nonterminal("catalog graph parent and name")), Group([Alternative([Sym(Symbol.Nonterminal("open graph type"))]), Alternative([Sym(Symbol.Nonterminal("of graph type"))])])])]
    ensures ParseAlternatives(ts, 3) == Parsed([Alternative([Sym(Symbol.Terminal("CREATE")), Group([Alternative([Opt([Alternative([Sym(Symbol.Terminal("PROPERTY"))])]), Sym(Symbol.Terminal("GRAPH")), Opt([Alternative([Sym(Symbol.Terminal("IF")), Sym(Symbol.Terminal("NOT")), Sym(Symbol.Terminal("EXISTS"))])])]), Alternative([Sym(Symbol.Terminal("OR")), Sym(Symbol.Terminal("REPLACE")), Opt([Alternative([Sym(Symbol.Terminal("PROPERTY"))])]), Sym(Symbol.Terminal("GRAPH"))])]), Sym(Symbol.Nonterminal("catalog graph parent and name")), Group([Alternative([Sym(Symbol.Nonterminal("open graph type"))]), Alternative([Sym(Symbol.Nonterminal("of graph type"))])])])], 28)
    ensures ParseRuleBody(ts, 3) == Parsed([Alternative([Sym(Symbol.Terminal("CREATE")), Group([Alternative([Opt([Alternative([Sym(Symbol.Terminal("PROPERTY"))])]), Sym(Symbol.Terminal("GRAPH")), Opt([Alternative([Sym(Symbol.Terminal("IF")), Sym(Symbol.Terminal("NOT")), Sym(Symbol.Terminal("EXISTS"))])])]), Alternative([Sym(Symbol.Terminal("OR")), Sym(Symbol.Terminal("REPLACE")), Opt([Alternative([Sym(Symbol.Terminal("PROPERTY"))])]), Sym(Symbol.Terminal("GRAPH"))])]), Sym(Symbol.Nonterminal("catalog graph parent and name")), Group([Alternative([Sym(Symbol.Nonterminal("open graph type"))]), Alternative([Sym(Symbol.Nonterminal("of graph type"))])])])], 28)
    ensures ParseRule(ts, 1) == Parsed(Rule("create graph statement", [Alternative([Sym(Symbol.Terminal("CREATE")), Group([Alternative([Opt([Alternative([Sym(Symbol.Terminal("PROPERTY"))])]), Sym(Symbol.Terminal("GRAPH")), Opt([Alternative([Sym(Symbol.Terminal("IF")), Sym(Symbol.Terminal("NOT")), Sym(Symbol.Terminal("EXISTS"))])])]), Alternative([Sym(Symbol.Terminal("OR")), Sym(Symbol.Terminal("REPLACE")), Opt([Alternative([Sym(Symbol.Terminal("PROPERTY"))])]), Sym(Symbol.Terminal("GRAPH"))])]), Sym(Symbol.Nonterminal("catalog graph parent and name")), Group([Alternative([Sym(Symbol.Nonterminal("open graph type"))]), Alternative([Sym(Symbol.Nonterminal("of graph type"))])])])]), 28)
  {
    Parsed14Step21(ts);
  }

  /** Parser results on test_14's text, in evaluation order (part 23). */
  lemma Parsed14Step23(ts: seq<Token>)
    requires |ts| == 28 && ts[0] == BlockEnd && ts[1] == Token.Nonterminal("create graph statement") && ts[2] == Defines && ts[3] == Token.Terminal("CREATE") && ts[4] == LBrace && ts[5] == LBrack && ts[6] == Token.Terminal("PROPERTY") && ts[7] == RBrack && ts[8] == Token.Terminal("GRAPH") && ts[9] == LBrack && ts[10] == Token.Terminal("IF") && ts[11] == Token.Terminal("NOT") && ts[12] == Token.Terminal("EXISTS") && ts[13] == RBrack && ts[14] == Bar && ts[15] == Token.Terminal("OR") && ts[16] == Token.Terminal("REPLACE") && ts[17] == LBrack && ts[18] == Token.Terminal("PROPERTY") && ts[19] == RBrack && ts[20] == Token.Terminal("GRAPH") && ts[21] == RBrace && ts[22] == Token.Nonterminal("catalog graph parent and name") && ts[23] == LBrace && ts[24] == Token.Nonterminal("open graph type") && ts[25] == Bar && ts[26] == Token.Nonterminal("of graph type") && ts[27] == RBrace
    ensures ParseRules(ts, 1) == Some([Rule("create graph statement", [Alternative([Sym(Symbol.Terminal("CREATE")), Group([Alternative([Opt([Alternative([Sym(Symbol.Terminal("PROPERTY"))])]), Sym(Symbol.Terminal("GRAPH")), Opt([Alternative([Sym(Symbol.Terminal("IF")), Sym(Symbol.Terminal("NOT")), Sym(Symbol.Terminal("EXISTS"))])])]), Alternative([Sym(Symbol.Terminal("OR")), Sym(Symbol.Terminal("REPLACE")), Opt([Alternative([Sym(Symbol.Terminal("PROPERTY"))])]), Sym(Symbol.Terminal("GRAPH"))])]), Sym(Symbol.Nonterminal("catalog graph parent and name")), Group([Alternative([Sym(Symbol.Nonterminal("open graph type"))]), Alternative([Sym(Symbol.Nonterminal("of graph type"))])])])])])
  {
    Parsed14Step22(ts);
  }

  /** The rule blocks test_14's text parses to. */
  lemma Parsed14()
    ensures Parse(Text14) == Some([Rule("create graph statement", [Alternative([Sym(Symbol.Terminal("CREATE")), Group([Alternative([Opt([Alternative([Sym(Symbol.Terminal("PROPERTY"))])]), Sym(Symbol.Terminal("GRAPH")), Opt([Alternative([Sym(Symbol.Terminal("IF")), Sym(Symbol.Terminal("NOT")), Sym(Symbol.Terminal("EXISTS"))])])]), Alternative([Sym(Symbol.Terminal("OR")), Sym(Symbol.Terminal("REPLACE")), Opt([Alternative([Sym(Symbol.Terminal("PROPERTY"))])]), Sym(Symbol.Terminal("GRAPH"))])]), Sym(Symbol.Nonterminal("catalog graph parent and name")), Group([Alternative([Sym(Symbol.Nonterminal("open graph type"))]), Alternative([Sym(Symbol.Nonterminal("of graph type"))])])])])])
  {
    Text14Tokens1();
    Text14Tokens2();
    Text14Tokens3();
    Text14Tokens4();
    Text14Tokens5();
    Text14Tokens6();
    Text14Tokens7();
    Parsed14Step1(Text14);
    Parsed14Step2(Text14);
    Parsed14Step3(Text14);
    Parsed14Step4(Text14);
    Parsed14Step5(Text14);
    Parsed14Step6(Text14);
    Parsed14Step7(Text14);
    Parsed14Step8(Text14);
    Parsed14Step9(Text14);
    Parsed14Step10(Text14);
    Parsed14Step11(Text14);
    Parsed14Step12(Text14);
    Parsed14Step13(Text14);
    Parsed14Step14(Text14);
    Parsed14Step15(Text14);
    Parsed14Step16(Text14);
    Parsed14Step17(Text14);
    Parsed14Step18(Text14);
    Parsed14Step19(Text14);
    Parsed14Step20(Text14);
    Parsed14Step21(Text14);
    Parsed14Step22(Text14);
    Parsed14Step23(Text14);
  }

  /** test_14, block 1: its alternatives merged into its entry. */
  lemma Test14Block1Merge()
    ensures var w: Grammar := map[]; w["create_graph_statement" := Lookup(w, "create_graph_statement") + {["CREATE", "PROPERTY", "GRAPH", "IF", "NOT", "EXISTS", "catalog_graph_parent_and_name", "open_graph_type"], ["CREATE", "PROPERTY", "GRAPH", "IF", "NOT", "EXISTS", "catalog_graph_parent_and_name", "of_graph_type"], ["CREATE", "PROPERTY", "GRAPH", "catalog_graph_parent_and_name", "open_graph_type"], ["CREATE", "PROPERTY", "GRAPH", "catalog_graph_parent_and_name", "of_graph_type"], ["CREATE", "GRAPH", "IF", "NOT", "EXISTS", "catalog_graph_parent_and_name", "open_graph_type"], ["CREATE", "GRAPH", "IF", "NOT", "EXISTS", "catalog_graph_parent_and_name", "of_graph_type"], ["CREATE", "GRAPH", "catalog_graph_parent_and_name", "open_graph_type"], ["CREATE", "GRAPH", "catalog_graph_parent_and_name", "of_graph_type"], ["CREATE", "OR", "REPLACE", "PROPERTY", "GRAPH", "catalog_graph_parent_and_name", "open_graph_type"], ["CREATE", "OR", "REPLACE", "PROPERTY", "GRAPH", "catalog_graph_parent_and_name", "of_graph_type"], ["CREATE", "OR", "REPLACE", "GRAPH", "catalog_graph_parent_and_name", "open_graph_type"], ["CREATE", "OR", "REPLACE", "GRAPH", "catalog_graph_parent_and_name", "of_graph_type"]}] == map["create_graph_statement" := {["CREATE", "PROPERTY", "GRAPH", "IF", "NOT", "EXISTS", "catalog_graph_parent_and_name", "open_graph_type"], ["CREATE", "PROPERTY", "GRAPH", "IF", "NOT", "EXISTS", "catalog_graph_parent_and_name", "of_graph_type"], ["CREATE", "PROPERTY", "GRAPH", "catalog_graph_parent_and_name", "open_graph_type"], ["CREATE", "PROPERTY", "GRAPH", "catalog_graph_parent_and_name", "of_graph_type"], ["CREATE", "GRAPH", "IF", "NOT", "EXISTS", "catalog_graph_parent_and_name", "open_graph_type"], ["CREATE", "GRAPH", "IF", "NOT", "EXISTS", "catalog_graph_parent_and_name", "of_graph_type"], ["CREATE", "GRAPH", "catalog_graph_parent_and_name", "open_graph_type"], ["CREATE", "GRAPH", "catalog_graph_parent_and_name", "of_graph_type"], ["CREATE", "OR", "REPLACE", "PROPERTY", "GRAPH", "catalog_graph_parent_and_name", "open_graph_type"], ["CREATE", "OR", "REPLACE", "PROPERTY", "GRAPH", "catalog_graph_parent_and_name", "of_graph_type"], ["CREATE", "OR", "REPLACE", "GRAPH", "catalog_graph_parent_and_name", "open_graph_type"], ["CREATE", "OR", "REPLACE", "GRAPH", "catalog_graph_parent_and_name", "of_graph_type"]}]
  {
    var w: Grammar := map[];
    assert Lookup(w, "create_graph_statement") == {};
    assert {} + {["CREATE", "PROPERTY", "GRAPH", "IF", "NOT", "EXISTS", "catalog_graph_parent_and_name", "open_graph_type"], ["CREATE", "PROPERTY", "GRAPH", "IF", "NOT", "EXISTS", "catalog_graph_parent_and_name", "of_graph_type"], ["CREATE", "PROPERTY", "GRAPH", "catalog_graph_parent_and_name", "open_graph_type"], ["CREATE", "PROPERTY", "GRAPH", "catalog_graph_parent_and_name", "of_graph_type"], ["CREATE", "GRAPH", "IF", "NOT", "EXISTS", "catalog_graph_parent_and_name", "open_graph_type"], ["CREATE", "GRAPH", "IF", "NOT", "EXISTS", "catalog_graph_parent_and_name", "of_graph_type"], ["CREATE", "GRAPH", "catalog_graph_parent_and_name", "open_graph_type"], ["CREATE", "GRAPH", "catalog_graph_parent_and_name", "of_graph_type"], ["CREATE", "OR", "REPLACE", "PROPERTY", "GRAPH", "catalog_graph_parent_and_name", "open_graph_type"], ["CREATE", "OR", "REPLACE", "PROPERTY", "GRAPH", "catalog_graph_parent_and_name", "of_graph_type"], ["CREATE", "OR", "REPLACE", "GRAPH", "catalog_graph_parent_and_name", "open_graph_type"], ["CREATE", "OR", "REPLACE", "GRAPH", "catalog_graph_parent_and_name", "of_graph_type"]} == {["CREATE", "PROPERTY", "GRAPH", "IF", "NOT", "EXISTS", "catalog_graph_parent_and_name", "open_graph_type"], ["CREATE", "PROPERTY", "GRAPH", "IF", "NOT", "EXISTS", "catalog_graph_parent_and_name", "of_graph_type"], ["CREATE", "PROPERTY", "GRAPH", "catalog_graph_parent_and_name", "open_graph_type"], ["CREATE", "PROPERTY", "GRAPH", "catalog_graph_parent_and_name", "of_graph_type"], ["CREATE", "GRAPH", "IF", "NOT", "EXISTS", "catalog_graph_parent_and_name", "open_graph_type"], ["CREATE", "GRAPH", "IF", "NOT", "EXISTS", "catalog_graph_parent_and_name", "of_graph_type"], ["CREATE", "GRAPH", "catalog_graph_parent_and_name", "open_graph_type"], ["CREATE", "GRAPH", "catalog_graph_parent_and_name", "of_graph_type"], ["CREATE", "OR", "REPLACE", "PROPERTY", "GRAPH", "catalog_graph_parent_and_name", "open_graph_type"], ["CREATE", "OR", "REPLACE", "PROPERTY", "GRAPH", "catalog_graph_parent_and_name", "of_graph_type"], ["CREATE", "OR", "REPLACE", "GRAPH", "catalog_graph_parent_and_name", "open_graph_type"], ["CREATE", "OR", "REPLACE", "GRAPH", "catalog_graph_parent_and_name", "of_graph_type"]};
  }

  /** test_14: the map after block 1. */
  lemma Test14Block1()
    ensures ApplyRules(map[], [Rule("create graph statement", [Alternative([Sym(Symbol.Terminal("CREATE")), Group([Alternative([Opt([Alternative([Sym(Symbol.Terminal("PROPERTY"))])]), Sym(Symbol.Terminal("GRAPH")), Opt([Alternative([Sym(Symbol.Terminal("IF")), Sym(Symbol.Terminal("NOT")), Sym(Symbol.Terminal("EXISTS"))])])]), Alternative([Sym(Symbol.Terminal("OR")), Sym(Symbol.Terminal("REPLACE")), Opt([Alternative([Sym(Symbol.Terminal("PROPERTY"))])]), Sym(Symbol.Terminal("GRAPH"))])]), Sym(Symbol.Nonterminal("catalog graph parent and name")), Group([Alternative([Sym(Symbol.Nonterminal("open graph type"))]), Alternative([Sym(Symbol.Nonterminal("of graph type"))])])])])]) == map["create_graph_statement" := {["CREATE", "PROPERTY", "GRAPH", "IF", "NOT", "EXISTS", "catalog_graph_parent_and_name", "open_graph_type"], ["CREATE", "PROPERTY", "GRAPH", "IF", "NOT", "EXISTS", "catalog_graph_parent_and_name", "of_graph_type"], ["CREATE", "PROPERTY", "GRAPH", "catalog_graph_parent_and_name", "open_graph_type"], ["CREATE", "PROPERTY", "GRAPH", "catalog_graph_parent_and_name", "of_graph_type"], ["CREATE", "GRAPH", "IF", "NOT", "EXISTS", "catalog_graph_parent_and_name", "open_graph_type"], ["CREATE", "GRAPH", "IF", "NOT", "EXISTS", "catalog_graph_parent_and_name", "of_graph_type"], ["CREATE", "GRAPH", "catalog_graph_parent_and_name", "open_graph_type"], ["CREATE", "GRAPH", "catalog_graph_parent_and_name", "of_graph_type"], ["CREATE", "OR", "REPLACE", "PROPERTY", "GRAPH", "catalog_graph_parent_and_name", "open_graph_type"], ["CREATE", "OR", "REPLACE", "PROPERTY", "GRAPH", "catalog_graph_parent_and_name", "of_graph_type"], ["CREATE", "OR", "REPLACE", "GRAPH", "catalog_graph_parent_and_name", "open_graph_type"], ["CREATE", "OR", "REPLACE", "GRAPH", "catalog_graph_parent_and_name", "of_graph_type"]}]
  {
    Step162();
    Step95();
    Test14Block1Merge();
    var g: Grammar := map[];
    WithNoLists(g);
    var rules := [Rule("create graph statement", [Alternative([Sym(Symbol.Terminal("CREATE")), Group([Alternative([Opt([Alternative([Sym(Symbol.Terminal("PROPERTY"))])]), Sym(Symbol.Terminal("GRAPH")), Opt([Alternative([Sym(Symbol.Terminal("IF")), Sym(Symbol.Terminal("NOT")), Sym(Symbol.Terminal("EXISTS"))])])]), Alternative([Sym(Symbol.Terminal("OR")), Sym(Symbol.Terminal("REPLACE")), Opt([Alternative([Sym(Symbol.Terminal("PROPERTY"))])]), Sym(Symbol.Terminal("GRAPH"))])]), Sym(Symbol.Nonterminal("catalog graph parent and name")), Group([Alternative([Sym(Symbol.Nonterminal("open graph type"))]), Alternative([Sym(Symbol.Nonterminal("of graph type"))])])])])];
    assert rules[..0] == [];
    var w: Grammar := map[];
    BlockStep(rules, g, {}, w, "create_graph_statement", {["CREATE", "PROPERTY", "GRAPH", "IF", "NOT", "EXISTS", "catalog_graph_parent_and_name", "open_graph_type"], ["CREATE", "PROPERTY", "GRAPH", "IF", "NOT", "EXISTS", "catalog_graph_parent_and_name", "of_graph_type"], ["CREATE", "PROPERTY", "GRAPH", "catalog_graph_parent_and_name", "open_graph_type"], ["CREATE", "PROPERTY", "GRAPH", "catalog_graph_parent_and_name", "of_graph_type"], ["CREATE", "GRAPH", "IF", "NOT", "EXISTS", "catalog_graph_parent_and_name", "open_graph_type"], ["CREATE", "GRAPH", "IF", "NOT", "EXISTS", "catalog_graph_parent_and_name", "of_graph_type"], ["CREATE", "GRAPH", "catalog_graph_parent_and_name", "open_graph_type"], ["CREATE", "GRAPH", "catalog_graph_parent_and_name", "of_graph_type"], ["CREATE", "OR", "REPLACE", "PROPERTY", "GRAPH", "catalog_graph_parent_and_name", "open_graph_type"], ["CREATE", "OR", "REPLACE", "PROPERTY", "GRAPH", "catalog_graph_parent_and_name", "of_graph_type"], ["CREATE", "OR", "REPLACE", "GRAPH", "catalog_graph_parent_and_name", "open_graph_type"], ["CREATE", "OR", "REPLACE", "GRAPH", "catalog_graph_parent_and_name", "of_graph_type"]}, map["create_graph_statement" := {["CREATE", "PROPERTY", "GRAPH", "IF", "NOT", "EXISTS", "catalog_graph_parent_and_name", "open_graph_type"], ["CREATE", "PROPERTY", "GRAPH", "IF", "NOT", "EXISTS", "catalog_graph_parent_and_name", "of_graph_type"], ["CREATE", "PROPERTY", "GRAPH", "catalog_graph_parent_and_name", "open_graph_type"], ["CREATE", "PROPERTY", "GRAPH", "catalog_graph_parent_and_name", "of_graph_type"], ["CREATE", "GRAPH", "IF", "NOT", "EXISTS", "catalog_graph_parent_and_name", "open_graph_type"], ["CREATE", "GRAPH", "IF", "NOT", "EXISTS", "catalog_graph_parent_and_name", "of_graph_type"], ["CREATE", "GRAPH", "catalog_graph_parent_and_name", "open_graph_type"], ["CREATE", "GRAPH", "catalog_graph_parent_and_name", "of_graph_type"], ["CREATE", "OR", "REPLACE", "PROPERTY", "GRAPH", "catalog_graph_parent_and_name", "open_graph_type"], ["CREATE", "OR", "REPLACE", "PROPERTY", "GRAPH", "catalog_graph_parent_and_name", "of_graph_type"], ["CREATE", "OR", "REPLACE", "GRAPH", "catalog_graph_parent_and_name", "open_graph_type"], ["CREATE", "OR", "REPLACE", "GRAPH", "catalog_graph_parent_and_name", "of_graph_type"]}]);
  }

  /** The map the test expects. */
  lemma Test14()
    ensures Convert(Text14) == Some(map["create_graph_statement" := {["CREATE", "PROPERTY", "GRAPH", "IF", "NOT", "EXISTS", "catalog_graph_parent_and_name", "open_graph_type"], ["CREATE", "PROPERTY", "GRAPH", "IF", "NOT", "EXISTS", "catalog_graph_parent_and_name", "of_graph_type"], ["CREATE", "PROPERTY", "GRAPH", "catalog_graph_parent_and_name", "open_graph_type"], ["CREATE", "PROPERTY", "GRAPH", "catalog_graph_parent_and_name", "of_graph_type"], ["CREATE", "GRAPH", "IF", "NOT", "EXISTS", "catalog_graph_parent_and_name", "open_graph_type"], ["CREATE", "GRAPH", "IF", "NOT", "EXISTS", "catalog_graph_parent_and_name", "of_graph_type"], ["CREATE", "GRAPH", "catalog_graph_parent_and_name", "open_graph_type"], ["CREATE", "GRAPH", "catalog_graph_parent_and_name", "of_graph_type"], ["CREATE", "OR", "REPLACE", "PROPERTY", "GRAPH", "catalog_graph_parent_and_name", "open_graph_type"], ["CREATE", "OR", "REPLACE", "PROPERTY", "GRAPH", "catalog_graph_parent_and_name", "of_graph_type"], ["CREATE", "OR", "REPLACE", "GRAPH", "catalog_graph_parent_and_name", "open_graph_type"], ["CREATE", "OR", "REPLACE", "GRAPH", "catalog_graph_parent_and_name", "of_graph_type"]}])
  {
    Parsed14();
    Test14Block1();
  }


  // test_15, line 629 of the test file
  /** The grammar text of test_15 as its token sequence. */
  const Text15: seq<Token> := [BlockEnd, Token.Nonterminal("create graph statement"), Defines, Token.Terminal("CREATE"), LBrace, LBrack, Token.Terminal("PROPERTY"), RBrack, Token.Terminal("GRAPH"), LBrack, Token.Terminal("IF"), Token.Terminal("NOT"), Token.Terminal("EXISTS"), RBrack, Bar, Token.Terminal("OR"), Token.Terminal("REPLACE"), LBrack, Token.Terminal("PROPERTY"), RBrack, Token.Terminal("GRAPH"), RBrace, Token.Nonterminal("catalog graph parent and name"), LBrace, Token.Nonterminal("open graph type"), Bar, Token.Nonterminal("of graph type"), RBrace, LBrack, Token.Nonterminal("graph source"), RBrack]

  /** Tokens of test_15's text, four at a time. */
  lemma Text15Tokens1()
    ensures |Text15| == 31
    ensures Text15[0] == BlockEnd
    ensures Text15[1] == Token.Nonterminal("create graph statement")
    ensures Text15[2] == Defines
    ensures Text15[3] == Token.Terminal("CREATE")
  {
  }

  /** Tokens of test_15's text, four at a time. */
  lemma Text15Tokens2()
    ensures Text15[4] == LBrace
    ensures Text15[5] == LBrack
    ensures Text15[6] == Token.Terminal("PROPERTY")
    ensures Text15[7] == RBrack
  {
  }

  /** Tokens of test_15's text, four at a time. */
  lemma Text15Tokens3()
    ensures Text15[8] == Token.Terminal("GRAPH")
    ensures Text15[9] == LBrack
    ensures Text15[10] == Token.Terminal("IF")
    ensures Text15[11] == Token.Terminal("NOT")
  {
  }

  /** Tokens of test_15's text, four at a time. */
  lemma Text15Tokens4()
    ensures Text15[12] == Token.Terminal("EXISTS")
    ensures Text15[13] == RBrack
    ensures Text15[14] == Bar
    ensures Text15[15] == Token.Terminal("OR")
  {
  }

  /** Tokens of test_15's text, four at a time. */
  lemma Text15Tokens5()
    ensures Text15[16] == Token.Terminal("REPLACE")
    ensures Text15[17] == LBrack
    ensures Text15[18] == Token.Terminal("PROPERTY")
    ensures Text15[19] == RBrack
  {
  }

  /** Tokens of test_15's text, four at a time. */
  lemma Text15Tokens6()
    ensures Text15[20] == Token.Terminal("GRAPH")
    ensures Text15[21] == RBrace
    ensures Text15[22] == Token.Nonterminal("catalog graph parent and name")
    ensures Text15[23] == LBrace
  {
  }

  /** Tokens of test_15's text, four at a time. */
  lemma Text15Tokens7()
    ensures Text15[24] == Token.Nonterminal("open graph type")
    ensures Text15[25] == Bar
    ensures Text15[26] == Token.Nonterminal("of graph type")
    ensures Text15[27] == RBrace
  {
  }

  /** Tokens of test_15's text, four at a time. */
  lemma Text15Tokens8()
    ensures Text15[28] == LBrack
    ensures Text15[29] == Token.Nonterminal("graph source")
    ensures Text15[30] == RBrack
  {
  }

  /** Parser results on test_15's text, in evaluation order (part 1). */
  lemma Parsed15Step1(ts: seq<Token>)
    requires |ts| == 31 && ts[0] == BlockEnd && ts[1] == Token.Nonterminal("create graph statement") && ts[2] == Defines && ts[3] == Token.Terminal("CREATE") && ts[4] == LBrace && ts[5] == LBrack && ts[6] == Token.Terminal("PROPERTY") && ts[7] == RBrack && ts[8] == Token.Terminal("GRAPH") && ts[9] == LBrack && ts[10] == Token.Terminal("IF") && ts[11] == Token.Terminal("NOT") && ts[12] == Token.Terminal("EXISTS") && ts[13] == RBrack && ts[14] == Bar && ts[15] == Token.Terminal("OR") && ts[16] == Token.Terminal("REPLACE") && ts[17] == LBrack && ts[18] == Token.Terminal("PROPERTY") && ts[19] == RBrack && ts[20] == Token.Terminal("GRAPH") && ts[21] == RBrace && ts[22] == Token.Nonterminal("catalog graph parent and name") && ts[23] == LBrace && ts[24] == Token.Nonterminal("open graph type") && ts[25] == Bar && ts[26] == Token.Nonterminal("of graph type") && ts[27] == RBrace && ts[28] == LBrack && ts[29] == Token.Nonterminal("graph source") && ts[30] == RBrack
    ensures SkipBlank(ts, 1) == 1
    ensures SkipBlank(ts, 0) == 1
    ensures ParseElement(ts, 3) == Parsed(Sym(Symbol.Terminal("CREATE")), 4)
    ensures ParseElement(ts, 6) == Parsed(Sym(Symbol.Terminal("PROPERTY")), 7)
  {
  }

  /** Parser results on test_15's text, in evaluation order (part 2). */
  lemma Parsed15Step2(ts: seq<Token>)
    requires |ts| == 31 && ts[0] == BlockEnd && ts[1] == Token.Nonterminal("create graph statement") && ts[2] == Defines && ts[3] == Token.Terminal("CREATE") && ts[4] == LBrace && ts[5] == LBrack && ts[6] == Token.Terminal("PROPERTY") && ts[7] == RBrack && ts[8] == Token.Terminal("GRAPH") && ts[9] == LBrack && ts[10] == Token.Terminal("IF") && ts[11] == Token.Terminal("NOT") && ts[12] == Token.Terminal("EXISTS") && ts[13] == RBrack && ts[14] == Bar && ts[15] == Token.Terminal("OR") && ts[16] == Token.Terminal("REPLACE") && ts[17] == LBrack && ts[18] == Token.Terminal("PROPERTY") && ts[19] == RBrack && ts[20] == Token.Terminal("GRAPH") && ts[21] == RBrace && ts[22] == Token.Nonterminal("catalog graph parent and name") && ts[23] == LBrace && ts[24] == Token.Nonterminal("open graph type") && ts[25] == Bar && ts[26] == Token.Nonterminal("of graph type") && ts[27] == RBrace && ts[28] == LBrack && ts[29] == Token.Nonterminal("graph source") && ts[30] == RBrack
    ensures ParseItems(ts, 7) == Parsed([], 7)
    ensures [Sym(Symbol.Terminal("PROPERTY"))] + [] == [Sym(Symbol.Terminal("PROPERTY"))]
    ensures ParseAlternative(ts, 6) == Parsed(Alternative([Sym(Symbol.Terminal("PROPERTY"))]), 7)
    ensures ParseMoreAlternatives(ts, 7) == Parsed([], 7)
  {
    Parsed15Step1(ts);
  }

  /** Parser results on test_15's text, in evaluation order (part 3). */
  lemma Parsed15Step3(ts: seq<Token>)
    requires |ts| == 31 && ts[0] == BlockEnd && ts[1] == Token.Nonterminal("create graph statement") && ts[2] == Defines && ts[3] == Token.Terminal("CREATE") && ts[4] == LBrace && ts[5] == LBrack && ts[6] == Token.Terminal("PROPERTY") && ts[7] == RBrack && ts[8] == Token.Terminal("GRAPH") && ts[9] == LBrack && ts[10] == Token.Terminal("IF") && ts[11] == Token.Terminal("NOT") && ts[12] == Token.Terminal("EXISTS") && ts[13] == RBrack && ts[14] == Bar && ts[15] == Token.Terminal("OR") && ts[16] == Token.Terminal("REPLACE") && ts[17] == LBrack && ts[18] == Token.Terminal("PROPERTY") && ts[19] == RBrack && ts[20] == Token.Terminal("GRAPH") && ts[21] == RBrace && ts[22] == Token.Nonterminal("catalog graph parent and name") && ts[23] == LBrace && ts[24] == Token.Nonterminal("open graph type") && ts[25] == Bar && ts[26] == Token.Nonterminal("of graph type") && ts[27] == RBrace && ts[28] == LBrack && ts[29] == Token.Nonterminal("graph source") && ts[30] == RBrack
    ensures [Alternative([Sym(Symbol.Terminal("PROPERTY"))])] + [] == [Alternative([Sym(Symbol.Terminal("PROPERTY"))])]
    ensures ParseAlternatives(ts, 6) == Parsed([Alternative([Sym(Symbol.Terminal("PROPERTY"))])], 7)
    ensures ParseElement(ts, 5) == Parsed(Opt([Alternative([Sym(Symbol.Terminal("PROPERTY"))])]), 8)
    ensures ParseElement(ts, 8) == Parsed(Sym(Symbol.Terminal("GRAPH")), 9)
  {
    Parsed15Step2(ts);
  }

  /** Parser results on test_15's text, in evaluation order (part 4). */
  lemma Parsed15Step4(ts: seq<Token>)
    requires |ts| == 31 && ts[0] == BlockEnd && ts[1] == Token.Nonterminal("create graph statement") && ts[2] == Defines && ts[3] == Token.Terminal("CREATE") && ts[4] == LBrace && ts[5] == LBrack && ts[6] == Token.Terminal("PROPERTY") && ts[7] == RBrack && ts[8] == Token.Terminal("GRAPH") && ts[9] == LBrack && ts[10] == Token.Terminal("IF") && ts[11] == Token.Terminal("NOT") && ts[12] == Token.Terminal("EXISTS") && ts[13] == RBrack && ts[14] == Bar && ts[15] == Token.Terminal("OR") && ts[16] == Token.Terminal("REPLACE") && ts[17] == LBrack && ts[18] == Token.Terminal("PROPERTY") && ts[19] == RBrack && ts[20] == Token.Terminal("GRAPH") && ts[21] == RBrace && ts[22] == Token.Nonterminal("catalog graph parent and name") && ts[23] == LBrace && ts[24] == Token.Nonterminal("open graph type") && ts[25] == Bar && ts[26] == Token.Nonterminal("of graph type") && ts[27] == RBrace && ts[28] == LBrack && ts[29] == Token.Nonterminal("graph source") && ts[30] == RBrack
    ensures ParseElement(ts, 10) == Parsed(Sym(Symbol.Terminal("IF")), 11)
    ensures ParseElement(ts, 11) == Parsed(Sym(Symbol.Terminal("NOT")), 12)
    ensures ParseElement(ts, 12) == Parsed(Sym(Symbol.Terminal("EXISTS")), 13)
    ensures ParseItems(ts, 13) == Parsed([], 13)
  {
  }

  /** Parser results on test_15's text, in evaluation order (part 5). */
  lemma Parsed15Step5(ts: seq<Token>)
    requires |ts| == 31 && ts[0] == BlockEnd && ts[1] == Token.Nonterminal("create graph statement") && ts[2] == Defines && ts[3] == Token.Terminal("CREATE") && ts[4] == LBrace && ts[5] == LBrack && ts[6] == Token.Terminal("PROPERTY") && ts[7] == RBrack && ts[8] == Token.Terminal("GRAPH") && ts[9] == LBrack && ts[10] == Token.Terminal("IF") && ts[11] == Token.Terminal("NOT") && ts[12] == Token.Terminal("EXISTS") && ts[13] == RBrack && ts[14] == Bar && ts[15] == Token.Terminal("OR") && ts[16] == Token.Terminal("REPLACE") && ts[17] == LBrack && ts[18] == Token.Terminal("PROPERTY") && ts[19] == RBrack && ts[20] == Token.Terminal("GRAPH") && ts[21] == RBrace && ts[22] == Token.Nonterminal("catalog graph parent and name") && ts[23] == LBrace && ts[24] == Token.Nonterminal("open graph type") && ts[25] == Bar && ts[26] == Token.Nonterminal("of graph type") && ts[27] == RBrace && ts[28] == LBrack && ts[29] == Token.Nonterminal("graph source") && ts[30] == RBrack
    ensures [Sym(Symbol.Terminal("EXISTS"))] + [] == [Sym(Symbol.Terminal("EXISTS"))]
    ensures ParseItems(ts, 12) == Parsed([Sym(Symbol.Terminal("EXISTS"))], 13)
    ensures [Sym(Symbol.Terminal("NOT"))] + [Sym(Symbol.Terminal("EXISTS"))] == [Sym(Symbol.Terminal("NOT")), Sym(Symbol.Terminal("EXISTS"))]
    ensures ParseItems(ts, 11) == Parsed([Sym(Symbol.Terminal("NOT")), Sym(Symbol.Terminal("EXISTS"))], 13)
  {
    Parsed15Step4(ts);
  }

  /** Parser results on test_15's text, in evaluation order (part 6). */
  lemma Parsed15Step6(ts: seq<Token>)
    requires |ts| == 31 && ts[0] == BlockEnd && ts[1] == Token.Nonterminal("create graph statement") && ts[2] == Defines && ts[3] == Token.Terminal("CREATE") && ts[4] == LBrace && ts[5] == LBrack && ts[6] == Token.Terminal("PROPERTY") && ts[7] == RBrack && ts[8] == Token.Terminal("GRAPH") && ts[9] == LBrack && ts[10] == Token.Terminal("IF") && ts[11] == Token.Terminal("NOT") && ts[12] == Token.Terminal("EXISTS") && ts[13] == RBrack && ts[14] == Bar && ts[15] == Token.Terminal("OR") && ts[16] == Token.Terminal("REPLACE") && ts[17] == LBrack && ts[18] == Token.Terminal("PROPERTY") && ts[19] == RBrack && ts[20] == Token.Terminal("GRAPH") && ts[21] == RBrace && ts[22] == Token.Nonterminal("catalog graph parent and name") && ts[23] == LBrace && ts[24] == Token.Nonterminal("open graph type") && ts[25] == Bar && ts[26] == Token.Nonterminal("of graph type") && ts[27] == RBrace && ts[28] == LBrack && ts[29] == Token.Nonterminal("graph source") && ts[30] == RBrack
    ensures [Sym(Symbol.Terminal("IF"))] + [Sym(Symbol.Terminal("NOT")), Sym(Symbol.Terminal("EXISTS"))] == [Sym(Symbol.Terminal("IF")), Sym(Symbol.Terminal("NOT")), Sym(Symbol.Terminal("EXISTS"))]
    ensures ParseAlternative(ts, 10) == Parsed(Alternative([Sym(Symbol.Terminal("IF")), Sym(Symbol.Terminal("NOT")), Sym(Symbol.Terminal("EXISTS"))]), 13)
    ensures ParseMoreAlternatives(ts, 13) == Parsed([], 13)
    ensures [Alternative([Sym(Symbol.Terminal("IF")), Sym(Symbol.Terminal("NOT")), Sym(Symbol.Terminal("EXISTS"))])] + [] == [Alternative([Sym(Symbol.Terminal("IF")), Sym(Symbol.Terminal("NOT")), Sym(Symbol.Terminal("EXISTS"))])]
  {
    Parsed15Step4(ts);
    Parsed15Step5(ts);
  }

  /** Parser results on test_15's text, in evaluation order (part 7). */
  lemma Parsed15Step7(ts: seq<Token>)
    requires |ts| == 31 && ts[0] == BlockEnd && ts[1] == Token.Nonterminal("create graph statement") && ts[2] == Defines && ts[3] == Token.Terminal("CREATE") && ts[4] == LBrace && ts[5] == LBrack && ts[6] == Token.Terminal("PROPERTY") && ts[7] == RBrack && ts[8] == Token.Terminal("GRAPH") && ts[9] == LBrack && ts[10] == Token.Terminal("IF") && ts[11] == Token.Terminal("NOT") && ts[12] == Token.Terminal("EXISTS") && ts[13] == RBrack && ts[14] == Bar && ts[15] == Token.Terminal("OR") && ts[16] == Token.Terminal("REPLACE") && ts[17] == LBrack && ts[18] == Token.Terminal("PROPERTY") && ts[19] == RBrack && ts[20] == Token.Terminal("GRAPH") && ts[21] == RBrace && ts[22] == Token.Nonterminal("catalog graph parent and name") && ts[23] == LBrace && ts[24] == Token.Nonterminal("open graph type") && ts[25] == Bar && ts[26] == Token.Nonterminal("of graph type") && ts[27] == RBrace && ts[28] == LBrack && ts[29] == Token.Nonterminal("graph source") && ts[30] == RBrack
    ensures ParseAlternatives(ts, 10) == Parsed([Alternative([Sym(Symbol.Terminal("IF")), Sym(Symbol.Terminal("NOT")), Sym(Symbol.Terminal("EXISTS"))])], 13)
    ensures ParseElement(ts, 9) == Parsed(Opt([Alternative([Sym(Symbol.Terminal("IF")), Sym(Symbol.Terminal("NOT")), Sym(Symbol.Terminal("EXISTS"))])]), 14)
    ensures ParseItems(ts, 14) == Parsed([], 14)
    ensures [Opt([Alternative([Sym(Symbol.Terminal("IF")), Sym(Symbol.Terminal("NOT")), Sym(Symbol.Terminal("EXISTS"))])])] + [] == [Opt([Alternative([Sym(Symbol.Terminal("IF")), Sym(Symbol.Terminal("NOT")), Sym(Symbol.Terminal("EXISTS"))])])]
  {
    Parsed15Step6(ts);
  }

  /** Parser results on test_15's text, in evaluation order (part 8). */
  lemma Parsed15Step8(ts: seq<Token>)
    requires |ts| == 31 && ts[0] == BlockEnd && ts[1] == Token.Nonterminal("create graph statement") && ts[2] == Defines && ts[3] == Token.Terminal("CREATE") && ts[4] == LBrace && ts[5] == LBrack && ts[6] == Token.Terminal("PROPERTY") && ts[7] == RBrack && ts[8] == Token.Terminal("GRAPH") && ts[9] == LBrack && ts[10] == Token.Terminal("IF") && ts[11] == Token.Terminal("NOT") && ts[12] == Token.Terminal("EXISTS") && ts[13] == RBrack && ts[14] == Bar && ts[15] == Token.Terminal("OR") && ts[16] == Token.Terminal("REPLACE") && ts[17] == LBrack && ts[18] == Token.Terminal("PROPERTY") && ts[19] == RBrack && ts[20] == Token.Terminal("GRAPH") && ts[21] == RBrace && ts[22] == Token.Nonterminal("catalog graph parent and name") && ts[23] == LBrace && ts[24] == Token.Nonterminal("open graph type") && ts[25] == Bar && ts[26] == Token.Nonterminal("of graph type") && ts[27] == RBrace && ts[28] == LBrack && ts[29] == Token.Nonterminal("graph source") && ts[30] == RBrack
    ensures ParseItems(ts, 9) == Parsed([Opt([Alternative([Sym(Symbol.Terminal("IF")), Sym(Symbol.Terminal("NOT")), Sym(Symbol.Terminal("EXISTS"))])])], 14)
    ensures [Sym(Symbol.Terminal("GRAPH"))] + [Opt([Alternative([Sym(Symbol.Terminal("IF")), Sym(Symbol.Terminal("NOT")), Sym(Symbol.Terminal("EXISTS"))])])] == [Sym(Symbol.Terminal("GRAPH")), Opt([Alternative([Sym(Symbol.Terminal("IF")), Sym(Symbol.Terminal("NOT")), Sym(Symbol.Terminal("EXISTS"))])])]
    ensures ParseItems(ts, 8) == Parsed([Sym(Symbol.Terminal("GRAPH")), Opt([Alternative([Sym(Symbol.Terminal("IF")), Sym(Symbol.Terminal("NOT")), Sym(Symbol.Terminal("EXISTS"))])])], 14)
    ensures [Opt([Alternative([Sym(Symbol.Terminal("PROPERTY"))])])] + [Sym(Symbol.Terminal("GRAPH")), Opt([Alternative([Sym(Symbol.Terminal("IF")), Sym(Symbol.Terminal("NOT")), Sym(Symbol.Terminal("EXISTS"))])])] == [Opt([Alternative([Sym(Symbol.Terminal("PROPERTY"))])]), Sym(Symbol.Terminal("GRAPH")), Opt([Alternative([Sym(Symbol.Terminal("IF")), Sym(Symbol.Terminal("NOT")), Sym(Symbol.Terminal("EXISTS"))])])]
  {
    Parsed15Step3(ts);
    Parsed15Step7(ts);
  }

  /** Parser results on test_15's text, in evaluation order (part 9). */
  lemma Parsed15Step9(ts: seq<Token>)
    requires |ts| == 31 && ts[0] == BlockEnd && ts[1] == Token.Nonterminal("create graph statement") && ts[2] == Defines && ts[3] == Token.Terminal("CREATE") && ts[4] == LBrace && ts[5] == LBrack && ts[6] == Token.Terminal("PROPERTY") && ts[7] == RBrack && ts[8] == Token.Terminal("GRAPH") && ts[9] == LBrack && ts[10] == Token.Terminal("IF") && ts[11] == Token.Terminal("NOT") && ts[12] == Token.Terminal("EXISTS") && ts[13] == RBrack && ts[14] == Bar && ts[15] == Token.Terminal("OR") && ts[16] == Token.Terminal("REPLACE") && ts[17] == LBrack && ts[18] == Token.Terminal("PROPERTY") && ts[19] == RBrack && ts[20] == Token.Terminal("GRAPH") && ts[21] == RBrace && ts[22] == Token.Nonterminal("catalog graph parent and name") && ts[23] == LBrace && ts[24] == Token.Nonterminal("open graph type") && ts[25] == Bar && ts[26] == Token.Nonterminal("of graph type") && ts[27] == RBrace && ts[28] == LBrack && ts[29] == Token.Nonterminal("graph source") && ts[30] == RBrack
    ensures ParseAlternative(ts, 5) == Parsed(Alternative([Opt([Alternative([Sym(Symbol.Terminal("PROPERTY"))])]), Sym(Symbol.Terminal("GRAPH")), Opt([Alternative([Sym(Symbol.Terminal("IF")), Sym(Symbol.Terminal("NOT")), Sym(Symbol.Terminal("EXISTS"))])])]), 14)
    ensures ParseElement(ts, 15) == Parsed(Sym(Symbol.Terminal("OR")), 16)
    ensures ParseElement(ts, 16) == Parsed(Sym(Symbol.Terminal("REPLACE")), 17)
    ensures ParseElement(ts, 18) == Parsed(Sym(Symbol.Terminal("PROPERTY")), 19)
  {
    Parsed15Step3(ts);
    Parsed15Step8(ts);
  }

  /** Parser results on test_15's text, in evaluation order (part 10). */
  lemma Parsed15Step10(ts: seq<Token>)
    requires |ts| == 31 && ts[0] == BlockEnd && ts[1] == Token.Nonterminal("create graph statement") && ts[2] == Defines && ts[3] == Token.Terminal("CREATE") && ts[4] == LBrace && ts[5] == LBrack && ts[6] == Token.Terminal("PROPERTY") && ts[7] == RBrack && ts[8] == Token.Terminal("GRAPH") && ts[9] == LBrack && ts[10] == Token.Terminal("IF") && ts[11] == Token.Terminal("NOT") && ts[12] == Token.Terminal("EXISTS") && ts[13] == RBrack && ts[14] == Bar && ts[15] == Token.Terminal("OR") && ts[16] == Token.Terminal("REPLACE") && ts[17] == LBrack && ts[18] == Token.Terminal("PROPERTY") && ts[19] == RBrack && ts[20] == Token.Terminal("GRAPH") && ts[21] == RBrace && ts[22] == Token.Nonterminal("catalog graph parent and name") && ts[23] == LBrace && ts[24] == Token.Nonterminal("open graph type") && ts[25] == Bar && ts[26] == Token.Nonterminal("of graph type") && ts[27] == RBrace && ts[28] == LBrack && ts[29] == Token.Nonterminal("graph source") && ts[30] == RBrack
    ensures ParseItems(ts, 19) == Parsed([], 19)
    ensures [Sym(Symbol.Terminal("PROPERTY"))] + [] == [Sym(Symbol.Terminal("PROPERTY"))]
    ensures ParseAlternative(ts, 18) == Parsed(Alternative([Sym(Symbol.Terminal("PROPERTY"))]), 19)
    ensures ParseMoreAlternatives(ts, 19) == Parsed([], 19)
  {
    Parsed15Step9(ts);
  }

  /** Parser results on test_15's text, in evaluation order (part 11). */
  lemma Parsed15Step11(ts: seq<Token>)
    requires |ts| == 31 && ts[0] == BlockEnd && ts[1] == Token.Nonterminal("create graph statement") && ts[2] == Defines && ts[3] == Token.Terminal("CREATE") && ts[4] == LBrace && ts[5] == LBrack && ts[6] == Token.Terminal("PROPERTY") && ts[7] == RBrack && ts[8] == Token.Terminal("GRAPH") && ts[9] == LBrack && ts[10] == Token.Terminal("IF") && ts[11] == Token.Terminal("NOT") && ts[12] == Token.Terminal("EXISTS") && ts[13] == RBrack && ts[14] == Bar && ts[15] == Token.Terminal("OR") && ts[16] == Token.Terminal("REPLACE") && ts[17] == LBrack && ts[18] == Token.Terminal("PROPERTY") && ts[19] == RBrack && ts[20] == Token.Terminal("GRAPH") && ts[21] == RBrace && ts[22] == Token.Nonterminal("catalog graph parent and name") && ts[23] == LBrace && ts[24] == Token.Nonterminal("open graph type") && ts[25] == Bar && ts[26] == Token.Nonterminal("of graph type") && ts[27] == RBrace && ts[28] == LBrack && ts[29] == Token.Nonterminal("graph source") && ts[30] == RBrack
    ensures [Alternative([Sym(Symbol.Terminal("PROPERTY"))])] + [] == [Alternative([Sym(Symbol.Terminal("PROPERTY"))])]
    ensures ParseAlternatives(ts, 18) == Parsed([Alternative([Sym(Symbol.Terminal("PROPERTY"))])], 19)
    ensures ParseElement(ts, 17) == Parsed(Opt([Alternative([Sym(Symbol.Terminal("PROPERTY"))])]), 20)
    ensures ParseElement(ts, 20) == Parsed(Sym(Symbol.Terminal("GRAPH")), 21)
  {
    Parsed15Step10(ts);
  }

  /** Parser results on test_15's text, in evaluation order (part 12). */
  lemma Parsed15Step12(ts: seq<Token>)
    requires |ts| == 31 && ts[0] == BlockEnd && ts[1] == Token.Nonterminal("create graph statement") && ts[2] == Defines && ts[3] == Token.Terminal("CREATE") && ts[4] == LBrace && ts[5] == LBrack && ts[6] == Token.Terminal("PROPERTY") && ts[7] == RBrack && ts[8] == Token.Terminal("GRAPH") && ts[9] == LBrack && ts[10] == Token.Terminal("IF") && ts[11] == Token.Terminal("NOT") && ts[12] == Token.Terminal("EXISTS") && ts[13] == RBrack && ts[14] == Bar && ts[15] == Token.Terminal("OR") && ts[16] == Token.Terminal("REPLACE") && ts[17] == LBrack && ts[18] == Token.Terminal("PROPERTY") && ts[19] == RBrack && ts[20] == Token.Terminal("GRAPH") && ts[21] == RBrace && ts[22] == Token.Nonterminal("catalog graph parent and name") && ts[23] == LBrace && ts[24] == Token.Nonterminal("open graph type") && ts[25] == Bar && ts[26] == Token.Nonterminal("of graph type") && ts[27] == RBrace && ts[28] == LBrack && ts[29] == Token.Nonterminal("graph source") && ts[30] == RBrack
    ensures ParseItems(ts, 21) == Parsed([], 21)
    ensures [Sym(Symbol.Terminal("GRAPH"))] + [] == [Sym(Symbol.Terminal("GRAPH"))]
    ensures ParseItems(ts, 20) == Parsed([Sym(Symbol.Terminal("GRAPH"))], 21)
    ensures [Opt([Alternative([Sym(Symbol.Terminal("PROPERTY"))])])] + [Sym(Symbol.Terminal("GRAPH"))] == [Opt([Alternative([Sym(Symbol.Terminal("PROPERTY"))])]), Sym(Symbol.Terminal("GRAPH"))]
  {
    Parsed15Step11(ts);
  }

  /** Parser results on test_15's text, in evaluation order (part 13). */
  lemma Parsed15Step13(ts: seq<Token>)
    requires |ts| == 31 && ts[0] == BlockEnd && ts[1] == Token.Nonterminal("create graph statement") && ts[2] == Defines && ts[3] == Token.Terminal("CREATE") && ts[4] == LBrace && ts[5] == LBrack && ts[6] == Token.Terminal("PROPERTY") && ts[7] == RBrack && ts[8] == Token.Terminal("GRAPH") && ts[9] == LBrack && ts[10] == Token.Terminal("IF") && ts[11] == Token.Terminal("NOT") && ts[12] == Token.Terminal("EXISTS") && ts[13] == RBrack && ts[14] == Bar && ts[15] == Token.Terminal("OR") && ts[16] == Token.Terminal("REPLACE") && ts[17] == LBrack && ts[18] == Token.Terminal("PROPERTY") && ts[19] == RBrack && ts[20] == Token.Terminal("GRAPH") && ts[21] == RBrace && ts[22] == Token.Nonterminal("catalog graph parent and name") && ts[23] == LBrace && ts[24] == Token.Nonterminal("open graph type") && ts[25] == Bar && ts[26] == Token.Nonterminal("of graph type") && ts[27] == RBrace && ts[28] == LBrack && ts[29] == Token.Nonterminal("graph source") && ts[30] == RBrack
    ensures ParseItems(ts, 17) == Parsed([Opt([Alternative([Sym(Symbol.Terminal("PROPERTY"))])]), Sym(Symbol.Terminal("GRAPH"))], 21)
    ensures [Sym(Symbol.Terminal("REPLACE"))] + [Opt([Alternative([Sym(Symbol.Terminal("PROPERTY"))])]), Sym(Symbol.Terminal("GRAPH"))] == [Sym(Symbol.Terminal("REPLACE")), Opt([Alternative([Sym(Symbol.Terminal("PROPERTY"))])]), Sym(Symbol.Terminal("GRAPH"))]
    ensures ParseItems(ts, 16) == Parsed([Sym(Symbol.Terminal("REPLACE")), Opt([Alternative([Sym(Symbol.Terminal("PROPERTY"))])]), Sym(Symbol.Terminal("GRAPH"))], 21)
    ensures [Sym(Symbol.Terminal("OR"))] + [Sym(Symbol.Terminal("REPLACE")), Opt([Alternative([Sym(Symbol.Terminal("PROPERTY"))])]), Sym(Symbol.Terminal("GRAPH"))] == [Sym(Symbol.Terminal("OR")), Sym(Symbol.Terminal("REPLACE")), Opt([Alternative([Sym(Symbol.Terminal("PROPERTY"))])]), Sym(Symbol.Terminal("GRAPH"))]
  {
    Parsed15Step9(ts);
    Parsed15Step11(ts);
    Parsed15Step12(ts);
  }

  /** Parser results on test_15's text, in evaluation order (part 14). */
  lemma Parsed15Step14(ts: seq<Token>)
    requires |ts| == 31 && ts[0] == BlockEnd && ts[1] == Token.Nonterminal("create graph statement") && ts[2] == Defines && ts[3] == Token.Terminal("CREATE") && ts[4] == LBrace && ts[5] == LBrack && ts[6] == Token.Terminal("PROPERTY") && ts[7] == RBrack && ts[8] == Token.Terminal("GRAPH") && ts[9] == LBrack && ts[10] == Token.Terminal("IF") && ts[11] == Token.Terminal("NOT") && ts[12] == Token.Terminal("EXISTS") && ts[13] == RBrack && ts[14] == Bar && ts[15] == Token.Terminal("OR") && ts[16] == Token.Terminal("REPLACE") && ts[17] == LBrack && ts[18] == Token.Terminal("PROPERTY") && ts[19] == RBrack && ts[20] == Token.Terminal("GRAPH") && ts[21] == RBrace && ts[22] == Token.Nonterminal("catalog graph parent and name") && ts[23] == LBrace && ts[24] == Token.Nonterminal("open graph type") && ts[25] == Bar && ts[26] == Token.Nonterminal("of graph type") && ts[27] == RBrace && ts[28] == LBrack && ts[29] == Token.Nonterminal("graph source") && ts[30] == RBrack
    ensures ParseAlternative(ts, 15) == Parsed(Alternative([Sym(Symbol.Terminal("OR")), Sym(Symbol.Terminal("REPLACE")), Opt([Alternative([Sym(Symbol.Terminal("PROPERTY"))])]), Sym(Symbol.Terminal("GRAPH"))]), 21)
    ensures ParseMoreAlternatives(ts, 21) == Parsed([], 21)
    ensures [Alternative([Sym(Symbol.Terminal("OR")), Sym(Symbol.Terminal("REPLACE")), Opt([Alternative([Sym(Symbol.Terminal("PROPERTY"))])]), Sym(Symbol.Terminal("GRAPH"))])] + [] == [Alternative([Sym(Symbol.Terminal("OR")), Sym(Symbol.Terminal("REPLACE")), Opt([Alternative([Sym(Symbol.Terminal("PROPERTY"))])]), Sym(Symbol.Terminal("GRAPH"))])]
    ensures ParseMoreAlternatives(ts, 14) == Parsed([Alternative([Sym(Symbol.Terminal("OR")), Sym(Symbol.Terminal("REPLACE")), Opt([Alternative([Sym(Symbol.Terminal("PROPERTY"))])]), Sym(Symbol.Terminal("GRAPH"))])], 21)
  {
    Parsed15Step9(ts);
    Parsed15Step13(ts);
  }

  /** Parser results on test_15's text, in evaluation order (part 15). */
  lemma Parsed15Step15(ts: seq<Token>)
    requires |ts| == 31 && ts[0] == BlockEnd && ts[1] == Token.Nonterminal("create graph statement") && ts[2] == Defines && ts[3] == Token.Terminal("CREATE") && ts[4] == LBrace && ts[5] == LBrack && ts[6] == Token.Terminal("PROPERTY") && ts[7] == RBrack && ts[8] == Token.Terminal("GRAPH") && ts[9] == LBrack && ts[10] == Token.Terminal("IF") && ts[11] == Token.Terminal("NOT") && ts[12] == Token.Terminal("EXISTS") && ts[13] == RBrack && ts[14] == Bar && ts[15] == Token.Terminal("OR") && ts[16] == Token.Terminal("REPLACE") && ts[17] == LBrack && ts[18] == Token.Terminal("PROPERTY") && ts[19] == RBrack && ts[20] == Token.Terminal("GRAPH") && ts[21] == RBrace && ts[22] == Token.Nonterminal("catalog graph parent and name") && ts[23] == LBrace && ts[24] == Token.Nonterminal("open graph type") && ts[25] == Bar && ts[26] == Token.Nonterminal("of graph type") && ts[27] == RBrace && ts[28] == LBrack && ts[29] == Token.Nonterminal("graph source") && ts[30] == RBrack
    ensures [Alternative([Opt([Alternative([Sym(Symbol.Terminal("PROPERTY"))])]), Sym(Symbol.Terminal("GRAPH")), Opt([Alternative([Sym(Symbol.Terminal("IF")), Sym(Symbol.Terminal("NOT")), Sym(Symbol.Terminal("EXISTS"))])])])] + [Alternative([Sym(Symbol.Terminal("OR")), Sym(Symbol.Terminal("REPLACE")), Opt([Alternative([Sym(Symbol.Terminal("PROPERTY"))])]), Sym(Symbol.Terminal("GRAPH"))])] == [Alternative([Opt([Alternative([Sym(Symbol.Terminal("PROPERTY"))])]), Sym(Symbol.Terminal("GRAPH")), Opt([Alternative([Sym(Symbol.Terminal("IF")), Sym(Symbol.Terminal("NOT")), Sym(Symbol.Terminal("EXISTS"))])])]), Alternative([Sym(Symbol.Terminal("OR")), Sym(Symbol.Terminal("REPLACE")), Opt([Alternative([Sym(Symbol.Terminal("PROPERTY"))])]), Sym(Symbol.Terminal("GRAPH"))])]
    ensures ParseAlternatives(ts, 5) == Parsed([Alternative([Opt([Alternative([Sym(Symbol.Terminal("PROPERTY"))])]), Sym(Symbol.Terminal("GRAPH")), Opt([Alternative([Sym(Symbol.Terminal("IF")), Sym(Symbol.Terminal("NOT")), Sym(Symbol.Terminal("EXISTS"))])])]), Alternative([Sym(Symbol.Terminal("OR")), Sym(Symbol.Terminal("REPLACE")), Opt([Alternative([Sym(Symbol.Terminal("PROPERTY"))])]), Sym(Symbol.Terminal("GRAPH"))])], 21)
    ensures ParseElement(ts, 4) == Parsed(Group([Alternative([Opt([Alternative([Sym(Symbol.Terminal("PROPERTY"))])]), Sym(Symbol.Terminal("GRAPH")), Opt([Alternative([Sym(Symbol.Terminal("IF")), Sym(Symbol.Terminal("NOT")), Sym(Symbol.Terminal("EXISTS"))])])]), Alternative([Sym(Symbol.Terminal("OR")), Sym(Symbol.Terminal("REPLACE")), Opt([Alternative([Sym(Symbol.Terminal("PROPERTY"))])]), Sym(Symbol.Terminal("GRAPH"))])]), 22)
    ensures ParseElement(ts, 22) == Parsed(Sym(Symbol.Nonterminal("catalog graph parent and name")), 23)
  {
    Parsed15Step9(ts);
    Parsed15Step14(ts);
  }

  /** Parser results on test_15's text, in evaluation order (part 16). */
  lemma Parsed15Step16(ts: seq<Token>)
    requires |ts| == 31 && ts[0] == BlockEnd && ts[1] == Token.Nonterminal("create graph statement") && ts[2] == Defines && ts[3] == Token.Terminal("CREATE") && ts[4] == LBrace && ts[5] == LBrack && ts[6] == Token.Terminal("PROPERTY") && ts[7] == RBrack && ts[8] == Token.Terminal("GRAPH") && ts[9] == LBrack && ts[10] == Token.Terminal("IF") && ts[11] == Token.Terminal("NOT") && ts[12] == Token.Terminal("EXISTS") && ts[13] == RBrack && ts[14] == Bar && ts[15] == Token.Terminal("OR") && ts[16] == Token.Terminal("REPLACE") && ts[17] == LBrack && ts[18] == Token.Terminal("PROPERTY") && ts[19] == RBrack && ts[20] == Token.Terminal("GRAPH") && ts[21] == RBrace && ts[22] == Token.Nonterminal("catalog graph parent and name") && ts[23] == LBrace && ts[24] == Token.Nonterminal("open graph type") && ts[25] == Bar && ts[26] == Token.Nonterminal("of graph type") && ts[27] == RBrace && ts[28] == LBrack && ts[29] == Token.Nonterminal("graph source") && ts[30] == RBrack
    ensures ParseElement(ts, 24) == Parsed(Sym(Symbol.Nonterminal("open graph type")), 25)
    ensures ParseItems(ts, 25) == Parsed([], 25)
    ensures [Sym(Symbol.Nonterminal("open graph type"))] + [] == [Sym(Symbol.Nonterminal("open graph type"))]
    ensures ParseAlternative(ts, 24) == Parsed(Alternative([Sym(Symbol.Nonterminal("open graph type"))]), 25)
  {
  }

  /** Parser results on test_15's text, in evaluation order (part 17). */
  lemma Parsed15Step17(ts: seq<Token>)
    requires |ts| == 31 && ts[0] == BlockEnd && ts[1] == Token.Nonterminal("create graph statement") && ts[2] == Defines && ts[3] == Token.Terminal("CREATE") && ts[4] == LBrace && ts[5] == LBrack && ts[6] == Token.Terminal("PROPERTY") && ts[7] == RBrack && ts[8] == Token.Terminal("GRAPH") && ts[9] == LBrack && ts[10] == Token.Terminal("IF") && ts[11] == Token.Terminal("NOT") && ts[12] == Token.Terminal("EXISTS") && ts[13] == RBrack && ts[14] == Bar && ts[15] == Token.Terminal("OR") && ts[16] == Token.Terminal("REPLACE") && ts[17] == LBrack && ts[18] == Token.Terminal("PROPERTY") && ts[19] == RBrack && ts[20] == Token.Terminal("GRAPH") && ts[21] == RBrace && ts[22] == Token.Nonterminal("catalog graph parent and name") && ts[23] == LBrace && ts[24] == Token.Nonterminal("open graph type") && ts[25] == Bar && ts[26] == Token.Nonterminal("of graph type") && ts[27] == RBrace && ts[28] == LBrack && ts[29] == Token.Nonterminal("graph source") && ts[30] == RBrack
    ensures ParseElement(ts, 26) == Parsed(Sym(Symbol.Nonterminal("of graph type")), 27)
    ensures ParseItems(ts, 27) == Parsed([], 27)
    ensures [Sym(Symbol.Nonterminal("of graph type"))] + [] == [Sym(Symbol.Nonterminal("of graph type"))]
    ensures ParseAlternative(ts, 26) == Parsed(Alternative([Sym(Symbol.Nonterminal("of graph type"))]), 27)
  {
  }

  /** Parser results on test_15's text, in evaluation order (part 18). */
  lemma Parsed15Step18(ts: seq<Token>)
    requires |ts| == 31 && ts[0] == BlockEnd && ts[1] == Token.Nonterminal("create graph statement") && ts[2] == Defines && ts[3] == Token.Terminal("CREATE") && ts[4] == LBrace && ts[5] == LBrack && ts[6] == Token.Terminal("PROPERTY") && ts[7] == RBrack && ts[8] == Token.Terminal("GRAPH") && ts[9] == LBrack && ts[10] == Token.Terminal("IF") && ts[11] == Token.Terminal("NOT") && ts[12] == Token.Terminal("EXISTS") && ts[13] == RBrack && ts[14] == Bar && ts[15] == Token.Terminal("OR") && ts[16] == Token.Terminal("REPLACE") && ts[17] == LBrack && ts[18] == Token.Terminal("PROPERTY") && ts[19] == RBrack && ts[20] == Token.Terminal("GRAPH") && ts[21] == RBrace && ts[22] == Token.Nonterminal("catalog graph parent and name") && ts[23] == LBrace && ts[24] == Token.Nonterminal("open graph type") && ts[25] == Bar && ts[26] == Token.Nonterminal("of graph type") && ts[27] == RBrace && ts[28] == LBrack && ts[29] == Token.Nonterminal("graph source") && ts[30] == RBrack
    ensures ParseMoreAlternatives(ts, 27) == Parsed([], 27)
    ensures [Alternative([Sym(Symbol.Nonterminal("of graph type"))])] + [] == [Alternative([Sym(Symbol.Nonterminal("of graph type"))])]
    ensures ParseMoreAlternatives(ts, 25) == Parsed([Alternative([Sym(Symbol.Nonterminal("of graph type"))])], 27)
    ensures [Alternative([Sym(Symbol.Nonterminal("open graph type"))])] + [Alternative([Sym(Symbol.Nonterminal("of graph type"))])] == [Alternative([Sym(Symbol.Nonterminal("open graph type"))]), Alternative([Sym(Symbol.Nonterminal("of graph type"))])]
  {
    Parsed15Step17(ts);
  }

  /** Parser results on test_15's text, in evaluation order (part 19). */
  lemma Parsed15Step19(ts: seq<Token>)
    requires |ts| == 31 && ts[0] == BlockEnd && ts[1] == Token.Nonterminal("create graph statement") && ts[2] == Defines && ts[3] == Token.Terminal("CREATE") && ts[4] == LBrace && ts[5] == LBrack && ts[6] == Token.Terminal("PROPERTY") && ts[7] == RBrack && ts[8] == Token.Terminal("GRAPH") && ts[9] == LBrack && ts[10] == Token.Terminal("IF") && ts[11] == Token.Terminal("NOT") && ts[12] == Token.Terminal("EXISTS") && ts[13] == RBrack && ts[14] == Bar && ts[15] == Token.Terminal("OR") && ts[16] == Token.Terminal("REPLACE") && ts[17] == LBrack && ts[18] == Token.Terminal("PROPERTY") && ts[19] == RBrack && ts[20] == Token.Terminal("GRAPH") && ts[21] == RBrace && ts[22] == Token.Nonterminal("catalog graph parent and name") && ts[23] == LBrace && ts[24] == Token.Nonterminal("open graph type") && ts[25] == Bar && ts[26] == Token.Nonterminal("of graph type") && ts[27] == RBrace && ts[28] == LBrack && ts[29] == Token.Nonterminal("graph source") && ts[30] == RBrack
    ensures ParseAlternatives(ts, 24) == Parsed([Alternative([Sym(Symbol.Nonterminal("open graph type"))]), Alternative([Sym(Symbol.Nonterminal("of graph type"))])], 27)
    ensures ParseElement(ts, 23) == Parsed(Group([Alternative([Sym(Symbol.Nonterminal("open graph type"))]), Alternative([Sym(Symbol.Nonterminal("of graph type"))])]), 28)
    ensures ParseElement(ts, 29) == Parsed(Sym(Symbol.Nonterminal("graph source")), 30)
    ensures ParseItems(ts, 30) == Parsed([], 30)
  {
    Parsed15Step16(ts);
    Parsed15Step18(ts);
  }

  /** Parser results on test_15's text, in evaluation order (part 20). */
  lemma Parsed15Step20(ts: seq<Token>)
    requires |ts| == 31 && ts[0] == BlockEnd && ts[1] == Token.Nonterminal("create graph statement") && ts[2] == Defines && ts[3] == Token.Terminal("CREATE") && ts[4] == LBrace && ts[5] == LBrack && ts[6] == Token.Terminal("PROPERTY") && ts[7] == RBrack && ts[8] == Token.Terminal("GRAPH") && ts[9] == LBrack && ts[10] == Token.Terminal("IF") && ts[11] == Token.Terminal("NOT") && ts[12] == Token.Terminal("EXISTS") && ts[13] == RBrack && ts[14] == Bar && ts[15] == Token.Terminal("OR") && ts[16] == Token.Terminal("REPLACE") && ts[17] == LBrack && ts[18] == Token.Terminal("PROPERTY") && ts[19] == RBrack && ts[20] == Token.Terminal("GRAPH") && ts[21] == RBrace && ts[22] == Token.Nonterminal("catalog graph parent and name") && ts[23] == LBrace && ts[24] == Token.Nonterminal("open graph type") && ts[25] == Bar && ts[26] == Token.Nonterminal("of graph type") && ts[27] == RBrace && ts[28] == LBrack && ts[29] == Token.Nonterminal("graph source") && ts[30] == RBrack
    ensures [Sym(Symbol.Nonterminal("graph source"))] + [] == [Sym(Symbol.Nonterminal("graph source"))]
    ensures ParseAlternative(ts, 29) == Parsed(Alternative([Sym(Symbol.Nonterminal("graph source"))]), 30)
    ensures ParseMoreAlternatives(ts, 30) == Parsed([], 30)
    ensures [Alternative([Sym(Symbol.Nonterminal("graph source"))])] + [] == [Alternative([Sym(Symbol.Nonterminal("graph source"))])]
  {
    Parsed15Step19(ts);
  }

  /** Parser results on test_15's text, in evaluation order (part 21). */
  lemma Parsed15Step21(ts: seq<Token>)
    requires |ts| == 31 && ts[0] == BlockEnd && ts[1] == Token.Nonterminal("create graph statement") && ts[2] == Defines && ts[3] == Token.Terminal("CREATE") && ts[4] == LBrace && ts[5] == LBrack && ts[6] == Token.Terminal("PROPERTY") && ts[7] == RBrack && ts[8] == Token.Terminal("GRAPH") && ts[9] == LBrack && ts[10] == Token.Terminal("IF") && ts[11] == Token.Terminal("NOT") && ts[12] == Token.Terminal("EXISTS") && ts[13] == RBrack && ts[14] == Bar && ts[15] == Token.Terminal("OR") && ts[16] == Token.Terminal("REPLACE") && ts[17] == LBrack && ts[18] == Token.Terminal("PROPERTY") && ts[19] == RBrack && ts[20] == Token.Terminal("GRAPH") && ts[21] == RBrace && ts[22] == Token.Nonterminal("catalog graph parent and name") && ts[23] == LBrace && ts[24] == Token.Nonterminal("open graph type") && ts[25] == Bar && ts[26] == Token.Nonterminal("of graph type") && ts[27] == RBrace && ts[28] == LBrack && ts[29] == Token.Nonterminal("graph source") && ts[30] == RBrack
    ensures ParseAlternatives(ts, 29) == Parsed([Alternative([Sym(Symbol.Nonterminal("graph source"))])], 30)
    ensures ParseElement(ts, 28) == Parsed(Opt([Alternative([Sym(Symbol.Nonterminal("graph source"))])]), 31)
    ensures ParseItems(ts, 31) == Parsed([], 31)
    ensures [Opt([Alternative([Sym(Symbol.Nonterminal("graph source"))])])] + [] == [Opt([Alternative([Sym(Symbol.Nonterminal("graph source"))])])]
  {
    Parsed15Step20(ts);
  }

  /** Parser results on test_15's text, in evaluation order (part 22). */
  lemma Parsed15Step22(ts: seq<Token>)
    requires |ts| == 31 && ts[0] == BlockEnd && ts[1] == Token.Nonterminal("create graph statement") && ts[2] == Defines && ts[3] == Token.Terminal("CREATE") && ts[4] == LBrace && ts[5] == LBrack && ts[6] == Token.Terminal("PROPERTY") && ts[7] == RBrack && ts[8] == Token.Terminal("GRAPH") && ts[9] == LBrack && ts[10] == Token.Terminal("IF") && ts[11] == Token.Terminal("NOT") && ts[12] == Token.Terminal("EXISTS") && ts[13] == RBrack && ts[14] == Bar && ts[15] == Token.Terminal("OR") && ts[16] == Token.Terminal("REPLACE") && ts[17] == LBrack && ts[18] == Token.Terminal("PROPERTY") && ts[19] == RBrack && ts[20] == Token.Terminal("GRAPH") && ts[21] == RBrace && ts[22] == Token.Nonterminal("catalog graph parent and name") && ts[23] == LBrace && ts[24] == Token.Nonterminal("open graph type") && ts[25] == Bar && ts[26] == Token.Nonterminal("of graph type") && ts[27] == RBrace && ts[28] == LBrack && ts[29] == Token.Nonterminal("graph source") && ts[30] == RBrack
    ensures ParseItems(ts, 28) == Parsed([Opt([Alternative([Sym(Symbol.Nonterminal("graph source"))])])], 31)
    ensures [Group([Alternative([Sym(Symbol.Nonterminal("open graph type"))]), Alternative([Sym(Symbol.Nonterminal("of graph type"))])])] + [Opt([Alternative([Sym(Symbol.Nonterminal("graph source"))])])] == [Group([Alternative([Sym(Symbol.Nonterminal("open graph type"))]), Alternative([Sym(Symbol.Nonterminal("of graph type"))])]), Opt([Alternative([Sym(Symbol.Nonterminal("graph source"))])])]
    ensures ParseItems(ts, 23) == Parsed([Group([Alternative([Sym(Symbol.Nonterminal("open graph type"))]), Alternative([Sym(Symbol.Nonterminal("of graph type"))])]), Opt([Alternative([Sym(Symbol.Nonterminal("graph source"))])])], 31)
    ensures [Sym(Symbol.Nonterminal("catalog graph parent and name"))] + [Group([Alternative([Sym(Symbol.Nonterminal("open graph type"))]), Alternative([Sym(Symbol.Nonterminal("of graph type"))])]), Opt([Alternative([Sym(Symbol.Nonterminal("graph source"))])])] == [Sym(Symbol.Nonterminal("catalog graph parent and name")), Group([Alternative([Sym(Symbol.Nonterminal("open graph type"))]), Alternative([Sym(Symbol.Nonterminal("of graph type"))])]), Opt([Alternative([Sym(Symbol.Nonterminal("graph source"))])])]
  {
    Parsed15Step19(ts);
    Parsed15Step21(ts);
  }

  /** Parser results on test_15's text, in evaluation order (part 23). */
  lemma Parsed15Step23(ts: seq<Token>)
    requires |ts| == 31 && ts[0] == BlockEnd && ts[1] == Token.Nonterminal("create graph statement") && ts[2] == Defines && ts[3] == Token.Terminal("CREATE") && ts[4] == LBrace && ts[5] == LBrack && ts[6] == Token.Terminal("PROPERTY") && ts[7] == RBrack && ts[8] == Token.Terminal("GRAPH") && ts[9] == LBrack && ts[10] == Token.Terminal("IF") && ts[11] == Token.Terminal("NOT") && ts[12] == Token.Terminal("EXISTS") && ts[13] == RBrack && ts[14] == Bar && ts[15] == Token.Terminal("OR") && ts[16] == Token.Terminal("REPLACE") && ts[17] == LBrack && ts[18] == Token.Terminal("PROPERTY") && ts[19] == RBrack && ts[20] == Token.Terminal("GRAPH") && ts[21] == RBrace && ts[22] == Token.Nonterminal("catalog graph parent and name") && ts[23] == LBrace && ts[24] == Token.Nonterminal("open graph type") && ts[25] == Bar && ts[26] == Token.Nonterminal("of graph type") && ts[27] == RBrace && ts[28] == LBrack && ts[29] == Token.Nonterminal("graph source") && ts[30] == RBrack
    ensures ParseItems(ts, 22) == Parsed([Sym(Symbol.Nonterminal("catalog graph parent and name")), Group([Alternative([Sym(Symbol.Nonterminal("open graph type"))]), Alternative([Sym(Symbol.Nonterminal("of graph type"))])]), Opt([Alternative([Sym(Symbol.Nonterminal("graph source"))])])], 31)
    ensures [Group([Alternative([Opt([Alternative([Sym(Symbol.Terminal("PROPERTY"))])]), Sym(Symbol.Terminal("GRAPH")), Opt([Alternative([Sym(Symbol.Terminal("IF")), Sym(Symbol.Terminal("NOT")), Sym(Symbol.Terminal("EXISTS"))])])]), Alternative([Sym(Symbol.Terminal("OR")), Sym(Symbol.Terminal("REPLACE")), Opt([Alternative([Sym(Symbol.Terminal("PROPERTY"))])]), Sym(Symbol.Terminal("GRAPH"))])])] + [Sym(Symbol.Nonterminal("catalog graph parent and name")), Group([Alternative([Sym(Symbol.Nonterminal("open graph type"))]), Alternative([Sym(Symbol.Nonterminal("of graph type"))])]), Opt([Alternative([Sym(Symbol.Nonterminal("graph source"))])])] == [Group([Alternative([Opt([Alternative([Sym(Symbol.Terminal("PROPERTY"))])]), Sym(Symbol.Terminal("GRAPH")), Opt([Alternative([Sym(Symbol.Terminal("IF")), Sym(Symbol.Terminal("NOT")), Sym(Symbol.Terminal("EXISTS"))])])]), Alternative([Sym(Symbol.Terminal("OR")), Sym(Symbol.Terminal("REPLACE")), Opt([Alternative([Sym(Symbol.Terminal("PROPERTY"))])]), Sym(Symbol.Terminal("GRAPH"))])]), Sym(Symbol.Nonterminal("catalog graph parent and name")), Group([Alternative([Sym(Symbol.Nonterminal("open graph type"))]), Alternative([Sym(Symbol.Nonterminal("of graph type"))])]), Opt([Alternative([Sym(Symbol.Nonterminal("graph source"))])])]
    ensures ParseItems(ts, 4) == Parsed([Group([Alternative([Opt([Alternative([Sym(Symbol.Terminal("PROPERTY"))])]), Sym(Symbol.Terminal("GRAPH")), Opt([Alternative([Sym(Symbol.Terminal("IF")), Sym(Symbol.Terminal("NOT")), Sym(Symbol.Terminal("EXISTS"))])])]), Alternative([Sym(Symbol.Terminal("OR")), Sym(Symbol.Terminal("REPLACE")), Opt([Alternative([Sym(Symbol.Terminal("PROPERTY"))])]), Sym(Symbol.Terminal("GRAPH"))])]), Sym(Symbol.Nonterminal("catalog graph parent and name")), Group([Alternative([Sym(Symbol.Nonterminal("open graph type"))]), Alternative([Sym(Symbol.Nonterminal("of graph type"))])]), Opt([Alternative([Sym(Symbol.Nonterminal("graph source"))])])], 31)
    ensures [Sym(Symbol.Terminal("CREATE"))] + [Group([Alternative([Opt([Alternative([Sym(Symbol.Terminal("PROPERTY"))])]), Sym(Symbol.Terminal("GRAPH")), Opt([Alternative([Sym(Symbol.Terminal("IF")), Sym(Symbol.Terminal("NOT")), Sym(Symbol.Terminal("EXISTS"))])])]), Alternative([Sym(Symbol.Terminal("OR")), Sym(Symbol.Terminal("REPLACE")), Opt([Alternative([Sym(Symbol.Terminal("PROPERTY"))])]), Sym(Symbol.Terminal("GRAPH"))])]), Sym(Symbol.Nonterminal("catalog graph parent and name")), Group([Alternative([Sym(Symbol.Nonterminal("open graph type"))]), Alternative([Sym(Symbol.Nonterminal("of graph type"))])]), Opt([Alternative([Sym(Symbol.Nonterminal("graph source"))])])] == [Sym(Symbol.Terminal("CREATE")), Group([Alternative([Opt([Alternative([Sym(Symbol.Terminal("PROPERTY"))])]), Sym(Symbol.Terminal("GRAPH")), Opt([Alternative([Sym(Symbol.Terminal("IF")), Sym(Symbol.Terminal("NOT")), Sym(Symbol.Terminal("EXISTS"))])])]), Alternative([Sym(Symbol.Terminal("OR")), Sym(Symbol.Terminal("REPLACE")), Opt([Alternative([Sym(Symbol.Terminal("PROPERTY"))])]), Sym(Symbol.Terminal("GRAPH"))])]), Sym(Symbol.Nonterminal("catalog graph parent and name")), Group([Alternative([Sym(Symbol.Nonterminal("open graph type"))]), Alternative([Sym(Symbol.Nonterminal("of graph type"))])]), Opt([Alternative([Sym(Symbol.Nonterminal("graph source"))])])]
  {
    Parsed15Step15(ts);
    Parsed15Step22(ts);
  }

  /** Parser results on test_15's text, in evaluation order (part 24). */
  lemma Parsed15Step24(ts: seq<Token>)
    requires |ts| == 31 && ts[0] == BlockEnd && ts[1] == Token.Nonterminal("create graph statement") && ts[2] == Defines && ts[3] == Token.Terminal("CREATE") && ts[4] == LBrace && ts[5] == LBrack && ts[6] == Token.Terminal("PROPERTY") && ts[7] == RBrack && ts[8] == Token.Terminal("GRAPH") && ts[9] == LBrack && ts[10] == Token.Terminal("IF") && ts[11] == Token.Terminal("NOT") && ts[12] == Token.Terminal("EXISTS") && ts[13] == RBrack && ts[14] == Bar && ts[15] == Token.Terminal("OR") && ts[16] == Token.Terminal("REPLACE") && ts[17] == LBrack && ts[18] == Token.Terminal("PROPERTY") && ts[19] == RBrack && ts[20] == Token.Terminal("GRAPH") && ts[21] == RBrace && ts[22] == Token.Nonterminal("catalog graph parent and name") && ts[23] == LBrace && ts[24] == Token.Nonterminal("open graph type") && ts[25] == Bar && ts[26] == Token.Nonterminal("of graph type") && ts[27] == RBrace && ts[28] == LBrack && ts[29] == Token.Nonterminal("graph source") && ts[30] == RBrack
    ensures ParseAlternative(ts, 3) == Parsed(Alternative([Sym(Symbol.Terminal("CREATE")), Group([Alternative([Opt([Alternative([Sym(Symbol.Terminal("PROPERTY"))])]), Sym(Symbol.Terminal("GRAPH")), Opt([Alternative([Sym(Symbol.Terminal("IF")), Sym(Symbol.Terminal("NOT")), Sym(Symbol.Terminal("EXISTS"))])])]), Alternative([Sym(Symbol.Terminal("OR")), Sym(Symbol.Terminal("REPLACE")), Opt([Alternative([Sym(Symbol.Terminal("PROPERTY"))])]), Sym(Symbol.Terminal("GRAPH"))])]), Sym(Symbol.Nonterminal("catalog graph parent and name")), Group([Alternative([Sym(Symbol.Nonterminal("open graph type"))]), Alternative([Sym(Symbol.Nonterminal("of graph type"))])]), Opt([Alternative([Sym(Symbol.Nonterminal("graph source"))])])]), 31)
    ensures ParseMoreAlternatives(ts, 31) == Parsed([], 31)
    ensures [Alternative([Sym(Symbol.Terminal("CREATE")), Group([Alternative([Opt([Alternative([Sym(Symbol.Terminal("PROPERTY"))])]), Sym(Symbol.Terminal("GRAPH")), Opt([Alternative([Sym(Symbol.Terminal("IF")), Sym(Symbol.Terminal("NOT")), Sym(Symbol.Terminal("EXISTS"))])])]), Alternative([Sym(Symbol.Terminal("OR")), Sym(Symbol.Terminal("REPLACE")), Opt([Alternative([Sym(Symbol.Terminal("PROPERTY"))])]), Sym(Symbol.Terminal("GRAPH"))])]), Sym(Symbol.Nonterminal("catalog graph parent and name")), Group([Alternative([Sym(Symbol.Nonterminal("open graph type"))]), Alternative([Sym(Symbol.Nonterminal("of graph type"))])]), Opt([Alternative([Sym(Symbol.Nonterminal("graph source"))])])])] + [] == [Alternative([Sym(Symbol.Terminal("CREATE")), Group([Alternative([Opt([Alternative([Sym(Symbol.Terminal("PROPERTY"))])]), Sym(Symbol.Terminal("GRAPH")), Opt([Alternative([Sym(Symbol.Terminal("IF")), Sym(Symbol.Terminal("NOT")), Sym(Symbol.Terminal("EXISTS"))])])]), Alternative([Sym(Symbol.Terminal("OR")), Sym(Symbol.Terminal("REPLACE")), Opt([Alternative([Sym(Symbol.Terminal("PROPERTY"))])]), Sym(Symbol.Terminal("GRAPH"))])]), Sym(Symbol.Nonterminal("catalog graph parent and name")), Group([Alternative([Sym(Symbol.Nonterminal("open graph type"))]), Alternative([Sym(Symbol.Nonterminal("of graph type"))])]), Opt([Alternative([Sym(Symbol.Nonterminal("graph source"))])])])]
    ensures ParseAlternatives(ts, 3) == Parsed([Alternative([Sym(Symbol.Terminal("CREATE")), Group([Alternative([Opt([Alternative([Sym(Symbol.Terminal("PROPERTY"))])]), Sym(Symbol.Terminal("GRAPH")), Opt([Alternative([Sym(Symbol.Terminal("IF")), Sym(Symbol.Terminal("NOT")), Sym(Symbol.Terminal("EXISTS"))])])]), Alternative([Sym(Symbol.Terminal("OR")), Sym(Symbol.Terminal("REPLACE")), Opt([Alternative([Sym(Symbol.Terminal("PROPERTY"))])]), Sym(Symbol.Terminal("GRAPH"))])]), Sym(Symbol.Nonterminal("catalog graph parent and name")), Group([Alternative([Sym(Symbol.Nonterminal("open graph type"))]), Alternative([Sym(Symbol.Nonterminal("of graph type"))])]), Opt([Alternative([Sym(Symbol.Nonterminal("graph source"))])])])], 31)
  {
    Parsed15Step1(ts);
    Parsed15Step23(ts);
  }

  /** Parser results on test_15's text, in evaluation order (part 25). */
  lemma Parsed15Step25(ts: seq<Token>)
    requires |ts| == 31 && ts[0] == BlockEnd && ts[1] == Token.Nonterminal("create graph statement") && ts[2] == Defines && ts[3] == Token.Terminal("CREATE") && ts[4] == LBrace && ts[5] == LBrack && ts[6] == Token.Terminal("PROPERTY") && ts[7] == RBrack && ts[8] == Token.Terminal("GRAPH") && ts[9] == LBrack && ts[10] == Token.Terminal("IF") && ts[11] == Token.Terminal("NOT") && ts[12] == Token.Terminal("EXISTS") && ts[13] == RBrack && ts[14] == Bar && ts[15] == Token.Terminal("OR") && ts[16] == Token.Terminal("REPLACE") && ts[17] == LBrack && ts[18] == Token.Terminal("PROPERTY") && ts[19] == RBrack && ts[20] == Token.Terminal("GRAPH") && ts[21] == RBrace && ts[22] == Token.Nonterminal("catalog graph parent and name") && ts[23] == LBrace && ts[24] == Token.Nonterminal("open graph type") && ts[25] == Bar && ts[26] == Token.Nonterminal("of graph type") && ts[27] == RBrace && ts[28] == LBrack && ts[29] == Token.Nonterminal("graph source") && ts[30] == RBrack
    ensures ParseRuleBody(ts, 3) == Parsed([Alternative([Sym(Symbol.Terminal("CREATE")), Group([Alternative([Opt([Alternative([Sym(Symbol.Terminal("PROPERTY"))])]), Sym(Symbol.Terminal("GRAPH")), Opt([Alternative([Sym(Symbol.Terminal("IF")), Sym(Symbol.Terminal("NOT")), Sym(Symbol.Terminal("EXISTS"))])])]), Alternative([Sym(Symbol.Terminal("OR")), Sym(Symbol.Terminal("REPLACE")), Opt([Alternative([Sym(Symbol.Terminal("PROPERTY"))])]), Sym(Symbol.Terminal("GRAPH"))])]), Sym(Symbol.Nonterminal("catalog graph parent and name")), Group([Alternative([Sym(Symbol.Nonterminal("open graph type"))]), Alternative([Sym(Symbol.Nonterminal("of graph type"))])]), Opt([Alternative([Sym(Symbol.Nonterminal("graph source"))])])])], 31)
    ensures ParseRule(ts, 1) == Parsed(Rule("create graph statement", [Alternative([Sym(Symbol.Terminal("CREATE")), Group([Alternative([Opt([Alternative([Sym(Symbol.Terminal("PROPERTY"))])]), Sym(Symbol.Terminal("GRAPH")), Opt([Alternative([Sym(Symbol.Terminal("IF")), Sym(Symbol.Terminal("NOT")), Sym(Symbol.Terminal("EXISTS"))])])]), Alternative([Sym(Symbol.Terminal("OR")), Sym(Symbol.Terminal("REPLACE")), Opt([Alternative([Sym(Symbol.Terminal("PROPERTY"))])]), Sym(Symbol.Terminal("GRAPH"))])]), Sym(Symbol.Nonterminal("catalog graph parent and name")), Group([Alternative([Sym(Symbol.Nonterminal("open graph type"))]), Alternative([Sym(Symbol.Nonterminal("of graph type"))])]), Opt([Alternative([Sym(Symbol.Nonterminal("graph source"))])])])]), 31)
    ensures ParseRules(ts, 1) == Some([Rule("create graph statement", [Alternative([Sym(Symbol.Terminal("CREATE")), Group([Alternative([Opt([Alternative([Sym(Symbol.Terminal("PROPERTY"))])]), Sym(Symbol.Terminal("GRAPH")), Opt([Alternative([Sym(Symbol.Terminal("IF")), Sym(Symbol.Terminal("NOT")), Sym(Symbol.Terminal("EXISTS"))])])]), Alternative([Sym(Symbol.Terminal("OR")), Sym(Symbol.Terminal("REPLACE")), Opt([Alternative([Sym(Symbol.Terminal("PROPERTY"))])]), Sym(Symbol.Terminal("GRAPH"))])]), Sym(Symbol.Nonterminal("catalog graph parent and name")), Group([Alternative([Sym(Symbol.Nonterminal("open graph type"))]), Alternative([Sym(Symbol.Nonterminal("of graph type"))])]), Opt([Alternative([Sym(Symbol.Nonterminal("graph source"))])])])])])
  {
    Parsed15Step24(ts);
  }

  /** The rule blocks test_15's text parses to. */
  lemma Parsed15()
    ensures Parse(Text15) == Some([Rule("create graph statement", [Alternative([Sym(Symbol.Terminal("CREATE")), Group([Alternative([Opt([Alternative([Sym(Symbol.Terminal("PROPERTY"))])]), Sym(Symbol.Terminal("GRAPH")), Opt([Alternative([Sym(Symbol.Terminal("IF")), Sym(Symbol.Terminal("NOT")), Sym(Symbol.Terminal("EXISTS"))])])]), Alternative([Sym(Symbol.Terminal("OR")), Sym(Symbol.Terminal("REPLACE")), Opt([Alternative([Sym(Symbol.Terminal("PROPERTY"))])]), Sym(Symbol.Terminal("GRAPH"))])]), Sym(Symbol.Nonterminal("catalog graph parent and name")), Group([Alternative([Sym(Symbol.Nonterminal("open graph type"))]), Alternative([Sym(Symbol.Nonterminal("of graph type"))])]), Opt([Alternative([Sym(Symbol.Nonterminal("graph source"))])])])])])
  {
    Text15Tokens1();
    Text15Tokens2();
    Text15Tokens3();
    Text15Tokens4();
    Text15Tokens5();
    Text15Tokens6();
    Text15Tokens7();
    Text15Tokens8();
    Parsed15Step1(Text15);
    Parsed15Step2(Text15);
    Parsed15Step3(Text15);
    Parsed15Step4(Text15);
    Parsed15Step5(Text15);
    Parsed15Step6(Text15);
    Parsed15Step7(Text15);
    Parsed15Step8(Text15);
    Parsed15Step9(Text15);
    Parsed15Step10(Text15);
    Parsed15Step11(Text15);
    Parsed15Step12(Text15);
    Parsed15Step13(Text15);
    Parsed15Step14(Text15);
    Parsed15Step15(Text15);
    Parsed15Step16(Text15);
    Parsed15Step17(Text15);
    Parsed15Step18(Text15);
    Parsed15Step19(Text15);
    Parsed15Step20(Text15);
    Parsed15Step21(Text15);
    Parsed15Step22(Text15);
    Parsed15Step23(Text15);
    Parsed15Step24(Text15);
    Parsed15Step25(Text15);
  }

  /** test_15, block 1: its alternatives merged into its entry. */
  lemma Test15Block1Merge()
    ensures var w: Grammar := map[]; w["create_graph_statement" := Lookup(w, "create_graph_statement") + {["CREATE", "PROPERTY", "GRAPH", "IF", "NOT", "EXISTS", "catalog_graph_parent_and_name", "open_graph_type", "graph_source"], ["CREATE", "PROPERTY", "GRAPH", "IF", "NOT", "EXISTS", "catalog_graph_parent_and_name", "open_graph_type"], ["CREATE", "PROPERTY", "GRAPH", "IF", "NOT", "EXISTS", "catalog_graph_parent_and_name", "of_graph_type", "graph_source"], ["CREATE", "PROPERTY", "GRAPH", "IF", "NOT", "EXISTS", "catalog_graph_parent_and_name", "of_graph_type"], ["CREATE", "PROPERTY", "GRAPH", "catalog_graph_parent_and_name", "open_graph_type", "graph_source"], ["CREATE", "PROPERTY", "GRAPH", "catalog_graph_parent_and_name", "open_graph_type"], ["CREATE", "PROPERTY", "GRAPH", "catalog_graph_parent_and_name", "of_graph_type", "graph_source"], ["CREATE", "PROPERTY", "GRAPH", "catalog_graph_parent_and_name", "of_graph_type"], ["CREATE", "GRAPH", "IF", "NOT", "EXISTS", "catalog_graph_parent_and_name", "open_graph_type", "graph_source"], ["CREATE", "GRAPH", "IF", "NOT", "EXISTS", "catalog_graph_parent_and_name", "open_graph_type"], ["CREATE", "GRAPH", "IF", "NOT", "EXISTS", "catalog_graph_parent_and_name", "of_graph_type", "graph_source"], ["CREATE", "GRAPH", "IF", "NOT", "EXISTS", "catalog_graph_parent_and_name", "of_graph_type"], ["CREATE", "GRAPH", "catalog_graph_parent_and_name", "open_graph_type", "graph_source"], ["CREATE", "GRAPH", "catalog_graph_parent_and_name", "open_graph_type"], ["CREATE", "GRAPH", "catalog_graph_parent_and_name", "of_graph_type", "graph_source"], ["CREATE", "GRAPH", "catalog_graph_parent_and_name", "of_graph_type"], ["CREATE", "OR", "REPLACE", "PROPERTY", "GRAPH", "catalog_graph_parent_and_name", "open_graph_type", "graph_source"], ["CREATE", "OR", "REPLACE", "PROPERTY", "GRAPH", "catalog_graph_parent_and_name", "open_graph_type"], ["CREATE", "OR", "REPLACE", "PROPERTY", "GRAPH", "catalog_graph_parent_and_name", "of_graph_type", "graph_source"], ["CREATE", "OR", "REPLACE", "PROPERTY", "GRAPH", "catalog_graph_parent_and_name", "of_graph_type"], ["CREATE", "OR", "REPLACE", "GRAPH", "catalog_graph_parent_and_name", "open_graph_type", "graph_source"], ["CREATE", "OR", "REPLACE", "GRAPH", "catalog_graph_parent_and_name", "open_graph_type"], ["CREATE", "OR", "REPLACE", "GRAPH", "catalog_graph_parent_and_name", "of_graph_type", "graph_source"], ["CREATE", "OR", "REPLACE", "GRAPH", "catalog_graph_parent_and_name", "of_graph_type"]}] == map["create_graph_statement" := {["CREATE", "PROPERTY", "GRAPH", "IF", "NOT", "EXISTS", "catalog_graph_parent_and_name", "open_graph_type", "graph_source"], ["CREATE", "PROPERTY", "GRAPH", "IF", "NOT", "EXISTS", "catalog_graph_parent_and_name", "open_graph_type"], ["CREATE", "PROPERTY", "GRAPH", "IF", "NOT", "EXISTS", "catalog_graph_parent_and_name", "of_graph_type", "graph_source"], ["CREATE", "PROPERTY", "GRAPH", "IF", "NOT", "EXISTS", "catalog_graph_parent_and_name", "of_graph_type"], ["CREATE", "PROPERTY", "GRAPH", "catalog_graph_parent_and_name", "open_graph_type", "graph_source"], ["CREATE", "PROPERTY", "GRAPH", "catalog_graph_parent_and_name", "open_graph_type"], ["CREATE", "PROPERTY", "GRAPH", "catalog_graph_parent_and_name", "of_graph_type", "graph_source"], ["CREATE", "PROPERTY", "GRAPH", "catalog_graph_parent_and_name", "of_graph_type"], ["CREATE", "GRAPH", "IF", "NOT", "EXISTS", "catalog_graph_parent_and_name", "open_graph_type", "graph_source"], ["CREATE", "GRAPH", "IF", "NOT", "EXISTS", "catalog_graph_parent_and_name", "open_graph_type"], ["CREATE", "GRAPH", "IF", "NOT", "EXISTS", "catalog_graph_parent_and_name", "of_graph_type", "graph_source"], ["CREATE", "GRAPH", "IF", "NOT", "EXISTS", "catalog_graph_parent_and_name", "of_graph_type"], ["CREATE", "GRAPH", "catalog_graph_parent_and_name", "open_graph_type", "graph_source"], ["CREATE", "GRAPH", "catalog_graph_parent_and_name", "open_graph_type"], ["CREATE", "GRAPH", "catalog_graph_parent_and_name", "of_graph_type", "graph_source"], ["CREATE", "GRAPH", "catalog_graph_parent_and_name", "of_graph_type"], ["CREATE", "OR", "REPLACE", "PROPERTY", "GRAPH", "catalog_graph_parent_and_name", "open_graph_type", "graph_source"], ["CREATE", "OR", "REPLACE", "PROPERTY", "GRAPH", "catalog_graph_parent_and_name", "open_graph_type"], ["CREATE", "OR", "REPLACE", "PROPERTY", "GRAPH", "catalog_graph_parent_and_name", "of_graph_type", "graph_source"], ["CREATE", "OR", "REPLACE", "PROPERTY", "GRAPH", "catalog_graph_parent_and_name", "of_graph_type"], ["CREATE", "OR", "REPLACE", "GRAPH", "catalog_graph_parent_and_name", "open_graph_type", "graph_source"], ["CREATE", "OR", "REPLACE", "GRAPH", "catalog_graph_parent_and_name", "open_graph_type"], ["CREATE", "OR", "REPLACE", "GRAPH", "catalog_graph_parent_and_name", "of_graph_type", "graph_source"], ["CREATE", "OR", "REPLACE", "GRAPH", "catalog_graph_parent_and_name", "of_graph_type"]}]
  {
    var w: Grammar := map[];
    assert Lookup(w, "create_graph_statement") == {};
    assert {} + {["CREATE", "PROPERTY", "GRAPH", "IF", "NOT", "EXISTS", "catalog_graph_parent_and_name", "open_graph_type", "graph_source"], ["CREATE", "PROPERTY", "GRAPH", "IF", "NOT", "EXISTS", "catalog_graph_parent_and_name", "open_graph_type"], ["CREATE", "PROPERTY", "GRAPH", "IF", "NOT", "EXISTS", "catalog_graph_parent_and_name", "of_graph_type", "graph_source"], ["CREATE", "PROPERTY", "GRAPH", "IF", "NOT", "EXISTS", "catalog_graph_parent_and_name", "of_graph_type"], ["CREATE", "PROPERTY", "GRAPH", "catalog_graph_parent_and_name", "open_graph_type", "graph_source"], ["CREATE", "PROPERTY", "GRAPH", "catalog_graph_parent_and_name", "open_graph_type"], ["CREATE", "PROPERTY", "GRAPH", "catalog_graph_parent_and_name", "of_graph_type", "graph_source"], ["CREATE", "PROPERTY", "GRAPH", "catalog_graph_parent_and_name", "of_graph_type"], ["CREATE", "GRAPH", "IF", "NOT", "EXISTS", "catalog_graph_parent_and_name", "open_graph_type", "graph_source"], ["CREATE", "GRAPH", "IF", "NOT", "EXISTS", "catalog_graph_parent_and_name", "open_graph_type"], ["CREATE", "GRAPH", "IF", "NOT", "EXISTS", "catalog_graph_parent_and_name", "of_graph_type", "graph_source"], ["CREATE", "GRAPH", "IF", "NOT", "EXISTS", "catalog_graph_parent_and_name", "of_graph_type"], ["CREATE", "GRAPH", "catalog_graph_parent_and_name", "open_graph_type", "graph_source"], ["CREATE", "GRAPH", "catalog_graph_parent_and_name", "open_graph_type"], ["CREATE", "GRAPH", "catalog_graph_parent_and_name", "of_graph_type", "graph_source"], ["CREATE", "GRAPH", "catalog_graph_parent_and_name", "of_graph_type"], ["CREATE", "OR", "REPLACE", "PROPERTY", "GRAPH", "catalog_graph_parent_and_name", "open_graph_type", "graph_source"], ["CREATE", "OR", "REPLACE", "PROPERTY", "GRAPH", "catalog_graph_parent_and_name", "open_graph_type"], ["CREATE", "OR", "REPLACE", "PROPERTY", "GRAPH", "catalog_graph_parent_and_name", "of_graph_type", "graph_source"], ["CREATE", "OR", "REPLACE", "PROPERTY", "GRAPH", "catalog_graph_parent_and_name", "of_graph_type"], ["CREATE", "OR", "REPLACE", "GRAPH", "catalog_graph_parent_and_name", "open_graph_type", "graph_source"], ["CREATE", "OR", "REPLACE", "GRAPH", "catalog_graph_parent_and_name", "open_graph_type"], ["CREATE", "OR", "REPLACE", "GRAPH", "catalog_graph_parent_and_name", "of_graph_type", "graph_source"], ["CREATE", "OR", "REPLACE", "GRAPH", "catalog_graph_parent_and_name", "of_graph_type"]} == {["CREATE", "PROPERTY", "GRAPH", "IF", "NOT", "EXISTS", "catalog_graph_parent_and_name", "open_graph_type", "graph_source"], ["CREATE", "PROPERTY", "GRAPH", "IF", "NOT", "EXISTS", "catalog_graph_parent_and_name", "open_graph_type"], ["CREATE", "PROPERTY", "GRAPH", "IF", "NOT", "EXISTS", "catalog_graph_parent_and_name", "of_graph_type", "graph_source"], ["CREATE", "PROPERTY", "GRAPH", "IF", "NOT", "EXISTS", "catalog_graph_parent_and_name", "of_graph_type"], ["CREATE", "PROPERTY", "GRAPH", "catalog_graph_parent_and_name", "open_graph_type", "graph_source"], ["CREATE", "PROPERTY", "GRAPH", "catalog_graph_parent_and_name", "open_graph_type"], ["CREATE", "PROPERTY", "GRAPH", "catalog_graph_parent_and_name", "of_graph_type", "graph_source"], ["CREATE", "PROPERTY", "GRAPH", "catalog_graph_parent_and_name", "of_graph_type"], ["CREATE", "GRAPH", "IF", "NOT", "EXISTS", "catalog_graph_parent_and_name", "open_graph_type", "graph_source"], ["CREATE", "GRAPH", "IF", "NOT", "EXISTS", "catalog_graph_parent_and_name", "open_graph_type"], ["CREATE", "GRAPH", "IF", "NOT", "EXISTS", "catalog_graph_parent_and_name", "of_graph_type", "graph_source"], ["CREATE", "GRAPH", "IF", "NOT", "EXISTS", "catalog_graph_parent_and_name", "of_graph_type"], ["CREATE", "GRAPH", "catalog_graph_parent_and_name", "open_graph_type", "graph_source"], ["CREATE", "GRAPH", "catalog_graph_parent_and_name", "open_graph_type"], ["CREATE", "GRAPH", "catalog_graph_parent_and_name", "of_graph_type", "graph_source"], ["CREATE", "GRAPH", "catalog_graph_parent_and_name", "of_graph_type"], ["CREATE", "OR", "REPLACE", "PROPERTY", "GRAPH", "catalog_graph_parent_and_name", "open_graph_type", "graph_source"], ["CREATE", "OR", "REPLACE", "PROPERTY", "GRAPH", "catalog_graph_parent_and_name", "open_graph_type"], ["CREATE", "OR", "REPLACE", "PROPERTY", "GRAPH", "catalog_graph_parent_and_name", "of_graph_type", "graph_source"], ["CREATE", "OR", "REPLACE", "PROPERTY", "GRAPH", "catalog_graph_parent_and_name", "of_graph_type"], ["CREATE", "OR", "REPLACE", "GRAPH", "catalog_graph_parent_and_name", "open_graph_type", "graph_source"], ["CREATE", "OR", "REPLACE", "GRAPH", "catalog_graph_parent_and_name", "open_graph_type"], ["CREATE", "OR", "REPLACE", "GRAPH", "catalog_graph_parent_and_name", "of_graph_type", "graph_source"], ["CREATE", "OR", "REPLACE", "GRAPH", "catalog_graph_parent_and_name", "of_graph_type"]};
  }

  /** test_15: the map after block 1. */
  lemma Test15Block1()
    ensures ApplyRules(map[], [Rule("create graph statement", [Alternative([Sym(Symbol.Terminal("CREATE")), Group([Alternative([Opt([Alternative([Sym(Symbol.Terminal("PROPERTY"))])]), Sym(Symbol.Terminal("GRAPH")), Opt([Alternative([Sym(Symbol.Terminal("IF")), Sym(Symbol.Terminal("NOT")), Sym(Symbol.Terminal("EXISTS"))])])]), Alternative([Sym(Symbol.Terminal("OR")), Sym(Symbol.Terminal("REPLACE")), Opt([Alternative([Sym(Symbol.Terminal("PROPERTY"))])]), Sym(Symbol.Terminal("GRAPH"))])]), Sym(Symbol.Nonterminal("catalog graph parent and name")), Group([Alternative([Sym(Symbol.Nonterminal("open graph type"))]), Alternative([Sym(Symbol.Nonterminal("of graph type"))])]), Opt([Alternative([Sym(Symbol.Nonterminal("graph source"))])])])])]) == map["create_graph_statement" := {["CREATE", "PROPERTY", "GRAPH", "IF", "NOT", "EXISTS", "catalog_graph_parent_and_name", "open_graph_type", "graph_source"], ["CREATE", "PROPERTY", "GRAPH", "IF", "NOT", "EXISTS", "catalog_graph_parent_and_name", "open_graph_type"], ["CREATE", "PROPERTY", "GRAPH", "IF", "NOT", "EXISTS", "catalog_graph_parent_and_name", "of_graph_type", "graph_source"], ["CREATE", "PROPERTY", "GRAPH", "IF", "NOT", "EXISTS", "catalog_graph_parent_and_name", "of_graph_type"], ["CREATE", "PROPERTY", "GRAPH", "catalog_graph_parent_and_name", "open_graph_type", "graph_source"], ["CREATE", "PROPERTY", "GRAPH", "catalog_graph_parent_and_name", "open_graph_type"], ["CREATE", "PROPERTY", "GRAPH", "catalog_graph_parent_and_name", "of_graph_type", "graph_source"], ["CREATE", "PROPERTY", "GRAPH", "catalog_graph_parent_and_name", "of_graph_type"], ["CREATE", "GRAPH", "IF", "NOT", "EXISTS", "catalog_graph_parent_and_name", "open_graph_type", "graph_source"], ["CREATE", "GRAPH", "IF", "NOT", "EXISTS", "catalog_graph_parent_and_name", "open_graph_type"], ["CREATE", "GRAPH", "IF", "NOT", "EXISTS", "catalog_graph_parent_and_name", "of_graph_type", "graph_source"], ["CREATE", "GRAPH", "IF", "NOT", "EXISTS", "catalog_graph_parent_and_name", "of_graph_type"], ["CREATE", "GRAPH", "catalog_graph_parent_and_name", "open_graph_type", "graph_source"], ["CREATE", "GRAPH", "catalog_graph_parent_and_name", "open_graph_type"], ["CREATE", "GRAPH", "catalog_graph_parent_and_name", "of_graph_type", "graph_source"], ["CREATE", "GRAPH", "catalog_graph_parent_and_name", "of_graph_type"], ["CREATE", "OR", "REPLACE", "PROPERTY", "GRAPH", "catalog_graph_parent_and_name", "open_graph_type", "graph_source"], ["CREATE", "OR", "REPLACE", "PROPERTY", "GRAPH", "catalog_graph_parent_and_name", "open_graph_type"], ["CREATE", "OR", "REPLACE", "PROPERTY", "GRAPH", "catalog_graph_parent_and_name", "of_graph_type", "graph_source"], ["CREATE", "OR", "REPLACE", "PROPERTY", "GRAPH", "catalog_graph_parent_and_name", "of_graph_type"], ["CREATE", "OR", "REPLACE", "GRAPH", "catalog_graph_parent_and_name", "open_graph_type", "graph_source"], ["CREATE", "OR", "REPLACE", "GRAPH", "catalog_graph_parent_and_name", "open_graph_type"], ["CREATE", "OR", "REPLACE", "GRAPH", "catalog_graph_parent_and_name", "of_graph_type", "graph_source"], ["CREATE", "OR", "REPLACE", "GRAPH", "catalog_graph_parent_and_name", "of_graph_type"]}]
  {
    Step192();
    Step95();
    Test15Block1Merge();
    var g: Grammar := map[];
    WithNoLists(g);
    var rules := [Rule("create graph statement", [Alternative([Sym(Symbol.Terminal("CREATE")), Group([Alternative([Opt([Alternative([Sym(Symbol.Terminal("PROPERTY"))])]), Sym(Symbol.Terminal("GRAPH")), Opt([Alternative([Sym(Symbol.Terminal("IF")), Sym(Symbol.Terminal("NOT")), Sym(Symbol.Terminal("EXISTS"))])])]), Alternative([Sym(Symbol.Terminal("OR")), Sym(Symbol.Terminal("REPLACE")), Opt([Alternative([Sym(Symbol.Terminal("PROPERTY"))])]), Sym(Symbol.Terminal("GRAPH"))])]), Sym(Symbol.Nonterminal("catalog graph parent and name")), Group([Alternative([Sym(Symbol.Nonterminal("open graph type"))]), Alternative([Sym(Symbol.Nonterminal("of graph type"))])]), Opt([Alternative([Sym(Symbol.Nonterminal("graph source"))])])])])];
    assert rules[..0] == [];
    var w: Grammar := map[];
    BlockStep(rules, g, {}, w, "create_graph_statement", {["CREATE", "PROPERTY", "GRAPH", "IF", "NOT", "EXISTS", "catalog_graph_parent_and_name", "open_graph_type", "graph_source"], ["CREATE", "PROPERTY", "GRAPH", "IF", "NOT", "EXISTS", "catalog_graph_parent_and_name", "open_graph_type"], ["CREATE", "PROPERTY", "GRAPH", "IF", "NOT", "EXISTS", "catalog_graph_parent_and_name", "of_graph_type", "graph_source"], ["CREATE", "PROPERTY", "GRAPH", "IF", "NOT", "EXISTS", "catalog_graph_parent_and_name", "of_graph_type"], ["CREATE", "PROPERTY", "GRAPH", "catalog_graph_parent_and_name", "open_graph_type", "graph_source"], ["CREATE", "PROPERTY", "GRAPH", "catalog_graph_parent_and_name", "open_graph_type"], ["CREATE", "PROPERTY", "GRAPH", "catalog_graph_parent_and_name", "of_graph_type", "graph_source"], ["CREATE", "PROPERTY", "GRAPH", "catalog_graph_parent_and_name", "of_graph_type"], ["CREATE", "GRAPH", "IF", "NOT", "EXISTS", "catalog_graph_parent_and_name", "open_graph_type", "graph_source"], ["CREATE", "GRAPH", "IF", "NOT", "EXISTS", "catalog_graph_parent_and_name", "open_graph_type"], ["CREATE", "GRAPH", "IF", "NOT", "EXISTS", "catalog_graph_parent_and_name", "of_graph_type", "graph_source"], ["CREATE", "GRAPH", "IF", "NOT", "EXISTS", "catalog_graph_parent_and_name", "of_graph_type"], ["CREATE", "GRAPH", "catalog_graph_parent_and_name", "open_graph_type", "graph_source"], ["CREATE", "GRAPH", "catalog_graph_parent_and_name", "open_graph_type"], ["CREATE", "GRAPH", "catalog_graph_parent_and_name", "of_graph_type", "graph_source"], ["CREATE", "GRAPH", "catalog_graph_parent_and_name", "of_graph_type"], ["CREATE", "OR", "REPLACE", "PROPERTY", "GRAPH", "catalog_graph_parent_and_name", "open_graph_type", "graph_source"], ["CREATE", "OR", "REPLACE", "PROPERTY", "GRAPH", "catalog_graph_parent_and_name", "open_graph_type"], ["CREATE", "OR", "REPLACE", "PROPERTY", "GRAPH", "catalog_graph_parent_and_name", "of_graph_type", "graph_source"], ["CREATE", "OR", "REPLACE", "PROPERTY", "GRAPH", "catalog_graph_parent_and_name", "of_graph_type"], ["CREATE", "OR", "REPLACE", "GRAPH", "catalog_graph_parent_and_name", "open_graph_type", "graph_source"], ["CREATE", "OR", "REPLACE", "GRAPH", "catalog_graph_parent_and_name", "open_graph_type"], ["CREATE", "OR", "REPLACE", "GRAPH", "catalog_graph_parent_and_name", "of_graph_type", "graph_source"], ["CREATE", "OR", "REPLACE", "GRAPH", "catalog_graph_parent_and_name", "of_graph_type"]}, map["create_graph_statement" := {["CREATE", "PROPERTY", "GRAPH", "IF", "NOT", "EXISTS", "catalog_graph_parent_and_name", "open_graph_type", "graph_source"], ["CREATE", "PROPERTY", "GRAPH", "IF", "NOT", "EXISTS", "catalog_graph_parent_and_name", "open_graph_type"], ["CREATE", "PROPERTY", "GRAPH", "IF", "NOT", "EXISTS", "catalog_graph_parent_and_name", "of_graph_type", "graph_source"], ["CREATE", "PROPERTY", "GRAPH", "IF", "NOT", "EXISTS", "catalog_graph_parent_and_name", "of_graph_type"], ["CREATE", "PROPERTY", "GRAPH", "catalog_graph_parent_and_name", "open_graph_type", "graph_source"], ["CREATE", "PROPERTY", "GRAPH", "catalog_graph_parent_and_name", "open_graph_type"], ["CREATE", "PROPERTY", "GRAPH", "catalog_graph_parent_and_name", "of_graph_type", "graph_source"], ["CREATE", "PROPERTY", "GRAPH", "catalog_graph_parent_and_name", "of_graph_type"], ["CREATE", "GRAPH", "IF", "NOT", "EXISTS", "catalog_graph_parent_and_name", "open_graph_type", "graph_source"], ["CREATE", "GRAPH", "IF", "NOT", "EXISTS", "catalog_graph_parent_and_name", "open_graph_type"], ["CREATE", "GRAPH", "IF", "NOT", "EXISTS", "catalog_graph_parent_and_name", "of_graph_type", "graph_source"], ["CREATE", "GRAPH", "IF", "NOT", "EXISTS", "catalog_graph_parent_and_name", "of_graph_type"], ["CREATE", "GRAPH", "catalog_graph_parent_and_name", "open_graph_type", "graph_source"], ["CREATE", "GRAPH", "catalog_graph_parent_and_name", "open_graph_type"], ["CREATE", "GRAPH", "catalog_graph_parent_and_name", "of_graph_type", "graph_source"], ["CREATE", "GRAPH", "catalog_graph_parent_and_name", "of_graph_type"], ["CREATE", "OR", "REPLACE", "PROPERTY", "GRAPH", "catalog_graph_parent_and_name", "open_graph_type", "graph_source"], ["CREATE", "OR", "REPLACE", "PROPERTY", "GRAPH", "catalog_graph_parent_and_name", "open_graph_type"], ["CREATE", "OR", "REPLACE", "PROPERTY", "GRAPH", "catalog_graph_parent_and_name", "of_graph_type", "graph_source"], ["CREATE", "OR", "REPLACE", "PROPERTY", "GRAPH", "catalog_graph_parent_and_name", "of_graph_type"], ["CREATE", "OR", "REPLACE", "GRAPH", "catalog_graph_parent_and_name", "open_graph_type", "graph_source"], ["CREATE", "OR", "REPLACE", "GRAPH", "catalog_graph_parent_and_name", "open_graph_type"], ["CREATE", "OR", "REPLACE", "GRAPH", "catalog_graph_parent_and_name", "of_graph_type", "graph_source"], ["CREATE", "OR", "REPLACE", "GRAPH", "catalog_graph_parent_and_name", "of_graph_type"]}]);
  }

  /** The map the test expects. */
  lemma Test15()
    ensures Convert(Text15) == Some(map["create_graph_statement" := {["CREATE", "PROPERTY", "GRAPH", "IF", "NOT", "EXISTS", "catalog_graph_parent_and_name", "open_graph_type", "graph_source"], ["CREATE", "PROPERTY", "GRAPH", "IF", "NOT", "EXISTS", "catalog_graph_parent_and_name", "open_graph_type"], ["CREATE", "PROPERTY", "GRAPH", "IF", "NOT", "EXISTS", "catalog_graph_parent_and_name", "of_graph_type", "graph_source"], ["CREATE", "PROPERTY", "GRAPH", "IF", "NOT", "EXISTS", "catalog_graph_parent_and_name", "of_graph_type"], ["CREATE", "PROPERTY", "GRAPH", "catalog_graph_parent_and_name", "open_graph_type", "graph_source"], ["CREATE", "PROPERTY", "GRAPH", "catalog_graph_parent_and_name", "open_graph_type"], ["CREATE", "PROPERTY", "GRAPH", "catalog_graph_parent_and_name", "of_graph_type", "graph_source"], ["CREATE", "PROPERTY", "GRAPH", "catalog_graph_parent_and_name", "of_graph_type"], ["CREATE", "GRAPH", "IF", "NOT", "EXISTS", "catalog_graph_parent_and_name", "open_graph_type", "graph_source"], ["CREATE", "GRAPH", "IF", "NOT", "EXISTS", "catalog_graph_parent_and_name", "open_graph_type"], ["CREATE", "GRAPH", "IF", "NOT", "EXISTS", "catalog_graph_parent_and_name", "of_graph_type", "graph_source"], ["CREATE", "GRAPH", "IF", "NOT", "EXISTS", "catalog_graph_parent_and_name", "of_graph_type"], ["CREATE", "GRAPH", "catalog_graph_parent_and_name", "open_graph_type", "graph_source"], ["CREATE", "GRAPH", "catalog_graph_parent_and_name", "open_graph_type"], ["CREATE", "GRAPH", "catalog_graph_parent_and_name", "of_graph_type", "graph_source"], ["CREATE", "GRAPH", "catalog_graph_parent_and_name", "of_graph_type"], ["CREATE", "OR", "REPLACE", "PROPERTY", "GRAPH", "catalog_graph_parent_and_name", "open_graph_type", "graph_source"], ["CREATE", "OR", "REPLACE", "PROPERTY", "GRAPH", "catalog_graph_parent_and_name", "open_graph_type"], ["CREATE", "OR", "REPLACE", "PROPERTY", "GRAPH", "catalog_graph_parent_and_name", "of_graph_type", "graph_source"], ["CREATE", "OR", "REPLACE", "PROPERTY", "GRAPH", "catalog_graph_parent_and_name", "of_graph_type"], ["CREATE", "OR", "REPLACE", "GRAPH", "catalog_graph_parent_and_name", "open_graph_type", "graph_source"], ["CREATE", "OR", "REPLACE", "GRAPH", "catalog_graph_parent_and_name", "open_graph_type"], ["CREATE", "OR", "REPLACE", "GRAPH", "catalog_graph_parent_and_name", "of_graph_type", "graph_source"], ["CREATE", "OR", "REPLACE", "GRAPH", "catalog_graph_parent_and_name", "of_graph_type"]}])
  {
    Parsed15();
    Test15Block1();
  }


  // test_16, line 696 of the test file
  /** The grammar text of test_16 as its token sequence. */
  const Text16: seq<Token> := [BlockEnd, Token.Nonterminal("delete statement"), Defines, LBrack, Token.Terminal("DETACH"), Bar, Token.Terminal("NODETACH"), RBrack, Token.Terminal("DELETE"), Token.Nonterminal("delete item list")]

  /** Tokens of test_16's text, four at a time. */
  lemma Text16Tokens1()
    ensures |Text16| == 10
    ensures Text16[0] == BlockEnd
    ensures Text16[1] == Token.Nonterminal("delete statement")
    ensures Text16[2] == Defines
    ensures Text16[3] == LBrack
  {
  }

  /** Tokens of test_16's text, four at a time. */
  lemma Text16Tokens2()
    ensures Text16[4] == Token.Terminal("DETACH")
    ensures Text16[5] == Bar
    ensures Text16[6] == Token.Terminal("NODETACH")
    ensures Text16[7] == RBrack
  {
  }

  /** Tokens of test_16's text, four at a time. */
  lemma Text16Tokens3()
    ensures Text16[8] == Token.Terminal("DELETE")
    ensures Text16[9] == Token.Nonterminal("delete item list")
  {
  }

  /** Parser results on test_16's text, in evaluation order (part 1). */
  lemma Parsed16Step1(ts: seq<Token>)
    requires |ts| == 10 && ts[0] == BlockEnd && ts[1] == Token.Nonterminal("delete statement") && ts[2] == Defines && ts[3] == LBrack && ts[4] == Token.Terminal("DETACH") && ts[5] == Bar && ts[6] == Token.Terminal("NODETACH") && ts[7] == RBrack && ts[8] == Token.Terminal("DELETE") && ts[9] == Token.Nonterminal("delete item list")
    ensures SkipBlank(ts, 1) == 1
    ensures SkipBlank(ts, 0) == 1
    ensures ParseElement(ts, 4) == Parsed(Sym(Symbol.Terminal("DETACH")), 5)
    ensures ParseItems(ts, 5) == Parsed([], 5)
  {
  }

  /** Parser results on test_16's text, in evaluation order (part 2). */
  lemma Parsed16Step2(ts: seq<Token>)
    requires |ts| == 10 && ts[0] == BlockEnd && ts[1] == Token.Nonterminal("delete statement") && ts[2] == Defines && ts[3] == LBrack && ts[4] == Token.Terminal("DETACH") && ts[5] == Bar && ts[6] == Token.Terminal("NODETACH") && ts[7] == RBrack && ts[8] == Token.Terminal("DELETE") && ts[9] == Token.Nonterminal("delete item list")
    ensures [Sym(Symbol.Terminal("DETACH"))] + [] == [Sym(Symbol.Terminal("DETACH"))]
    ensures ParseAlternative(ts, 4) == Parsed(Alternative([Sym(Symbol.Terminal("DETACH"))]), 5)
    ensures ParseElement(ts, 6) == Parsed(Sym(Symbol.Terminal("NODETACH")), 7)
    ensures ParseItems(ts, 7) == Parsed([], 7)
  {
    Parsed16Step1(ts);
  }

  /** Parser results on test_16's text, in evaluation order (part 3). */
  lemma Parsed16Step3(ts: seq<Token>)
    requires |ts| == 10 && ts[0] == BlockEnd && ts[1] == Token.Nonterminal("delete statement") && ts[2] == Defines && ts[3] == LBrack && ts[4] == Token.Terminal("DETACH") && ts[5] == Bar && ts[6] == Token.Terminal("NODETACH") && ts[7] == RBrack && ts[8] == Token.Terminal("DELETE") && ts[9] == Token.Nonterminal("delete item list")
    ensures [Sym(Symbol.Terminal("NODETACH"))] + [] == [Sym(Symbol.Terminal("NODETACH"))]
    ensures ParseAlternative(ts, 6) == Parsed(Alternative([Sym(Symbol.Terminal("NODETACH"))]), 7)
    ensures ParseMoreAlternatives(ts, 7) == Parsed([], 7)
    ensures [Alternative([Sym(Symbol.Terminal("NODETACH"))])] + [] == [Alternative([Sym(Symbol.Terminal("NODETACH"))])]
  {
    Parsed16Step2(ts);
  }

  /** Parser results on test_16's text, in evaluation order (part 4). */
  lemma Parsed16Step4(ts: seq<Token>)
    requires |ts| == 10 && ts[0] == BlockEnd && ts[1] == Token.Nonterminal("delete statement") && ts[2] == Defines && ts[3] == LBrack && ts[4] == Token.Terminal("DETACH") && ts[5] == Bar && ts[6] == Token.Terminal("NODETACH") && ts[7] == RBrack && ts[8] == Token.Terminal("DELETE") && ts[9] == Token.Nonterminal("delete item list")
    ensures ParseMoreAlternatives(ts, 5) == Parsed([Alternative([Sym(Symbol.Terminal("NODETACH"))])], 7)
    ensures [Alternative([Sym(Symbol.Terminal("DETACH"))])] + [Alternative([Sym(Symbol.Terminal("NODETACH"))])] == [Alternative([Sym(Symbol.Terminal("DETACH"))]), Alternative([Sym(Symbol.Terminal("NODETACH"))])]
    ensures ParseAlternatives(ts, 4) == Parsed([Alternative([Sym(Symbol.Terminal("DETACH"))]), Alternative([Sym(Symbol.Terminal("NODETACH"))])], 7)
    ensures ParseElement(ts, 3) == Parsed(Opt([Alternative([Sym(Symbol.Terminal("DETACH"))]), Alternative([Sym(Symbol.Terminal("NODETACH"))])]), 8)
  {
    Parsed16Step2(ts);
    Parsed16Step3(ts);
  }

  /** Parser results on test_16's text, in evaluation order (part 5). */
  lemma Parsed16Step5(ts: seq<Token>)
    requires |ts| == 10 && ts[0] == BlockEnd && ts[1] == Token.Nonterminal("delete statement") && ts[2] == Defines && ts[3] == LBrack && ts[4] == Token.Terminal("DETACH") && ts[5] == Bar && ts[6] == Token.Terminal("NODETACH") && ts[7] == RBrack && ts[8] == Token.Terminal("DELETE") && ts[9] == Token.Nonterminal("delete item list")
    ensures ParseElement(ts, 8) == Parsed(Sym(Symbol.Terminal("DELETE")), 9)
    ensures ParseElement(ts, 9) == Parsed(Sym(Symbol.Nonterminal("delete item list")), 10)
    ensures ParseItems(ts, 10) == Parsed([], 10)
    ensures [Sym(Symbol.Nonterminal("delete item list"))] + [] == [Sym(Symbol.Nonterminal("delete item list"))]
  {
  }

  /** Parser results on test_16's text, in evaluation order (part 6). */
  lemma Parsed16Step6(ts: seq<Token>)
    requires |ts| == 10 && ts[0] == BlockEnd && ts[1] == Token.Nonterminal("delete statement") && ts[2] == Defines && ts[3] == LBrack && ts[4] == Token.Terminal("DETACH") && ts[5] == Bar && ts[6] == Token.Terminal("NODETACH") && ts[7] == RBrack && ts[8] == Token.Terminal("DELETE") && ts[9] == Token.Nonterminal("delete item list")
    ensures ParseItems(ts, 9) == Parsed([Sym(Symbol.Nonterminal("delete item list"))], 10)
    ensures [Sym(Symbol.Terminal("DELETE"))] + [Sym(Symbol.Nonterminal("delete item list"))] == [Sym(Symbol.Terminal("DELETE")), Sym(Symbol.Nonterminal("delete item list"))]
    ensures ParseItems(ts, 8) == Parsed([Sym(Symbol.Terminal("DELETE")), Sym(Symbol.Nonterminal("delete item list"))], 10)
    ensures [Opt([Alternative([Sym(Symbol.Terminal("DETACH"))]), Alternative([Sym(Symbol.Terminal("NODETACH"))])])] + [Sym(Symbol.Terminal("DELETE")), Sym(Symbol.Nonterminal("delete item list"))] == [Opt([Alternative([Sym(Symbol.Terminal("DETACH"))]), Alternative([Sym(Symbol.Terminal("NODETACH"))])]), Sym(Symbol.Terminal("DELETE")), Sym(Symbol.Nonterminal("delete item list"))]
  {
    Parsed16Step5(ts);
  }

  /** Parser results on test_16's text, in evaluation order (part 7). */
  lemma Parsed16Step7(ts: seq<Token>)
    requires |ts| == 10 && ts[0] == BlockEnd && ts[1] == Token.Nonterminal("delete statement") && ts[2] == Defines && ts[3] == LBrack && ts[4] == Token.Terminal("DETACH") && ts[5] == Bar && ts[6] == Token.Terminal("NODETACH") && ts[7] == RBrack && ts[8] == Token.Terminal("DELETE") && ts[9] == Token.Nonterminal("delete item list")
    ensures ParseAlternative(ts, 3) == Parsed(Alternative([Opt([Alternative([Sym(Symbol.Terminal("DETACH"))]), Alternative([Sym(Symbol.Terminal("NODETACH"))])]), Sym(Symbol.Terminal("DELETE")), Sym(Symbol.Nonterminal("delete item list"))]), 10)
    ensures ParseMoreAlternatives(ts, 10) == Parsed([], 10)
    ensures [Alternative([Opt([Alternative([Sym(Symbol.Terminal("DETACH"))]), Alternative([Sym(Symbol.Terminal("NODETACH"))])]), Sym(Symbol.Terminal("DELETE")), Sym(Symbol.Nonterminal("delete item list"))])] + [] == [Alternative([Opt([Alternative([Sym(Symbol.Terminal("DETACH"))]), Alternative([Sym(Symbol.Terminal("NODETACH"))])]), Sym(Symbol.Terminal("DELETE")), Sym(Symbol.Nonterminal("delete item list"))])]
    ensures ParseAlternatives(ts, 3) == Parsed([Alternative([Opt([Alternative([Sym(Symbol.Terminal("DETACH"))]), Alternative([Sym(Symbol.Terminal("NODETACH"))])]), Sym(Symbol.Terminal("DELETE")), Sym(Symbol.Nonterminal("delete item list"))])], 10)
  {
    Parsed16Step4(ts);
    Parsed16Step6(ts);
  }

  /** Parser results on test_16's text, in evaluation order (part 8). */
  lemma Parsed16Step8(ts: seq<Token>)
    requires |ts| == 10 && ts[0] == BlockEnd && ts[1] == Token.Nonterminal("delete statement") && ts[2] == Defines && ts[3] == LBrack && ts[4] == Token.Terminal("DETACH") && ts[5] == Bar && ts[6] == Token.Terminal("NODETACH") && ts[7] == RBrack && ts[8] == Token.Terminal("DELETE") && ts[9] == Token.Nonterminal("delete item list")
    ensures ParseRuleBody(ts, 3) == Parsed([Alternative([Opt([Alternative([Sym(Symbol.Terminal("DETACH"))]), Alternative([Sym(Symbol.Terminal("NODETACH"))])]), Sym(Symbol.Terminal("DELETE")), Sym(Symbol.Nonterminal("delete item list"))])], 10)
    ensures ParseRule(ts, 1) == Parsed(Rule("delete statement", [Alternative([Opt([Alternative([Sym(Symbol.Terminal("DETACH"))]), Alternative([Sym(Symbol.Terminal("NODETACH"))])]), Sym(Symbol.Terminal("DELETE")), Sym(Symbol.Nonterminal("delete item list"))])]), 10)
    ensures ParseRules(ts, 1) == Some([Rule("delete statement", [Alternative([Opt([Alternative([Sym(Symbol.Terminal("DETACH"))]), Alternative([Sym(Symbol.Terminal("NODETACH"))])]), Sym(Symbol.Terminal("DELETE")), Sym(Symbol.Nonterminal("delete item list"))])])])
  {
    Parsed16Step7(ts);
  }

  /** The rule blocks test_16's text parses to. */
  lemma Parsed16()
    ensures Parse(Text16) == Some([Rule("delete statement", [Alternative([Opt([Alternative([Sym(Symbol.Terminal("DETACH"))]), Alternative([Sym(Symbol.Terminal("NODETACH"))])]), Sym(Symbol.Terminal("DELETE")), Sym(Symbol.Nonterminal("delete item list"))])])])
  {
    Text16Tokens1();
    Text16Tokens2();
    Text16Tokens3();
    Parsed16Step1(Text16);
    Parsed16Step2(Text16);
    Parsed16Step3(Text16);
    Parsed16Step4(Text16);
    Parsed16Step5(Text16);
    Parsed16Step6(Text16);
    Parsed16Step7(Text16);
    Parsed16Step8(Text16);
  }

  /** test_16, block 1: its alternatives merged into its entry. */
  lemma Test16Block1Merge()
    ensures var w: Grammar := map[]; w["delete_statement" := Lookup(w, "delete_statement") + {["DETACH", "DELETE", "delete_item_list"], ["NODETACH", "DELETE", "delete_item_list"], ["DELETE", "delete_item_list"]}] == map["delete_statement" := {["DETACH", "DELETE", "delete_item_list"], ["NODETACH", "DELETE", "delete_item_list"], ["DELETE", "delete_item_list"]}]
  {
    var w: Grammar := map[];
    assert Lookup(w, "delete_statement") == {};
    assert {} + {["DETACH", "DELETE", "delete_item_list"], ["NODETACH", "DELETE", "delete_item_list"], ["DELETE", "delete_item_list"]} == {["DETACH", "DELETE", "delete_item_list"], ["NODETACH", "DELETE", "delete_item_list"], ["DELETE", "delete_item_list"]};
  }

  /** test_16: the map after block 1. */
  lemma Test16Block1()
    ensures ApplyRules(map[], [Rule("delete statement", [Alternative([Opt([Alternative([Sym(Symbol.Terminal("DETACH"))]), Alternative([Sym(Symbol.Terminal("NODETACH"))])]), Sym(Symbol.Terminal("DELETE")), Sym(Symbol.Nonterminal("delete item list"))])])]) == map["delete_statement" := {["DETACH", "DELETE", "delete_item_list"], ["NODETACH", "DELETE", "delete_item_list"], ["DELETE", "delete_item_list"]}]
  {
    Step211();
    Step212();
    Test16Block1Merge();
    var g: Grammar := map[];
    WithNoLists(g);
    var rules := [Rule("delete statement", [Alternative([Opt([Alternative([Sym(Symbol.Terminal("DETACH"))]), Alternative([Sym(Symbol.Terminal("NODETACH"))])]), Sym(Symbol.Terminal("DELETE")), Sym(Symbol.Nonterminal("delete item list"))])])];
    assert rules[..0] == [];
    var w: Grammar := map[];
    BlockStep(rules, g, {}, w, "delete_statement", {["DETACH", "DELETE", "delete_item_list"], ["NODETACH", "DELETE", "delete_item_list"], ["DELETE", "delete_item_list"]}, map["delete_statement" := {["DETACH", "DELETE", "delete_item_list"], ["NODETACH", "DELETE", "delete_item_list"], ["DELETE", "delete_item_list"]}]);
  }

  /** The map the test expects. */
  lemma Test16()
    ensures Convert(Text16) == Some(map["delete_statement" := {["DETACH", "DELETE", "delete_item_list"], ["NODETACH", "DELETE", "delete_item_list"], ["DELETE", "delete_item_list"]}])
  {
    Parsed16();
    Test16Block1();
  }


  // test_17, line 732 of the test file
  /** The grammar text of test_17 as its token sequence. */
  const Text17: seq<Token> := [BlockEnd, Token.Nonterminal("exists predicate"), Defines, Token.Terminal("EXISTS"), LBrace, Token.Nonterminal("left brace"), Token.Nonterminal("graph pattern"), Token.Nonterminal("right brace"), Bar, Token.Nonterminal("left paren"), Token.Nonterminal("graph pattern"), Token.Nonterminal("right paren"), Bar, Token.Nonterminal("left brace"), Token.Nonterminal("match statement block"), Token.Nonterminal("right brace"), Bar, Token.Nonterminal("left paren"), Token.Nonterminal("match statement block"), Token.Nonterminal("right paren"), Bar, Token.Nonterminal("nested query specification"), RBrace]

  /** Tokens of test_17's text, four at a time. */
  lemma Text17Tokens1()
    ensures |Text17| == 23
    ensures Text17[0] == BlockEnd
    ensures Text17[1] == Token.Nonterminal("exists predicate")
    ensures Text17[2] == Defines
    ensures Text17[3] == Token.Terminal("EXISTS")
  {
  }

  /** Tokens of test_17's text, four at a time. */
  lemma Text17Tokens2()
    ensures Text17[4] == LBrace
    ensures Text17[5] == Token.Nonterminal("left brace")
    ensures Text17[6] == Token.Nonterminal("graph pattern")
    ensures Text17[7] == Token.Nonterminal("right brace")
  {
  }

  /** Tokens of test_17's text, four at a time. */
  lemma Text17Tokens3()
    ensures Text17[8] == Bar
    ensures Text17[9] == Token.Nonterminal("left paren")
    ensures Text17[10] == Token.Nonterminal("graph pattern")
    ensures Text17[11] == Token.Nonterminal("right paren")
  {
  }

  /** Tokens of test_17's text, four at a time. */
  lemma Text17Tokens4()
    ensures Text17[12] == Bar
    ensures Text17[13] == Token.Nonterminal("left brace")
    ensures Text17[14] == Token.Nonterminal("match statement block")
    ensures Text17[15] == Token.Nonterminal("right brace")
  {
  }

  /** Tokens of test_17's text, four at a time. */
  lemma Text17Tokens5()
    ensures Text17[16] == Bar
    ensures Text17[17] == Token.Nonterminal("left paren")
    ensures Text17[18] == Token.Nonterminal("match statement block")
    ensures Text17[19] == Token.Nonterminal("right paren")
  {
  }

  /** Tokens of test_17's text, four at a time. */
  lemma Text17Tokens6()
    ensures Text17[20] == Bar
    ensures Text17[21] == Token.Nonterminal("nested query specification")
    ensures Text17[22] == RBrace
  {
  }

  /** Parser results on test_17's text, in evaluation order (part 1). */
  lemma Parsed17Step1(ts: seq<Token>)
    requires |ts| == 23 && ts[0] == BlockEnd && ts[1] == Token.Nonterminal("exists predicate") && ts[2] == Defines && ts[3] == Token.Terminal("EXISTS") && ts[4] == LBrace && ts[5] == Token.Nonterminal("left brace") && ts[6] == Token.Nonterminal("graph pattern") && ts[7] == Token.Nonterminal("right brace") && ts[8] == Bar && ts[9] == Token.Nonterminal("left paren") && ts[10] == Token.Nonterminal("graph pattern") && ts[11] == Token.Nonterminal("right paren") && ts[12] == Bar && ts[13] == Token.Nonterminal("left brace") && ts[14] == Token.Nonterminal("match statement block") && ts[15] == Token.Nonterminal("right brace") && ts[16] == Bar && ts[17] == Token.Nonterminal("left paren") && ts[18] == Token.Nonterminal("match statement block") && ts[19] == Token.Nonterminal("right paren") && ts[20] == Bar && ts[21] == Token.Nonterminal("nested query specification") && ts[22] == RBrace
    ensures SkipBlank(ts, 1) == 1
    ensures SkipBlank(ts, 0) == 1
    ensures ParseElement(ts, 3) == Parsed(Sym(Symbol.Terminal("EXISTS")), 4)
    ensures ParseElement(ts, 5) == Parsed(Sym(Symbol.Nonterminal("left brace")), 6)
  {
  }

  /** Parser results on test_17's text, in evaluation order (part 2). */
  lemma Parsed17Step2(ts: seq<Token>)
    requires |ts| == 23 && ts[0] == BlockEnd && ts[1] == Token.Nonterminal("exists predicate") && ts[2] == Defines && ts[3] == Token.Terminal("EXISTS") && ts[4] == LBrace && ts[5] == Token.Nonterminal("left brace") && ts[6] == Token.Nonterminal("graph pattern") && ts[7] == Token.Nonterminal("right brace") && ts[8] == Bar && ts[9] == Token.Nonterminal("left paren") && ts[10] == Token.Nonterminal("graph pattern") && ts[11] == Token.Nonterminal("right paren") && ts[12] == Bar && ts[13] == Token.Nonterminal("left brace") && ts[14] == Token.Nonterminal("match statement block") && ts[15] == Token.Nonterminal("right brace") && ts[16] == Bar && ts[17] == Token.Nonterminal("left paren") && ts[18] == Token.Nonterminal("match statement block") && ts[19] == Token.Nonterminal("right paren") && ts[20] == Bar && ts[21] == Token.Nonterminal("nested query specification") && ts[22] == RBrace
    ensures ParseElement(ts, 6) == Parsed(Sym(Symbol.Nonterminal("graph pattern")), 7)
    ensures ParseElement(ts, 7) == Parsed(Sym(Symbol.Nonterminal("right brace")), 8)
    ensures ParseItems(ts, 8) == Parsed([], 8)
    ensures [Sym(Symbol.Nonterminal("right brace"))] + [] == [Sym(Symbol.Nonterminal("right brace"))]
  {
  }

  /** Parser results on test_17's text, in evaluation order (part 3). */
  lemma Parsed17Step3(ts: seq<Token>)
    requires |ts| == 23 && ts[0] == BlockEnd && ts[1] == Token.Nonterminal("exists predicate") && ts[2] == Defines && ts[3] == Token.Terminal("EXISTS") && ts[4] == LBrace && ts[5] == Token.Nonterminal("left brace") && ts[6] == Token.Nonterminal("graph pattern") && ts[7] == Token.Nonterminal("right brace") && ts[8] == Bar && ts[9] == Token.Nonterminal("left paren") && ts[10] == Token.Nonterminal("graph pattern") && ts[11] == Token.Nonterminal("right paren") && ts[12] == Bar && ts[13] == Token.Nonterminal("left brace") && ts[14] == Token.Nonterminal("match statement block") && ts[15] == Token.Nonterminal("right brace") && ts[16] == Bar && ts[17] == Token.Nonterminal("left paren") && ts[18] == Token.Nonterminal("match statement block") && ts[19] == Token.Nonterminal("right paren") && ts[20] == Bar && ts[21] == Token.Nonterminal("nested query specification") && ts[22] == RBrace
    ensures ParseItems(ts, 7) == Parsed([Sym(Symbol.Nonterminal("right brace"))], 8)
    ensures [Sym(Symbol.Nonterminal("graph pattern"))] + [Sym(Symbol.Nonterminal("right brace"))] == [Sym(Symbol.Nonterminal("graph pattern")), Sym(Symbol.Nonterminal("right brace"))]
    ensures ParseItems(ts, 6) == Parsed([Sym(Symbol.Nonterminal("graph pattern")), Sym(Symbol.Nonterminal("right brace"))], 8)
    ensures [Sym(Symbol.Nonterminal("left brace"))] + [Sym(Symbol.Nonterminal("graph pattern")), Sym(Symbol.Nonterminal("right brace"))] == [Sym(Symbol.Nonterminal("left brace")), Sym(Symbol.Nonterminal("graph pattern")), Sym(Symbol.Nonterminal("right brace"))]
  {
    Parsed17Step2(ts);
  }

  /** Parser results on test_17's text, in evaluation order (part 4). */
  lemma Parsed17Step4(ts: seq<Token>)
    requires |ts| == 23 && ts[0] == BlockEnd && ts[1] == Token.Nonterminal("exists predicate") && ts[2] == Defines && ts[3] == Token.Terminal("EXISTS") && ts[4] == LBrace && ts[5] == Token.Nonterminal("left brace") && ts[6] == Token.Nonterminal("graph pattern") && ts[7] == Token.Nonterminal("right brace") && ts[8] == Bar && ts[9] == Token.Nonterminal("left paren") && ts[10] == Token.Nonterminal("graph pattern") && ts[11] == Token.Nonterminal("right paren") && ts[12] == Bar && ts[13] == Token.Nonterminal("left brace") && ts[14] == Token.Nonterminal("match statement block") && ts[15] == Token.Nonterminal("right brace") && ts[16] == Bar && ts[17] == Token.Nonterminal("left paren") && ts[18] == Token.Nonterminal("match statement block") && ts[19] == Token.Nonterminal("right paren") && ts[20] == Bar && ts[21] == Token.Nonterminal("nested query specification") && ts[22] == RBrace
    ensures ParseAlternative(ts, 5) == Parsed(Alternative([Sym(Symbol.Nonterminal("left brace")), Sym(Symbol.Nonterminal("graph pattern")), Sym(Symbol.Nonterminal("right brace"))]), 8)
    ensures ParseElement(ts, 9) == Parsed(Sym(Symbol.Nonterminal("left paren")), 10)
    ensures ParseElement(ts, 10) == Parsed(Sym(Symbol.Nonterminal("graph pattern")), 11)
    ensures ParseElement(ts, 11) == Parsed(Sym(Symbol.Nonterminal("right paren")), 12)
  {
    Parsed17Step1(ts);
    Parsed17Step3(ts);
  }

  /** Parser results on test_17's text, in evaluation order (part 5). */
  lemma Parsed17Step5(ts: seq<Token>)
    requires |ts| == 23 && ts[0] == BlockEnd && ts[1] == Token.Nonterminal("exists predicate") && ts[2] == Defines && ts[3] == Token.Terminal("EXISTS") && ts[4] == LBrace && ts[5] == Token.Nonterminal("left brace") && ts[6] == Token.Nonterminal("graph pattern") && ts[7] == Token.Nonterminal("right brace") && ts[8] == Bar && ts[9] == Token.Nonterminal("left paren") && ts[10] == Token.Nonterminal("graph pattern") && ts[11] == Token.Nonterminal("right paren") && ts[12] == Bar && ts[13] == Token.Nonterminal("left brace") && ts[14] == Token.Nonterminal("match statement block") && ts[15] == Token.Nonterminal("right brace") && ts[16] == Bar && ts[17] == Token.Nonterminal("left paren") && ts[18] == Token.Nonterminal("match statement block") && ts[19] == Token.Nonterminal("right paren") && ts[20] == Bar && ts[21] == Token.Nonterminal("nested query specification") && ts[22] == RBrace
    ensures ParseItems(ts, 12) == Parsed([], 12)
    ensures [Sym(Symbol.Nonterminal("right paren"))] + [] == [Sym(Symbol.Nonterminal("right paren"))]
    ensures ParseItems(ts, 11) == Parsed([Sym(Symbol.Nonterminal("right paren"))], 12)
    ensures [Sym(Symbol.Nonterminal("graph pattern"))] + [Sym(Symbol.Nonterminal("right paren"))] == [Sym(Symbol.Nonterminal("graph pattern")), Sym(Symbol.Nonterminal("right paren"))]
  {
    Parsed17Step4(ts);
  }

  /** Parser results on test_17's text, in evaluation order (part 6). */
  lemma Parsed17Step6(ts: seq<Token>)
    requires |ts| == 23 && ts[0] == BlockEnd && ts[1] == Token.Nonterminal("exists predicate") && ts[2] == Defines && ts[3] == Token.Terminal("EXISTS") && ts[4] == LBrace && ts[5] == Token.Nonterminal("left brace") && ts[6] == Token.Nonterminal("graph pattern") && ts[7] == Token.Nonterminal("right brace") && ts[8] == Bar && ts[9] == Token.Nonterminal("left paren") && ts[10] == Token.Nonterminal("graph pattern") && ts[11] == Token.Nonterminal("right paren") && ts[12] == Bar && ts[13] == Token.Nonterminal("left brace") && ts[14] == Token.Nonterminal("match statement block") && ts[15] == Token.Nonterminal("right brace") && ts[16] == Bar && ts[17] == Token.Nonterminal("left paren") && ts[18] == Token.Nonterminal("match statement block") && ts[19] == Token.Nonterminal("right paren") && ts[20] == Bar && ts[21] == Token.Nonterminal("nested query specification") && ts[22] == RBrace
    ensures ParseItems(ts, 10) == Parsed([Sym(Symbol.Nonterminal("graph pattern")), Sym(Symbol.Nonterminal("right paren"))], 12)
    ensures [Sym(Symbol.Nonterminal("left paren"))] + [Sym(Symbol.Nonterminal("graph pattern")), Sym(Symbol.Nonterminal("right paren"))] == [Sym(Symbol.Nonterminal("left paren")), Sym(Symbol.Nonterminal("graph pattern")), Sym(Symbol.Nonterminal("right paren"))]
    ensures ParseAlternative(ts, 9) == Parsed(Alternative([Sym(Symbol.Nonterminal("left paren")), Sym(Symbol.Nonterminal("graph pattern")), Sym(Symbol.Nonterminal("right paren"))]), 12)
    ensures ParseElement(ts, 13) == Parsed(Sym(Symbol.Nonterminal("left brace")), 14)
  {
    Parsed17Step4(ts);
    Parsed17Step5(ts);
  }

  /** Parser results on test_17's text, in evaluation order (part 7). */
  lemma Parsed17Step7(ts: seq<Token>)
    requires |ts| == 23 && ts[0] == BlockEnd && ts[1] == Token.Nonterminal("exists predicate") && ts[2] == Defines && ts[3] == Token.Terminal("EXISTS") && ts[4] == LBrace && ts[5] == Token.Nonterminal("left brace") && ts[6] == Token.Nonterminal("graph pattern") && ts[7] == Token.Nonterminal("right brace") && ts[8] == Bar && ts[9] == Token.Nonterminal("left paren") && ts[10] == Token.Nonterminal("graph pattern") && ts[11] == Token.Nonterminal("right paren") && ts[12] == Bar && ts[13] == Token.Nonterminal("left brace") && ts[14] == Token.Nonterminal("match statement block") && ts[15] == Token.Nonterminal("right brace") && ts[16] == Bar && ts[17] == Token.Nonterminal("left paren") && ts[18] == Token.Nonterminal("match statement block") && ts[19] == Token.Nonterminal("right paren") && ts[20] == Bar && ts[21] == Token.Nonterminal("nested query specification") && ts[22] == RBrace
    ensures ParseElement(ts, 14) == Parsed(Sym(Symbol.Nonterminal("match statement block")), 15)
    ensures ParseElement(ts, 15) == Parsed(Sym(Symbol.Nonterminal("right brace")), 16)
    ensures ParseItems(ts, 16) == Parsed([], 16)
    ensures [Sym(Symbol.Nonterminal("right brace"))] + [] == [Sym(Symbol.Nonterminal("right brace"))]
  {
  }

  /** Parser results on test_17's text, in evaluation order (part 8). */
  lemma Parsed17Step8(ts: seq<Token>)
    requires |ts| == 23 && ts[0] == BlockEnd && ts[1] == Token.Nonterminal("exists predicate") && ts[2] == Defines && ts[3] == Token.Terminal("EXISTS") && ts[4] == LBrace && ts[5] == Token.Nonterminal("left brace") && ts[6] == Token.Nonterminal("graph pattern") && ts[7] == Token.Nonterminal("right brace") && ts[8] == Bar && ts[9] == Token.Nonterminal("left paren") && ts[10] == Token.Nonterminal("graph pattern") && ts[11] == Token.Nonterminal("right paren") && ts[12] == Bar && ts[13] == Token.Nonterminal("left brace") && ts[14] == Token.Nonterminal("match statement block") && ts[15] == Token.Nonterminal("right brace") && ts[16] == Bar && ts[17] == Token.Nonterminal("left paren") && ts[18] == Token.Nonterminal("match statement block") && ts[19] == Token.Nonterminal("right paren") && ts[20] == Bar && ts[21] == Token.Nonterminal("nested query specification") && ts[22] == RBrace
    ensures ParseItems(ts, 15) == Parsed([Sym(Symbol.Nonterminal("right brace"))], 16)
    ensures [Sym(Symbol.Nonterminal("match statement block"))] + [Sym(Symbol.Nonterminal("right brace"))] == [Sym(Symbol.Nonterminal("match statement block")), Sym(Symbol.Nonterminal("right brace"))]
    ensures ParseItems(ts, 14) == Parsed([Sym(Symbol.Nonterminal("match statement block")), Sym(Symbol.Nonterminal("right brace"))], 16)
    ensures [Sym(Symbol.Nonterminal("left brace"))] + [Sym(Symbol.Nonterminal("match statement block")), Sym(Symbol.Nonterminal("right brace"))] == [Sym(Symbol.Nonterminal("left brace")), Sym(Symbol.Nonterminal("match statement block")), Sym(Symbol.Nonterminal("right brace"))]
  {
    Parsed17Step7(ts);
  }

  /** Parser results on test_17's text, in evaluation order (part 9). */
  lemma Parsed17Step9(ts: seq<Token>)
    requires |ts| == 23 && ts[0] == BlockEnd && ts[1] == Token.Nonterminal("exists predicate") && ts[2] == Defines && ts[3] == Token.Terminal("EXISTS") && ts[4] == LBrace && ts[5] == Token.Nonterminal("left brace") && ts[6] == Token.Nonterminal("graph pattern") && ts[7] == Token.Nonterminal("right brace") && ts[8] == Bar && ts[9] == Token.Nonterminal("left paren") && ts[10] == Token.Nonterminal("graph pattern") && ts[11] == Token.Nonterminal("right paren") && ts[12] == Bar && ts[13] == Token.Nonterminal("left brace") && ts[14] == Token.Nonterminal("match statement block") && ts[15] == Token.Nonterminal("right brace") && ts[16] == Bar && ts[17] == Token.Nonterminal("left paren") && ts[18] == Token.Nonterminal("match statement block") && ts[19] == Token.Nonterminal("right paren") && ts[20] == Bar && ts[21] == Token.Nonterminal("nested query specification") && ts[22] == RBrace
    ensures ParseAlternative(ts, 13) == Parsed(Alternative([Sym(Symbol.Nonterminal("left brace")), Sym(Symbol.Nonterminal("match statement block")), Sym(Symbol.Nonterminal("right brace"))]), 16)
    ensures ParseElement(ts, 17) == Parsed(Sym(Symbol.Nonterminal("left paren")), 18)
    ensures ParseElement(ts, 18) == Parsed(Sym(Symbol.Nonterminal("match statement block")), 19)
    ensures ParseElement(ts, 19) == Parsed(Sym(Symbol.Nonterminal("right paren")), 20)
  {
    Parsed17Step6(ts);
    Parsed17Step8(ts);
  }

  /** Parser results on test_17's text, in evaluation order (part 10). */
  lemma Parsed17Step10(ts: seq<Token>)
    requires |ts| == 23 && ts[0] == BlockEnd && ts[1] == Token.Nonterminal("exists predicate") && ts[2] == Defines && ts[3] == Token.Terminal("EXISTS") && ts[4] == LBrace && ts[5] == Token.Nonterminal("left brace") && ts[6] == Token.Nonterminal("graph pattern") && ts[7] == Token.Nonterminal("right brace") && ts[8] == Bar && ts[9] == Token.Nonterminal("left paren") && ts[10] == Token.Nonterminal("graph pattern") && ts[11] == Token.Nonterminal("right paren") && ts[12] == Bar && ts[13] == Token.Nonterminal("left brace") && ts[14] == Token.Nonterminal("match statement block") && ts[15] == Token.Nonterminal("right brace") && ts[16] == Bar && ts[17] == Token.Nonterminal("left paren") && ts[18] == Token.Nonterminal("match statement block") && ts[19] == Token.Nonterminal("right paren") && ts[20] == Bar && ts[21] == Token.Nonterminal("nested query specification") && ts[22] == RBrace
    ensures ParseItems(ts, 20) == Parsed([], 20)
    ensures [Sym(Symbol.Nonterminal("right paren"))] + [] == [Sym(Symbol.Nonterminal("right paren"))]
    ensures ParseItems(ts, 19) == Parsed([Sym(Symbol.Nonterminal("right paren"))], 20)
    ensures [Sym(Symbol.Nonterminal("match statement block"))] + [Sym(Symbol.Nonterminal("right paren"))] == [Sym(Symbol.Nonterminal("match statement block")), Sym(Symbol.Nonterminal("right paren"))]
  {
    Parsed17Step9(ts);
  }

  /** Parser results on test_17's text, in evaluation order (part 11). */
  lemma Parsed17Step11(ts: seq<Token>)
    requires |ts| == 23 && ts[0] == BlockEnd && ts[1] == Token.Nonterminal("exists predicate") && ts[2] == Defines && ts[3] == Token.Terminal("EXISTS") && ts[4] == LBrace && ts[5] == Token.Nonterminal("left brace") && ts[6] == Token.Nonterminal("graph pattern") && ts[7] == Token.Nonterminal("right brace") && ts[8] == Bar && ts[9] == Token.Nonterminal("left paren") && ts[10] == Token.Nonterminal("graph pattern") && ts[11] == Token.Nonterminal("right paren") && ts[12] == Bar && ts[13] == Token.Nonterminal("left brace") && ts[14] == Token.Nonterminal("match statement block") && ts[15] == Token.Nonterminal("right brace") && ts[16] == Bar && ts[17] == Token.Nonterminal("left paren") && ts[18] == Token.Nonterminal("match statement block") && ts[19] == Token.Nonterminal("right paren") && ts[20] == Bar && ts[21] == Token.Nonterminal("nested query specification") && ts[22] == RBrace
    ensures ParseItems(ts, 18) == Parsed([Sym(Symbol.Nonterminal("match statement block")), Sym(Symbol.Nonterminal("right paren"))], 20)
    ensures [Sym(Symbol.Nonterminal("left paren"))] + [Sym(Symbol.Nonterminal("match statement block")), Sym(Symbol.Nonterminal("right paren"))] == [Sym(Symbol.Nonterminal("left paren")), Sym(Symbol.Nonterminal("match statement block")), Sym(Symbol.Nonterminal("right paren"))]
    ensures ParseAlternative(ts, 17) == Parsed(Alternative([Sym(Symbol.Nonterminal("left paren")), Sym(Symbol.Nonterminal("match statement block")), Sym(Symbol.Nonterminal("right paren"))]), 20)
    ensures ParseElement(ts, 21) == Parsed(Sym(Symbol.Nonterminal("nested query specification")), 22)
  {
    Parsed17Step9(ts);
    Parsed17Step10(ts);
  }

  /** Parser results on test_17's text, in evaluation order (part 12). */
  lemma Parsed17Step12(ts: seq<Token>)
    requires |ts| == 23 && ts[0] == BlockEnd && ts[1] == Token.Nonterminal("exists predicate") && ts[2] == Defines && ts[3] == Token.Terminal("EXISTS") && ts[4] == LBrace && ts[5] == Token.Nonterminal("left brace") && ts[6] == Token.Nonterminal("graph pattern") && ts[7] == Token.Nonterminal("right brace") && ts[8] == Bar && ts[9] == Token.Nonterminal("left paren") && ts[10] == Token.Nonterminal("graph pattern") && ts[11] == Token.Nonterminal("right paren") && ts[12] == Bar && ts[13] == Token.Nonterminal("left brace") && ts[14] == Token.Nonterminal("match statement block") && ts[15] == Token.Nonterminal("right brace") && ts[16] == Bar && ts[17] == Token.Nonterminal("left paren") && ts[18] == Token.Nonterminal("match statement block") && ts[19] == Token.Nonterminal("right paren") && ts[20] == Bar && ts[21] == Token.Nonterminal("nested query specification") && ts[22] == RBrace
    ensures ParseItems(ts, 22) == Parsed([], 22)
    ensures [Sym(Symbol.Nonterminal("nested query specification"))] + [] == [Sym(Symbol.Nonterminal("nested query specification"))]
    ensures ParseAlternative(ts, 21) == Parsed(Alternative([Sym(Symbol.Nonterminal("nested query specification"))]), 22)
    ensures ParseMoreAlternatives(ts, 22) == Parsed([], 22)
  {
    Parsed17Step11(ts);
  }

  /** Parser results on test_17's text, in evaluation order (part 13). */
  lemma Parsed17Step13(ts: seq<Token>)
    requires |ts| == 23 && ts[0] == BlockEnd && ts[1] == Token.Nonterminal("exists predicate") && ts[2] == Defines && ts[3] == Token.Terminal("EXISTS") && ts[4] == LBrace && ts[5] == Token.Nonterminal("left brace") && ts[6] == Token.Nonterminal("graph pattern") && ts[7] == Token.Nonterminal("right brace") && ts[8] == Bar && ts[9] == Token.Nonterminal("left paren") && ts[10] == Token.Nonterminal("graph pattern") && ts[11] == Token.Nonterminal("right paren") && ts[12] == Bar && ts[13] == Token.Nonterminal("left brace") && ts[14] == Token.Nonterminal("match statement block") && ts[15] == Token.Nonterminal("right brace") && ts[16] == Bar && ts[17] == Token.Nonterminal("left paren") && ts[18] == Token.Nonterminal("match statement block") && ts[19] == Token.Nonterminal("right paren") && ts[20] == Bar && ts[21] == Token.Nonterminal("nested query specification") && ts[22] == RBrace
    ensures [Alternative([Sym(Symbol.Nonterminal("nested query specification"))])] + [] == [Alternative([Sym(Symbol.Nonterminal("nested query specification"))])]
    ensures ParseMoreAlternatives(ts, 20) == Parsed([Alternative([Sym(Symbol.Nonterminal("nested query specification"))])], 22)
    ensures [Alternative([Sym(Symbol.Nonterminal("left paren")), Sym(Symbol.Nonterminal("match statement block")), Sym(Symbol.Nonterminal("right paren"))])] + [Alternative([Sym(Symbol.Nonterminal("nested query specification"))])] == [Alternative([Sym(Symbol.Nonterminal("left paren")), Sym(Symbol.Nonterminal("match statement block")), Sym(Symbol.Nonterminal("right paren"))]), Alternative([Sym(Symbol.Nonterminal("nested query specification"))])]
    ensures ParseMoreAlternatives(ts, 16) == Parsed([Alternative([Sym(Symbol.Nonterminal("left paren")), Sym(Symbol.Nonterminal("match statement block")), Sym(Symbol.Nonterminal("right paren"))]), Alternative([Sym(Symbol.Nonterminal("nested query specification"))])], 22)
  {
    Parsed17Step11(ts);
    Parsed17Step12(ts);
  }

  /** Parser results on test_17's text, in evaluation order (part 14). */
  lemma Parsed17Step14(ts: seq<Token>)
    requires |ts| == 23 && ts[0] == BlockEnd && ts[1] == Token.Nonterminal("exists predicate") && ts[2] == Defines && ts[3] == Token.Terminal("EXISTS") && ts[4] == LBrace && ts[5] == Token.Nonterminal("left brace") && ts[6] == Token.Nonterminal("graph pattern") && ts[7] == Token.Nonterminal("right brace") && ts[8] == Bar && ts[9] == Token.Nonterminal("left paren") && ts[10] == Token.Nonterminal("graph pattern") && ts[11] == Token.Nonterminal("right paren") && ts[12] == Bar && ts[13] == Token.Nonterminal("left brace") && ts[14] == Token.Nonterminal("match statement block") && ts[15] == Token.Nonterminal("right brace") && ts[16] == Bar && ts[17] == Token.Nonterminal("left paren") && ts[18] == Token.Nonterminal("match statement block") && ts[19] == Token.Nonterminal("right paren") && ts[20] == Bar && ts[21] == Token.Nonterminal("nested query specification") && ts[22] == RBrace
    ensures [Alternative([Sym(Symbol.Nonterminal("left brace")), Sym(Symbol.Nonterminal("match statement block")), Sym(Symbol.Nonterminal("right brace"))])] + [Alternative([Sym(Symbol.Nonterminal("left paren")), Sym(Symbol.Nonterminal("match statement block")), Sym(Symbol.Nonterminal("right paren"))]), Alternative([Sym(Symbol.Nonterminal("nested query specification"))])] == [Alternative([Sym(Symbol.Nonterminal("left brace")), Sym(Symbol.Nonterminal("match statement block")), Sym(Symbol.Nonterminal("right brace"))]), Alternative([Sym(Symbol.Nonterminal("left paren")), Sym(Symbol.Nonterminal("match statement block")), Sym(Symbol.Nonterminal("right paren"))]), Alternative([Sym(Symbol.Nonterminal("nested query specification"))])]
    ensures ParseMoreAlternatives(ts, 12) == Parsed([Alternative([Sym(Symbol.Nonterminal("left brace")), Sym(Symbol.Nonterminal("match statement block")), Sym(Symbol.Nonterminal("right brace"))]), Alternative([Sym(Symbol.Nonterminal("left paren")), Sym(Symbol.Nonterminal("match statement block")), Sym(Symbol.Nonterminal("right paren"))]), Alternative([Sym(Symbol.Nonterminal("nested query specification"))])], 22)
    ensures [Alternative([Sym(Symbol.Nonterminal("left paren")), Sym(Symbol.Nonterminal("graph pattern")), Sym(Symbol.Nonterminal("right paren"))])] + [Alternative([Sym(Symbol.Nonterminal("left brace")), Sym(Symbol.Nonterminal("match statement block")), Sym(Symbol.Nonterminal("right brace"))]), Alternative([Sym(Symbol.Nonterminal("left paren")), Sym(Symbol.Nonterminal("match statement block")), Sym(Symbol.Nonterminal("right paren"))]), Alternative([Sym(Symbol.Nonterminal("nested query specification"))])] == [Alternative([Sym(Symbol.Nonterminal("left paren")), Sym(Symbol.Nonterminal("graph pattern")), Sym(Symbol.Nonterminal("right paren"))]), Alternative([Sym(Symbol.Nonterminal("left brace")), Sym(Symbol.Nonterminal("match statement block")), Sym(Symbol.Nonterminal("right brace"))]), Alternative([Sym(Symbol.Nonterminal("left paren")), Sym(Symbol.Nonterminal("match statement block")), Sym(Symbol.Nonterminal("right paren"))]), Alternative([Sym(Symbol.Nonterminal("nested query specification"))])]
    ensures ParseMoreAlternatives(ts, 8) == Parsed([Alternative([Sym(Symbol.Nonterminal("left paren")), Sym(Symbol.Nonterminal("graph pattern")), Sym(Symbol.Nonterminal("right paren"))]), Alternative([Sym(Symbol.Nonterminal("left brace")), Sym(Symbol.Nonterminal("match statement block")), Sym(Symbol.Nonterminal("right brace"))]), Alternative([Sym(Symbol.Nonterminal("left paren")), Sym(Symbol.Nonterminal("match statement block")), Sym(Symbol.Nonterminal("right paren"))]), Alternative([Sym(Symbol.Nonterminal("nested query specification"))])], 22)
  {
    Parsed17Step6(ts);
    Parsed17Step9(ts);
    Parsed17Step13(ts);
  }

  /** Parser results on test_17's text, in evaluation order (part 15). */
  lemma Parsed17Step15(ts: seq<Token>)
    requires |ts| == 23 && ts[0] == BlockEnd && ts[1] == Token.Nonterminal("exists predicate") && ts[2] == Defines && ts[3] == Token.Terminal("EXISTS") && ts[4] == LBrace && ts[5] == Token.Nonterminal("left brace") && ts[6] == Token.Nonterminal("graph pattern") && ts[7] == Token.Nonterminal("right brace") && ts[8] == Bar && ts[9] == Token.Nonterminal("left paren") && ts[10] == Token.Nonterminal("graph pattern") && ts[11] == Token.Nonterminal("right paren") && ts[12] == Bar && ts[13] == Token.Nonterminal("left brace") && ts[14] == Token.Nonterminal("match statement block") && ts[15] == Token.Nonterminal("right brace") && ts[16] == Bar && ts[17] == Token.Nonterminal("left paren") && ts[18] == Token.Nonterminal("match statement block") && ts[19] == Token.Nonterminal("right paren") && ts[20] == Bar && ts[21] == Token.Nonterminal("nested query specification") && ts[22] == RBrace
    ensures [Alternative([Sym(Symbol.Nonterminal("left brace")), Sym(Symbol.Nonterminal("graph pattern")), Sym(Symbol.Nonterminal("right brace"))])] + [Alternative([Sym(Symbol.Nonterminal("left paren")), Sym(Symbol.Nonterminal("graph pattern")), Sym(Symbol.Nonterminal("right paren"))]), Alternative([Sym(Symbol.Nonterminal("left brace")), Sym(Symbol.Nonterminal("match statement block")), Sym(Symbol.Nonterminal("right brace"))]), Alternative([Sym(Symbol.Nonterminal("left paren")), Sym(Symbol.Nonterminal("match statement block")), Sym(Symbol.Nonterminal("right paren"))]), Alternative([Sym(Symbol.Nonterminal("nested query specification"))])] == [Alternative([Sym(Symbol.Nonterminal("left brace")), Sym(Symbol.Nonterminal("graph pattern")), Sym(Symbol.Nonterminal("right brace"))]), Alternative([Sym(Symbol.Nonterminal("left paren")), Sym(Symbol.Nonterminal("graph pattern")), Sym(Symbol.Nonterminal("right paren"))]), Alternative([Sym(Symbol.Nonterminal("left brace")), Sym(Symbol.Nonterminal("match statement block")), Sym(Symbol.Nonterminal("right brace"))]), Alternative([Sym(Symbol.Nonterminal("left paren")), Sym(Symbol.Nonterminal("match statement block")), Sym(Symbol.Nonterminal("right paren"))]), Alternative([Sym(Symbol.Nonterminal("nested query specification"))])]
    ensures ParseAlternatives(ts, 5) == Parsed([Alternative([Sym(Symbol.Nonterminal("left brace")), Sym(Symbol.Nonterminal("graph pattern")), Sym(Symbol.Nonterminal("right brace"))]), Alternative([Sym(Symbol.Nonterminal("left paren")), Sym(Symbol.Nonterminal("graph pattern")), Sym(Symbol.Nonterminal("right paren"))]), Alternative([Sym(Symbol.Nonterminal("left brace")), Sym(Symbol.Nonterminal("match statement block")), Sym(Symbol.Nonterminal("right brace"))]), Alternative([Sym(Symbol.Nonterminal("left paren")), Sym(Symbol.Nonterminal("match statement block")), Sym(Symbol.Nonterminal("right paren"))]), Alternative([Sym(Symbol.Nonterminal("nested query specification"))])], 22)
    ensures ParseElement(ts, 4) == Parsed(Group([Alternative([Sym(Symbol.Nonterminal("left brace")), Sym(Symbol.Nonterminal("graph pattern")), Sym(Symbol.Nonterminal("right brace"))]), Alternative([Sym(Symbol.Nonterminal("left paren")), Sym(Symbol.Nonterminal("graph pattern")), Sym(Symbol.Nonterminal("right paren"))]), Alternative([Sym(Symbol.Nonterminal("left brace")), Sym(Symbol.Nonterminal("match statement block")), Sym(Symbol.Nonterminal("right brace"))]), Alternative([Sym(Symbol.Nonterminal("left paren")), Sym(Symbol.Nonterminal("match statement block")), Sym(Symbol.Nonterminal("right paren"))]), Alternative([Sym(Symbol.Nonterminal("nested query specification"))])]), 23)
    ensures ParseItems(ts, 23) == Parsed([], 23)
  {
    Parsed17Step4(ts);
    Parsed17Step14(ts);
  }

  /** Parser results on test_17's text, in evaluation order (part 16). */
  lemma Parsed17Step16(ts: seq<Token>)
    requires |ts| == 23 && ts[0] == BlockEnd && ts[1] == Token.Nonterminal("exists predicate") && ts[2] == Defines && ts[3] == Token.Terminal("EXISTS") && ts[4] == LBrace && ts[5] == Token.Nonterminal("left brace") && ts[6] == Token.Nonterminal("graph pattern") && ts[7] == Token.Nonterminal("right brace") && ts[8] == Bar && ts[9] == Token.Nonterminal("left paren") && ts[10] == Token.Nonterminal("graph pattern") && ts[11] == Token.Nonterminal("right paren") && ts[12] == Bar && ts[13] == Token.Nonterminal("left brace") && ts[14] == Token.Nonterminal("match statement block") && ts[15] == Token.Nonterminal("right brace") && ts[16] == Bar && ts[17] == Token.Nonterminal("left paren") && ts[18] == Token.Nonterminal("match statement block") && ts[19] == Token.Nonterminal("right paren") && ts[20] == Bar && ts[21] == Token.Nonterminal("nested query specification") && ts[22] == RBrace
    ensures [Group([Alternative([Sym(Symbol.Nonterminal("left brace")), Sym(Symbol.Nonterminal("graph pattern")), Sym(Symbol.Nonterminal("right brace"))]), Alternative([Sym(Symbol.Nonterminal("left paren")), Sym(Symbol.Nonterminal("graph pattern")), Sym(Symbol.Nonterminal("right paren"))]), Alternative([Sym(Symbol.Nonterminal("left brace")), Sym(Symbol.Nonterminal("match statement block")), Sym(Symbol.Nonterminal("right brace"))]), Alternative([Sym(Symbol.Nonterminal("left paren")), Sym(Symbol.Nonterminal("match statement block")), Sym(Symbol.Nonterminal("right paren"))]), Alternative([Sym(Symbol.Nonterminal("nested query specification"))])])] + [] == [Group([Alternative([Sym(Symbol.Nonterminal("left brace")), Sym(Symbol.Nonterminal("graph pattern")), Sym(Symbol.Nonterminal("right brace"))]), Alternative([Sym(Symbol.Nonterminal("left paren")), Sym(Symbol.Nonterminal("graph pattern")), Sym(Symbol.Nonterminal("right paren"))]), Alternative([Sym(Symbol.Nonterminal("left brace")), Sym(Symbol.Nonterminal("match statement block")), Sym(Symbol.Nonterminal("right brace"))]), Alternative([Sym(Symbol.Nonterminal("left paren")), Sym(Symbol.Nonterminal("match statement block")), Sym(Symbol.Nonterminal("right paren"))]), Alternative([Sym(Symbol.Nonterminal("nested query specification"))])])]
    ensures ParseItems(ts, 4) == Parsed([Group([Alternative([Sym(Symbol.Nonterminal("left brace")), Sym(Symbol.Nonterminal("graph pattern")), Sym(Symbol.Nonterminal("right brace"))]), Alternative([Sym(Symbol.Nonterminal("left paren")), Sym(Symbol.Nonterminal("graph pattern")), Sym(Symbol.Nonterminal("right paren"))]), Alternative([Sym(Symbol.Nonterminal("left brace")), Sym(Symbol.Nonterminal("match statement block")), Sym(Symbol.Nonterminal("right brace"))]), Alternative([Sym(Symbol.Nonterminal("left paren")), Sym(Symbol.Nonterminal("match statement block")), Sym(Symbol.Nonterminal("right paren"))]), Alternative([Sym(Symbol.Nonterminal("nested query specification"))])])], 23)
    ensures [Sym(Symbol.Terminal("EXISTS"))] + [Group([Alternative([Sym(Symbol.Nonterminal("left brace")), Sym(Symbol.Nonterminal("graph pattern")), Sym(Symbol.Nonterminal("right brace"))]), Alternative([Sym(Symbol.Nonterminal("left paren")), Sym(Symbol.Nonterminal("graph pattern")), Sym(Symbol.Nonterminal("right paren"))]), Alternative([Sym(Symbol.Nonterminal("left brace")), Sym(Symbol.Nonterminal("match statement block")), Sym(Symbol.Nonterminal("right brace"))]), Alternative([Sym(Symbol.Nonterminal("left paren")), Sym(Symbol.Nonterminal("match statement block")), Sym(Symbol.Nonterminal("right paren"))]), Alternative([Sym(Symbol.Nonterminal("nested query specification"))])])] == [Sym(Symbol.Terminal("EXISTS")), Group([Alternative([Sym(Symbol.Nonterminal("left brace")), Sym(Symbol.Nonterminal("graph pattern")), Sym(Symbol.Nonterminal("right brace"))]), Alternative([Sym(Symbol.Nonterminal("left paren")), Sym(Symbol.Nonterminal("graph pattern")), Sym(Symbol.Nonterminal("right paren"))]), Alternative([Sym(Symbol.Nonterminal("left brace")), Sym(Symbol.Nonterminal("match statement block")), Sym(Symbol.Nonterminal("right brace"))]), Alternative([Sym(Symbol.Nonterminal("left paren")), Sym(Symbol.Nonterminal("match statement block")), Sym(Symbol.Nonterminal("right paren"))]), Alternative([Sym(Symbol.Nonterminal("nested query specification"))])])]
    ensures ParseAlternative(ts, 3) == Parsed(Alternative([Sym(Symbol.Terminal("EXISTS")), Group([Alternative([Sym(Symbol.Nonterminal("left brace")), Sym(Symbol.Nonterminal("graph pattern")), Sym(Symbol.Nonterminal("right brace"))]), Alternative([Sym(Symbol.Nonterminal("left paren")), Sym(Symbol.Nonterminal("graph pattern")), Sym(Symbol.Nonterminal("right paren"))]), Alternative([Sym(Symbol.Nonterminal("left brace")), Sym(Symbol.Nonterminal("match statement block")), Sym(Symbol.Nonterminal("right brace"))]), Alternative([Sym(Symbol.Nonterminal("left paren")), Sym(Symbol.Nonterminal("match statement block")), Sym(Symbol.Nonterminal("right paren"))]), Alternative([Sym(Symbol.Nonterminal("nested query specification"))])])]), 23)
  {
    Parsed17Step1(ts);
    Parsed17Step15(ts);
  }

  /** Parser results on test_17's text, in evaluation order (part 17). */
  lemma Parsed17Step17(ts: seq<Token>)
    requires |ts| == 23 && ts[0] == BlockEnd && ts[1] == Token.Nonterminal("exists predicate") && ts[2] == Defines && ts[3] == Token.Terminal("EXISTS") && ts[4] == LBrace && ts[5] == Token.Nonterminal("left brace") && ts[6] == Token.Nonterminal("graph pattern") && ts[7] == Token.Nonterminal("right brace") && ts[8] == Bar && ts[9] == Token.Nonterminal("left paren") && ts[10] == Token.Nonterminal("graph pattern") && ts[11] == Token.Nonterminal("right paren") && ts[12] == Bar && ts[13] == Token.Nonterminal("left brace") && ts[14] == Token.Nonterminal("match statement block") && ts[15] == Token.Nonterminal("right brace") && ts[16] == Bar && ts[17] == Token.Nonterminal("left paren") && ts[18] == Token.Nonterminal("match statement block") && ts[19] == Token.Nonterminal("right paren") && ts[20] == Bar && ts[21] == Token.Nonterminal("nested query specification") && ts[22] == RBrace
    ensures ParseMoreAlternatives(ts, 23) == Parsed([], 23)
    ensures [Alternative([Sym(Symbol.Terminal("EXISTS")), Group([Alternative([Sym(Symbol.Nonterminal("left brace")), Sym(Symbol.Nonterminal("graph pattern")), Sym(Symbol.Nonterminal("right brace"))]), Alternative([Sym(Symbol.Nonterminal("left paren")), Sym(Symbol.Nonterminal("graph pattern")), Sym(Symbol.Nonterminal("right paren"))]), Alternative([Sym(Symbol.Nonterminal("left brace")), Sym(Symbol.Nonterminal("match statement block")), Sym(Symbol.Nonterminal("right brace"))]), Alternative([Sym(Symbol.Nonterminal("left paren")), Sym(Symbol.Nonterminal("match statement block")), Sym(Symbol.Nonterminal("right paren"))]), Alternative([Sym(Symbol.Nonterminal("nested query specification"))])])])] + [] == [Alternative([Sym(Symbol.Terminal("EXISTS")), Group([Alternative([Sym(Symbol.Nonterminal("left brace")), Sym(Symbol.Nonterminal("graph pattern")), Sym(Symbol.Nonterminal("right brace"))]), Alternative([Sym(Symbol.Nonterminal("left paren")), Sym(Symbol.Nonterminal("graph pattern")), Sym(Symbol.Nonterminal("right paren"))]), Alternative([Sym(Symbol.Nonterminal("left brace")), Sym(Symbol.Nonterminal("match statement block")), Sym(Symbol.Nonterminal("right brace"))]), Alternative([Sym(Symbol.Nonterminal("left paren")), Sym(Symbol.Nonterminal("match statement block")), Sym(Symbol.Nonterminal("right paren"))]), Alternative([Sym(Symbol.Nonterminal("nested query specification"))])])])]
    ensures ParseAlternatives(ts, 3) == Parsed([Alternative([Sym(Symbol.Terminal("EXISTS")), Group([Alternative([Sym(Symbol.Nonterminal("left brace")), Sym(Symbol.Nonterminal("graph pattern")), Sym(Symbol.Nonterminal("right brace"))]), Alternative([Sym(Symbol.Nonterminal("left paren")), Sym(Symbol.Nonterminal("graph pattern")), Sym(Symbol.Nonterminal("right paren"))]), Alternative([Sym(Symbol.Nonterminal("left brace")), Sym(Symbol.Nonterminal("match statement block")), Sym(Symbol.Nonterminal("right brace"))]), Alternative([Sym(Symbol.Nonterminal("left paren")), Sym(Symbol.Nonterminal("match statement block")), Sym(Symbol.Nonterminal("right paren"))]), Alternative([Sym(Symbol.Nonterminal("nested query specification"))])])])], 23)
    ensures ParseRuleBody(ts, 3) == Parsed([Alternative([Sym(Symbol.Terminal("EXISTS")), Group([Alternative([Sym(Symbol.Nonterminal("left brace")), Sym(Symbol.Nonterminal("graph pattern")), Sym(Symbol.Nonterminal("right brace"))]), Alternative([Sym(Symbol.Nonterminal("left paren")), Sym(Symbol.Nonterminal("graph pattern")), Sym(Symbol.Nonterminal("right paren"))]), Alternative([Sym(Symbol.Nonterminal("left brace")), Sym(Symbol.Nonterminal("match statement block")), Sym(Symbol.Nonterminal("right brace"))]), Alternative([Sym(Symbol.Nonterminal("left paren")), Sym(Symbol.Nonterminal("match statement block")), Sym(Symbol.Nonterminal("right paren"))]), Alternative([Sym(Symbol.Nonterminal("nested query specification"))])])])], 23)
  {
    Parsed17Step16(ts);
  }

  /** Parser results on test_17's text, in evaluation order (part 18). */
  lemma Parsed17Step18(ts: seq<Token>)
    requires |ts| == 23 && ts[0] == BlockEnd && ts[1] == Token.Nonterminal("exists predicate") && ts[2] == Defines && ts[3] == Token.Terminal("EXISTS") && ts[4] == LBrace && ts[5] == Token.Nonterminal("left brace") && ts[6] == Token.Nonterminal("graph pattern") && ts[7] == Token.Nonterminal("right brace") && ts[8] == Bar && ts[9] == Token.Nonterminal("left paren") && ts[10] == Token.Nonterminal("graph pattern") && ts[11] == Token.Nonterminal("right paren") && ts[12] == Bar && ts[13] == Token.Nonterminal("left brace") && ts[14] == Token.Nonterminal("match statement block") && ts[15] == Token.Nonterminal("right brace") && ts[16] == Bar && ts[17] == Token.Nonterminal("left paren") && ts[18] == Token.Nonterminal("match statement block") && ts[19] == Token.Nonterminal("right paren") && ts[20] == Bar && ts[21] == Token.Nonterminal("nested query specification") && ts[22] == RBrace
    ensures ParseRule(ts, 1) == Parsed(Rule("exists predicate", [Alternative([Sym(Symbol.Terminal("EXISTS")), Group([Alternative([Sym(Symbol.Nonterminal("left brace")), Sym(Symbol.Nonterminal("graph pattern")), Sym(Symbol.Nonterminal("right brace"))]), Alternative([Sym(Symbol.Nonterminal("left paren")), Sym(Symbol.Nonterminal("graph pattern")), Sym(Symbol.Nonterminal("right paren"))]), Alternative([Sym(Symbol.Nonterminal("left brace")), Sym(Symbol.Nonterminal("match statement block")), Sym(Symbol.Nonterminal("right brace"))]), Alternative([Sym(Symbol.Nonterminal("left paren")), Sym(Symbol.Nonterminal("match statement block")), Sym(Symbol.Nonterminal("right paren"))]), Alternative([Sym(Symbol.Nonterminal("nested query specification"))])])])]), 23)
    ensures ParseRules(ts, 1) == Some([Rule("exists predicate", [Alternative([Sym(Symbol.Terminal("EXISTS")), Group([Alternative([Sym(Symbol.Nonterminal("left brace")), Sym(Symbol.Nonterminal("graph pattern")), Sym(Symbol.Nonterminal("right brace"))]), Alternative([Sym(Symbol.Nonterminal("left paren")), Sym(Symbol.Nonterminal("graph pattern")), Sym(Symbol.Nonterminal("right paren"))]), Alternative([Sym(Symbol.Nonterminal("left brace")), Sym(Symbol.Nonterminal("match statement block")), Sym(Symbol.Nonterminal("right brace"))]), Alternative([Sym(Symbol.Nonterminal("left paren")), Sym(Symbol.Nonterminal("match statement block")), Sym(Symbol.Nonterminal("right paren"))]), Alternative([Sym(Symbol.Nonterminal("nested query specification"))])])])])])
  {
    Parsed17Step17(ts);
  }

  /** The rule blocks test_17's text parses to. */
  lemma Parsed17()
    ensures Parse(Text17) == Some([Rule("exists predicate", [Alternative([Sym(Symbol.Terminal("EXISTS")), Group([Alternative([Sym(Symbol.Nonterminal("left brace")), Sym(Symbol.Nonterminal("graph pattern")), Sym(Symbol.Nonterminal("right brace"))]), Alternative([Sym(Symbol.Nonterminal("left paren")), Sym(Symbol.Nonterminal("graph pattern")), Sym(Symbol.Nonterminal("right paren"))]), Alternative([Sym(Symbol.Nonterminal("left brace")), Sym(Symbol.Nonterminal("match statement block")), Sym(Symbol.Nonterminal("right brace"))]), Alternative([Sym(Symbol.Nonterminal("left paren")), Sym(Symbol.Nonterminal("match statement block")), Sym(Symbol.Nonterminal("right paren"))]), Alternative([Sym(Symbol.Nonterminal("nested query specification"))])])])])])
  {
    Text17Tokens1();
    Text17Tokens2();
    Text17Tokens3();
    Text17Tokens4();
    Text17Tokens5();
    Text17Tokens6();
    Parsed17Step1(Text17);
    Parsed17Step2(Text17);
    Parsed17Step3(Text17);
    Parsed17Step4(Text17);
    Parsed17Step5(Text17);
    Parsed17Step6(Text17);
    Parsed17Step7(Text17);
    Parsed17Step8(Text17);
    Parsed17Step9(Text17);
    Parsed17Step10(Text17);
    Parsed17Step11(Text17);
    Parsed17Step12(Text17);
    Parsed17Step13(Text17);
    Parsed17Step14(Text17);
    Parsed17Step15(Text17);
    Parsed17Step16(Text17);
    Parsed17Step17(Text17);
    Parsed17Step18(Text17);
  }

  /** test_17, block 1: its alternatives merged into its entry. */
  lemma Test17Block1Merge()
    ensures var w: Grammar := map[]; w["exists_predicate" := Lookup(w, "exists_predicate") + {["EXISTS", "left_brace", "graph_pattern", "right_brace"], ["EXISTS", "left_paren", "graph_pattern", "right_paren"], ["EXISTS", "left_brace", "match_statement_block", "right_brace"], ["EXISTS", "left_paren", "match_statement_block", "right_paren"], ["EXISTS", "nested_query_specification"]}] == map["exists_predicate" := {["EXISTS", "left_brace", "graph_pattern", "right_brace"], ["EXISTS", "left_paren", "graph_pattern", "right_paren"], ["EXISTS", "left_brace", "match_statement_block", "right_brace"], ["EXISTS", "left_paren", "match_statement_block", "right_paren"], ["EXISTS", "nested_query_specification"]}]
  {
    var w: Grammar := map[];
    assert Lookup(w, "exists_predicate") == {};
    assert {} + {["EXISTS", "left_brace", "graph_pattern", "right_brace"], ["EXISTS", "left_paren", "graph_pattern", "right_paren"], ["EXISTS", "left_brace", "match_statement_block", "right_brace"], ["EXISTS", "left_paren", "match_statement_block", "right_paren"], ["EXISTS", "nested_query_specification"]} == {["EXISTS", "left_brace", "graph_pattern", "right_brace"], ["EXISTS", "left_paren", "graph_pattern", "right_paren"], ["EXISTS", "left_brace", "match_statement_block", "right_brace"], ["EXISTS", "left_paren", "match_statement_block", "right_paren"], ["EXISTS", "nested_query_specification"]};
  }

  /** test_17: the map after block 1. */
  lemma Test17Block1()
    ensures ApplyRules(map[], [Rule("exists predicate", [Alternative([Sym(Symbol.Terminal("EXISTS")), Group([Alternative([Sym(Symbol.Nonterminal("left brace")), Sym(Symbol.Nonterminal("graph pattern")), Sym(Symbol.Nonterminal("right brace"))]), Alternative([Sym(Symbol.Nonterminal("left paren")), Sym(Symbol.Nonterminal("graph pattern")), Sym(Symbol.Nonterminal("right paren"))]), Alternative([Sym(Symbol.Nonterminal("left brace")), Sym(Symbol.Nonterminal("match statement block")), Sym(Symbol.Nonterminal("right brace"))]), Alternative([Sym(Symbol.Nonterminal("left paren")), Sym(Symbol.Nonterminal("match statement block")), Sym(Symbol.Nonterminal("right paren"))]), Alternative([Sym(Symbol.Nonterminal("nested query specification"))])])])])]) == map["exists_predicate" := {["EXISTS", "left_brace", "graph_pattern", "right_brace"], ["EXISTS", "left_paren", "graph_pattern", "right_paren"], ["EXISTS", "left_brace", "match_statement_block", "right_brace"], ["EXISTS", "left_paren", "match_statement_block", "right_paren"], ["EXISTS", "nested_query_specification"]}]
  {
    Step249();
    Step250();
    Test17Block1Merge();
    var g: Grammar := map[];
    WithNoLists(g);
    var rules := [Rule("exists predicate", [Alternative([Sym(Symbol.Terminal("EXISTS")), Group([Alternative([Sym(Symbol.Nonterminal("left brace")), Sym(Symbol.Nonterminal("graph pattern")), Sym(Symbol.Nonterminal("right brace"))]), Alternative([Sym(Symbol.Nonterminal("left paren")), Sym(Symbol.Nonterminal("graph pattern")), Sym(Symbol.Nonterminal("right paren"))]), Alternative([Sym(Symbol.Nonterminal("left brace")), Sym(Symbol.Nonterminal("match statement block")), Sym(Symbol.Nonterminal("right brace"))]), Alternative([Sym(Symbol.Nonterminal("left paren")), Sym(Symbol.Nonterminal("match statement block")), Sym(Symbol.Nonterminal("right paren"))]), Alternative([Sym(Symbol.Nonterminal("nested query specification"))])])])])];
    assert rules[..0] == [];
    var w: Grammar := map[];
    BlockStep(rules, g, {}, w, "exists_predicate", {["EXISTS", "left_brace", "graph_pattern", "right_brace"], ["EXISTS", "left_paren", "graph_pattern", "right_paren"], ["EXISTS", "left_brace", "match_statement_block", "right_brace"], ["EXISTS", "left_paren", "match_statement_block", "right_paren"], ["EXISTS", "nested_query_specification"]}, map["exists_predicate" := {["EXISTS", "left_brace", "graph_pattern", "right_brace"], ["EXISTS", "left_paren", "graph_pattern", "right_paren"], ["EXISTS", "left_brace", "match_statement_block", "right_brace"], ["EXISTS", "left_paren", "match_statement_block", "right_paren"], ["EXISTS", "nested_query_specification"]}]);
  }

  /** The map the test expects. */
  lemma Test17()
    ensures Convert(Text17) == Some(map["exists_predicate" := {["EXISTS", "left_brace", "graph_pattern", "right_brace"], ["EXISTS", "left_paren", "graph_pattern", "right_paren"], ["EXISTS", "left_brace", "match_statement_block", "right_brace"], ["EXISTS", "left_paren", "match_statement_block", "right_paren"], ["EXISTS", "nested_query_specification"]}])
  {
    Parsed17();
    Test17Block1();
  }


  // test_18, line 773 of the test file
  /** The grammar text of test_18 as its token sequence. */
  const Text18: seq<Token> := [BlockEnd, Token.Nonterminal("transaction activity"), Defines, Token.Nonterminal("start transaction command"), LBrack, Token.Nonterminal("procedure specification"), LBrack, Token.Nonterminal("end transaction command"), RBrack, RBrack]

  /** Tokens of test_18's text, four at a time. */
  lemma Text18Tokens1()
    ensures |Text18| == 10
    ensures Text18[0] == BlockEnd
    ensures Text18[1] == Token.Nonterminal("transaction activity")
    ensures Text18[2] == Defines
    ensures Text18[3] == Token.Nonterminal("start transaction command")
  {
  }

  /** Tokens of test_18's text, four at a time. */
  lemma Text18Tokens2()
    ensures Text18[4] == LBrack
    ensures Text18[5] == Token.Nonterminal("procedure specification")
    ensures Text18[6] == LBrack
    ensures Text18[7] == Token.Nonterminal("end transaction command")
  {
  }

  /** Tokens of test_18's text, four at a time. */
  lemma Text18Tokens3()
    ensures Text18[8] == RBrack
    ensures Text18[9] == RBrack
  {
  }

  /** Parser results on test_18's text, in evaluation order (part 1). */
  lemma Parsed18Step1(ts: seq<Token>)
    requires |ts| == 10 && ts[0] == BlockEnd && ts[1] == Token.Nonterminal("transaction activity") && ts[2] == Defines && ts[3] == Token.Nonterminal("start transaction command") && ts[4] == LBrack && ts[5] == Token.Nonterminal("procedure specification") && ts[6] == LBrack && ts[7] == Token.Nonterminal("end transaction command") && ts[8] == RBrack && ts[9] == RBrack
    ensures SkipBlank(ts, 1) == 1
    ensures SkipBlank(ts, 0) == 1
    ensures ParseElement(ts, 3) == Parsed(Sym(Symbol.Nonterminal("start transaction command")), 4)
    ensures ParseElement(ts, 5) == Parsed(Sym(Symbol.Nonterminal("procedure specification")), 6)
  {
  }

  /** Parser results on test_18's text, in evaluation order (part 2). */
  lemma Parsed18Step2(ts: seq<Token>)
    requires |ts| == 10 && ts[0] == BlockEnd && ts[1] == Token.Nonterminal("transaction activity") && ts[2] == Defines && ts[3] == Token.Nonterminal("start transaction command") && ts[4] == LBrack && ts[5] == Token.Nonterminal("procedure specification") && ts[6] == LBrack && ts[7] == Token.Nonterminal("end transaction command") && ts[8] == RBrack && ts[9] == RBrack
    ensures ParseElement(ts, 7) == Parsed(Sym(Symbol.Nonterminal("end transaction command")), 8)
    ensures ParseItems(ts, 8) == Parsed([], 8)
    ensures [Sym(Symbol.Nonterminal("end transaction command"))] + [] == [Sym(Symbol.Nonterminal("end transaction command"))]
    ensures ParseAlternative(ts, 7) == Parsed(Alternative([Sym(Symbol.Nonterminal("end transaction command"))]), 8)
  {
  }

  /** Parser results on test_18's text, in evaluation order (part 3). */
  lemma Parsed18Step3(ts: seq<Token>)
    requires |ts| == 10 && ts[0] == BlockEnd && ts[1] == Token.Nonterminal("transaction activity") && ts[2] == Defines && ts[3] == Token.Nonterminal("start transaction command") && ts[4] == LBrack && ts[5] == Token.Nonterminal("procedure specification") && ts[6] == LBrack && ts[7] == Token.Nonterminal("end transaction command") && ts[8] == RBrack && ts[9] == RBrack
    ensures ParseMoreAlternatives(ts, 8) == Parsed([], 8)
    ensures [Alternative([Sym(Symbol.Nonterminal("end transaction command"))])] + [] == [Alternative([Sym(Symbol.Nonterminal("end transaction command"))])]
    ensures ParseAlternatives(ts, 7) == Parsed([Alternative([Sym(Symbol.Nonterminal("end transaction command"))])], 8)
    ensures ParseElement(ts, 6) == Parsed(Opt([Alternative([Sym(Symbol.Nonterminal("end transaction command"))])]), 9)
  {
    Parsed18Step2(ts);
  }

  /** Parser results on test_18's text, in evaluation order (part 4). */
  lemma Parsed18Step4(ts: seq<Token>)
    requires |ts| == 10 && ts[0] == BlockEnd && ts[1] == Token.Nonterminal("transaction activity") && ts[2] == Defines && ts[3] == Token.Nonterminal("start transaction command") && ts[4] == LBrack && ts[5] == Token.Nonterminal("procedure specification") && ts[6] == LBrack && ts[7] == Token.Nonterminal("end transaction command") && ts[8] == RBrack && ts[9] == RBrack
    ensures ParseItems(ts, 9) == Parsed([], 9)
    ensures [Opt([Alternative([Sym(Symbol.Nonterminal("end transaction command"))])])] + [] == [Opt([Alternative([Sym(Symbol.Nonterminal("end transaction command"))])])]
    ensures ParseItems(ts, 6) == Parsed([Opt([Alternative([Sym(Symbol.Nonterminal("end transaction command"))])])], 9)
    ensures [Sym(Symbol.Nonterminal("procedure specification"))] + [Opt([Alternative([Sym(Symbol.Nonterminal("end transaction command"))])])] == [Sym(Symbol.Nonterminal("procedure specification")), Opt([Alternative([Sym(Symbol.Nonterminal("end transaction command"))])])]
  {
    Parsed18Step3(ts);
  }

  /** Parser results on test_18's text, in evaluation order (part 5). */
  lemma Parsed18Step5(ts: seq<Token>)
    requires |ts| == 10 && ts[0] == BlockEnd && ts[1] == Token.Nonterminal("transaction activity") && ts[2] == Defines && ts[3] == Token.Nonterminal("start transaction command") && ts[4] == LBrack && ts[5] == Token.Nonterminal("procedure specification") && ts[6] == LBrack && ts[7] == Token.Nonterminal("end transaction command") && ts[8] == RBrack && ts[9] == RBrack
    ensures ParseAlternative(ts, 5) == Parsed(Alternative([Sym(Symbol.Nonterminal("procedure specification")), Opt([Alternative([Sym(Symbol.Nonterminal("end transaction command"))])])]), 9)
    ensures ParseMoreAlternatives(ts, 9) == Parsed([], 9)
    ensures [Alternative([Sym(Symbol.Nonterminal("procedure specification")), Opt([Alternative([Sym(Symbol.Nonterminal("end transaction command"))])])])] + [] == [Alternative([Sym(Symbol.Nonterminal("procedure specification")), Opt([Alternative([Sym(Symbol.Nonterminal("end transaction command"))])])])]
    ensures ParseAlternatives(ts, 5) == Parsed([Alternative([Sym(Symbol.Nonterminal("procedure specification")), Opt([Alternative([Sym(Symbol.Nonterminal("end transaction command"))])])])], 9)
  {
    Parsed18Step1(ts);
    Parsed18Step4(ts);
  }

  /** Parser results on test_18's text, in evaluation order (part 6). */
  lemma Parsed18Step6(ts: seq<Token>)
    requires |ts| == 10 && ts[0] == BlockEnd && ts[1] == Token.Nonterminal("transaction activity") && ts[2] == Defines && ts[3] == Token.Nonterminal("start transaction command") && ts[4] == LBrack && ts[5] == Token.Nonterminal("procedure specification") && ts[6] == LBrack && ts[7] == Token.Nonterminal("end transaction command") && ts[8] == RBrack && ts[9] == RBrack
    ensures ParseElement(ts, 4) == Parsed(Opt([Alternative([Sym(Symbol.Nonterminal("procedure specification")), Opt([Alternative([Sym(Symbol.Nonterminal("end transaction command"))])])])]), 10)
    ensures ParseItems(ts, 10) == Parsed([], 10)
    ensures [Opt([Alternative([Sym(Symbol.Nonterminal("procedure specification")), Opt([Alternative([Sym(Symbol.Nonterminal("end transaction command"))])])])])] + [] == [Opt([Alternative([Sym(Symbol.Nonterminal("procedure specification")), Opt([Alternative([Sym(Symbol.Nonterminal("end transaction command"))])])])])]
    ensures ParseItems(ts, 4) == Parsed([Opt([Alternative([Sym(Symbol.Nonterminal("procedure specification")), Opt([Alternative([Sym(Symbol.Nonterminal("end transaction command"))])])])])], 10)
  {
    Parsed18Step5(ts);
  }

  /** Parser results on test_18's text, in evaluation order (part 7). */
  lemma Parsed18Step7(ts: seq<Token>)
    requires |ts| == 10 && ts[0] == BlockEnd && ts[1] == Token.Nonterminal("transaction activity") && ts[2] == Defines && ts[3] == Token.Nonterminal("start transaction command") && ts[4] == LBrack && ts[5] == Token.Nonterminal("procedure specification") && ts[6] == LBrack && ts[7] == Token.Nonterminal("end transaction command") && ts[8] == RBrack && ts[9] == RBrack
    ensures [Sym(Symbol.Nonterminal("start transaction command"))] + [Opt([Alternative([Sym(Symbol.Nonterminal("procedure specification")), Opt([Alternative([Sym(Symbol.Nonterminal("end transaction command"))])])])])] == [Sym(Symbol.Nonterminal("start transaction command")), Opt([Alternative([Sym(Symbol.Nonterminal("procedure specification")), Opt([Alternative([Sym(Symbol.Nonterminal("end transaction command"))])])])])]
    ensures ParseAlternative(ts, 3) == Parsed(Alternative([Sym(Symbol.Nonterminal("start transaction command")), Opt([Alternative([Sym(Symbol.Nonterminal("procedure specification")), Opt([Alternative([Sym(Symbol.Nonterminal("end transaction command"))])])])])]), 10)
    ensures ParseMoreAlternatives(ts, 10) == Parsed([], 10)
    ensures [Alternative([Sym(Symbol.Nonterminal("start transaction command")), Opt([Alternative([Sym(Symbol.Nonterminal("procedure specification")), Opt([Alternative([Sym(Symbol.Nonterminal("end transaction command"))])])])])])] + [] == [Alternative([Sym(Symbol.Nonterminal("start transaction command")), Opt([Alternative([Sym(Symbol.Nonterminal("procedure specification")), Opt([Alternative([Sym(Symbol.Nonterminal("end transaction command"))])])])])])]
  {
    Parsed18Step1(ts);
    Parsed18Step6(ts);
  }

  /** Parser results on test_18's text, in evaluation order (part 8). */
  lemma Parsed18Step8(ts: seq<Token>)
    requires |ts| == 10 && ts[0] == BlockEnd && ts[1] == Token.Nonterminal("transaction activity") && ts[2] == Defines && ts[3] == Token.Nonterminal("start transaction command") && ts[4] == LBrack && ts[5] == Token.Nonterminal("procedure specification") && ts[6] == LBrack && ts[7] == Token.Nonterminal("end transaction command") && ts[8] == RBrack && ts[9] == RBrack
    ensures ParseAlternatives(ts, 3) == Parsed([Alternative([Sym(Symbol.Nonterminal("start transaction command")), Opt([Alternative([Sym(Symbol.Nonterminal("procedure specification")), Opt([Alternative([Sym(Symbol.Nonterminal("end transaction command"))])])])])])], 10)
    ensures ParseRuleBody(ts, 3) == Parsed([Alternative([Sym(Symbol.Nonterminal("start transaction command")), Opt([Alternative([Sym(Symbol.Nonterminal("procedure specification")), Opt([Alternative([Sym(Symbol.Nonterminal("end transaction command"))])])])])])], 10)
    ensures ParseRule(ts, 1) == Parsed(Rule("transaction activity", [Alternative([Sym(Symbol.Nonterminal("start transaction command")), Opt([Alternative([Sym(Symbol.Nonterminal("procedure specification")), Opt([Alternative([Sym(Symbol.Nonterminal("end transaction command"))])])])])])]), 10)
    ensures ParseRules(ts, 1) == Some([Rule("transaction activity", [Alternative([Sym(Symbol.Nonterminal("start transaction command")), Opt([Alternative([Sym(Symbol.Nonterminal("procedure specification")), Opt([Alternative([Sym(Symbol.Nonterminal("end transaction command"))])])])])])])])
  {
    Parsed18Step7(ts);
  }

  /** The rule blocks test_18's text parses to. */
  lemma Parsed18()
    ensures Parse(Text18) == Some([Rule("transaction activity", [Alternative([Sym(Symbol.Nonterminal("start transaction command")), Opt([Alternative([Sym(Symbol.Nonterminal("procedure specification")), Opt([Alternative([Sym(Symbol.Nonterminal("end transaction command"))])])])])])])])
  {
    Text18Tokens1();
    Text18Tokens2();
    Text18Tokens3();
    Parsed18Step1(Text18);
    Parsed18Step2(Text18);
    Parsed18Step3(Text18);
    Parsed18Step4(Text18);
    Parsed18Step5(Text18);
    Parsed18Step6(Text18);
    Parsed18Step7(Text18);
    Parsed18Step8(Text18);
  }

  /** test_18, block 1: its alternatives merged into its entry. */
  lemma Test18Block1Merge()
    ensures var w: Grammar := map[]; w["transaction_activity" := Lookup(w, "transaction_activity") + {["start_transaction_command", "procedure_specification", "end_transaction_command"], ["start_transaction_command", "procedure_specification"], ["start_transaction_command"]}] == map["transaction_activity" := {["start_transaction_command", "procedure_specification", "end_transaction_command"], ["start_transaction_command", "procedure_specification"], ["start_transaction_command"]}]
  {
    var w: Grammar := map[];
    assert Lookup(w, "transaction_activity") == {};
    assert {} + {["start_transaction_command", "procedure_specification", "end_transaction_command"], ["start_transaction_command", "procedure_specification"], ["start_transaction_command"]} == {["start_transaction_command", "procedure_specification", "end_transaction_command"], ["start_transaction_command", "procedure_specification"], ["start_transaction_command"]};
  }

  /** test_18: the map after block 1. */
  lemma Test18Block1()
    ensures ApplyRules(map[], [Rule("transaction activity", [Alternative([Sym(Symbol.Nonterminal("start transaction command")), Opt([Alternative([Sym(Symbol.Nonterminal("procedure specification")), Opt([Alternative([Sym(Symbol.Nonterminal("end transaction command"))])])])])])])]) == map["transaction_activity" := {["start_transaction_command", "procedure_specification", "end_transaction_command"], ["start_transaction_command", "procedure_specification"], ["start_transaction_command"]}]
  {
    Step268();
    Step269();
    Test18Block1Merge();
    var g: Grammar := map[];
    WithNoLists(g);
    var rules := [Rule("transaction activity", [Alternative([Sym(Symbol.Nonterminal("start transaction command")), Opt([Alternative([Sym(Symbol.Nonterminal("procedure specification")), Opt([Alternative([Sym(Symbol.Nonterminal("end transaction command"))])])])])])])];
    assert rules[..0] == [];
    var w: Grammar := map[];
    BlockStep(rules, g, {}, w, "transaction_activity", {["start_transaction_command", "procedure_specification", "end_transaction_command"], ["start_transaction_command", "procedure_specification"], ["start_transaction_command"]}, map["transaction_activity" := {["start_transaction_command", "procedure_specification", "end_transaction_command"], ["start_transaction_command", "procedure_specification"], ["start_transaction_command"]}]);
  }

  /** The map the test expects. */
  lemma Test18()
    ensures Convert(Text18) == Some(map["transaction_activity" := {["start_transaction_command", "procedure_specification", "end_transaction_command"], ["start_transaction_command", "procedure_specification"], ["start_transaction_command"]}])
  {
    Parsed18();
    Test18Block1();
  }


  // test_19, line 809 of the test file
  /** The grammar text of test_19 as its token sequence. */
  const Text19: seq<Token> := [BlockEnd, Token.Nonterminal("session set command"), Defines, Token.Terminal("SESSION"), Token.Terminal("SET"), LBrace, Token.Nonterminal("session set schema clause"), Bar, Token.Nonterminal("session set graph clause"), Bar, Token.Nonterminal("session set time zone clause"), Bar, Token.Nonterminal("session set parameter clause"), RBrace]

  /** Tokens of test_19's text, four at a time. */
  lemma Text19Tokens1()
    ensures |Text19| == 14
    ensures Text19[0] == BlockEnd
    ensures Text19[1] == Token.Nonterminal("session set command")
    ensures Text19[2] == Defines
    ensures Text19[3] == Token.Terminal("SESSION")
  {
  }

  /** Tokens of test_19's text, four at a time. */
  lemma Text19Tokens2()
    ensures Text19[4] == Token.Terminal("SET")
    ensures Text19[5] == LBrace
    ensures Text19[6] == Token.Nonterminal("session set schema clause")
    ensures Text19[7] == Bar
  {
  }

  /** Tokens of test_19's text, four at a time. */
  lemma Text19Tokens3()
    ensures Text19[8] == Token.Nonterminal("session set graph clause")
    ensures Text19[9] == Bar
    ensures Text19[10] == Token.Nonterminal("session set time zone clause")
    ensures Text19[11] == Bar
  {
  }

  /** Tokens of test_19's text, four at a time. */
  lemma Text19Tokens4()
    ensures Text19[12] == Token.Nonterminal("session set parameter clause")
    ensures Text19[13] == RBrace
  {
  }

  /** Parser results on test_19's text, in evaluation order (part 1). */
  lemma Parsed19Step1(ts: seq<Token>)
    requires |ts| == 14 && ts[0] == BlockEnd && ts[1] == Token.Nonterminal("session set command") && ts[2] == Defines && ts[3] == Token.Terminal("SESSION") && ts[4] == Token.Terminal("SET") && ts[5] == LBrace && ts[6] == Token.Nonterminal("session set schema clause") && ts[7] == Bar && ts[8] == Token.Nonterminal("session set graph clause") && ts[9] == Bar && ts[10] == Token.Nonterminal("session set time zone clause") && ts[11] == Bar && ts[12] == Token.Nonterminal("session set parameter clause") && ts[13] == RBrace
    ensures SkipBlank(ts, 1) == 1
    ensures SkipBlank(ts, 0) == 1
    ensures ParseElement(ts, 3) == Parsed(Sym(Symbol.Terminal("SESSION")), 4)
    ensures ParseElement(ts, 4) == Parsed(Sym(Symbol.Terminal("SET")), 5)
  {
  }

  /** Parser results on test_19's text, in evaluation order (part 2). */
  lemma Parsed19Step2(ts: seq<Token>)
    requires |ts| == 14 && ts[0] == BlockEnd && ts[1] == Token.Nonterminal("session set command") && ts[2] == Defines && ts[3] == Token.Terminal("SESSION") && ts[4] == Token.Terminal("SET") && ts[5] == LBrace && ts[6] == Token.Nonterminal("session set schema clause") && ts[7] == Bar && ts[8] == Token.Nonterminal("session set graph clause") && ts[9] == Bar && ts[10] == Token.Nonterminal("session set time zone clause") && ts[11] == Bar && ts[12] == Token.Nonterminal("session set parameter clause") && ts[13] == RBrace
    ensures ParseElement(ts, 6) == Parsed(Sym(Symbol.Nonterminal("session set schema clause")), 7)
    ensures ParseItems(ts, 7) == Parsed([], 7)
    ensures [Sym(Symbol.Nonterminal("session set schema clause"))] + [] == [Sym(Symbol.Nonterminal("session set schema clause"))]
    ensures ParseAlternative(ts, 6) == Parsed(Alternative([Sym(Symbol.Nonterminal("session set schema clause"))]), 7)
  {
  }

  /** Parser results on test_19's text, in evaluation order (part 3). */
  lemma Parsed19Step3(ts: seq<Token>)
    requires |ts| == 14 && ts[0] == BlockEnd && ts[1] == Token.Nonterminal("session set command") && ts[2] == Defines && ts[3] == Token.Terminal("SESSION") && ts[4] == Token.Terminal("SET") && ts[5] == LBrace && ts[6] == Token.Nonterminal("session set schema clause") && ts[7] == Bar && ts[8] == Token.Nonterminal("session set graph clause") && ts[9] == Bar && ts[10] == Token.Nonterminal("session set time zone clause") && ts[11] == Bar && ts[12] == Token.Nonterminal("session set parameter clause") && ts[13] == RBrace
    ensures ParseElement(ts, 8) == Parsed(Sym(Symbol.Nonterminal("session set graph clause")), 9)
    ensures ParseItems(ts, 9) == Parsed([], 9)
    ensures [Sym(Symbol.Nonterminal("session set graph clause"))] + [] == [Sym(Symbol.Nonterminal("session set graph clause"))]
    ensures ParseAlternative(ts, 8) == Parsed(Alternative([Sym(Symbol.Nonterminal("session set graph clause"))]), 9)
  {
  }

  /** Parser results on test_19's text, in evaluation order (part 4). */
  lemma Parsed19Step4(ts: seq<Token>)
    requires |ts| == 14 && ts[0] == BlockEnd && ts[1] == Token.Nonterminal("session set command") && ts[2] == Defines && ts[3] == Token.Terminal("SESSION") && ts[4] == Token.Terminal("SET") && ts[5] == LBrace && ts[6] == Token.Nonterminal("session set schema clause") && ts[7] == Bar && ts[8] == Token.Nonterminal("session set graph clause") && ts[9] == Bar && ts[10] == Token.Nonterminal("session set time zone clause") && ts[11] == Bar && ts[12] == Token.Nonterminal("session set parameter clause") && ts[13] == RBrace
    ensures ParseElement(ts, 10) == Parsed(Sym(Symbol.Nonterminal("session set time zone clause")), 11)
    ensures ParseItems(ts, 11) == Parsed([], 11)
    ensures [Sym(Symbol.Nonterminal("session set time zone clause"))] + [] == [Sym(Symbol.Nonterminal("session set time zone clause"))]
    ensures ParseAlternative(ts, 10) == Parsed(Alternative([Sym(Symbol.Nonterminal("session set time zone clause"))]), 11)
  {
  }

  /** Parser results on test_19's text, in evaluation order (part 5). */
  lemma Parsed19Step5(ts: seq<Token>)
    requires |ts| == 14 && ts[0] == BlockEnd && ts[1] == Token.Nonterminal("session set command") && ts[2] == Defines && ts[3] == Token.Terminal("SESSION") && ts[4] == Token.Terminal("SET") && ts[5] == LBrace && ts[6] == Token.Nonterminal("session set schema clause") && ts[7] == Bar && ts[8] == Token.Nonterminal("session set graph clause") && ts[9] == Bar && ts[10] == Token.Nonterminal("session set time zone clause") && ts[11] == Bar && ts[12] == Token.Nonterminal("session set parameter clause") && ts[13] == RBrace
    ensures ParseElement(ts, 12) == Parsed(Sym(Symbol.Nonterminal("session set parameter clause")), 13)
    ensures ParseItems(ts, 13) == Parsed([], 13)
    ensures [Sym(Symbol.Nonterminal("session set parameter clause"))] + [] == [Sym(Symbol.Nonterminal("session set parameter clause"))]
    ensures ParseAlternative(ts, 12) == Parsed(Alternative([Sym(Symbol.Nonterminal("session set parameter clause"))]), 13)
  {
  }

  /** Parser results on test_19's text, in evaluation order (part 6). */
  lemma Parsed19Step6(ts: seq<Token>)
    requires |ts| == 14 && ts[0] == BlockEnd && ts[1] == Token.Nonterminal("session set command") && ts[2] == Defines && ts[3] == Token.Terminal("SESSION") && ts[4] == Token.Terminal("SET") && ts[5] == LBrace && ts[6] == Token.Nonterminal("session set schema clause") && ts[7] == Bar && ts[8] == Token.Nonterminal("session set graph clause") && ts[9] == Bar && ts[10] == Token.Nonterminal("session set time zone clause") && ts[11] == Bar && ts[12] == Token.Nonterminal("session set parameter clause") && ts[13] == RBrace
    ensures ParseMoreAlternatives(ts, 13) == Parsed([], 13)
    ensures [Alternative([Sym(Symbol.Nonterminal("session set parameter clause"))])] + [] == [Alternative([Sym(Symbol.Nonterminal("session set parameter clause"))])]
    ensures ParseMoreAlternatives(ts, 11) == Parsed([Alternative([Sym(Symbol.Nonterminal("session set parameter clause"))])], 13)
    ensures [Alternative([Sym(Symbol.Nonterminal("session set time zone clause"))])] + [Alternative([Sym(Symbol.Nonterminal("session set parameter clause"))])] == [Alternative([Sym(Symbol.Nonterminal("session set time zone clause"))]), Alternative([Sym(Symbol.Nonterminal("session set parameter clause"))])]
  {
    Parsed19Step5(ts);
  }

  /** Parser results on test_19's text, in evaluation order (part 7). */
  lemma Parsed19Step7(ts: seq<Token>)
    requires |ts| == 14 && ts[0] == BlockEnd && ts[1] == Token.Nonterminal("session set command") && ts[2] == Defines && ts[3] == Token.Terminal("SESSION") && ts[4] == Token.Terminal("SET") && ts[5] == LBrace && ts[6] == Token.Nonterminal("session set schema clause") && ts[7] == Bar && ts[8] == Token.Nonterminal("session set graph clause") && ts[9] == Bar && ts[10] == Token.Nonterminal("session set time zone clause") && ts[11] == Bar && ts[12] == Token.Nonterminal("session set parameter clause") && ts[13] == RBrace
    ensures ParseMoreAlternatives(ts, 9) == Parsed([Alternative([Sym(Symbol.Nonterminal("session set time zone clause"))]), Alternative([Sym(Symbol.Nonterminal("session set parameter clause"))])], 13)
    ensures [Alternative([Sym(Symbol.Nonterminal("session set graph clause"))])] + [Alternative([Sym(Symbol.Nonterminal("session set time zone clause"))]), Alternative([Sym(Symbol.Nonterminal("session set parameter clause"))])] == [Alternative([Sym(Symbol.Nonterminal("session set graph clause"))]), Alternative([Sym(Symbol.Nonterminal("session set time zone clause"))]), Alternative([Sym(Symbol.Nonterminal("session set parameter clause"))])]
    ensures ParseMoreAlternatives(ts, 7) == Parsed([Alternative([Sym(Symbol.Nonterminal("session set graph clause"))]), Alternative([Sym(Symbol.Nonterminal("session set time zone clause"))]), Alternative([Sym(Symbol.Nonterminal("session set parameter clause"))])], 13)
    ensures [Alternative([Sym(Symbol.Nonterminal("session set schema clause"))])] + [Alternative([Sym(Symbol.Nonterminal("session set graph clause"))]), Alternative([Sym(Symbol.Nonterminal("session set time zone clause"))]), Alternative([Sym(Symbol.Nonterminal("session set parameter clause"))])] == [Alternative([Sym(Symbol.Nonterminal("session set schema clause"))]), Alternative([Sym(Symbol.Nonterminal("session set graph clause"))]), Alternative([Sym(Symbol.Nonterminal("session set time zone clause"))]), Alternative([Sym(Symbol.Nonterminal("session set parameter clause"))])]
  {
    Parsed19Step3(ts);
    Parsed19Step4(ts);
    Parsed19Step6(ts);
  }

  /** Parser results on test_19's text, in evaluation order (part 8). */
  lemma Parsed19Step8(ts: seq<Token>)
    requires |ts| == 14 && ts[0] == BlockEnd && ts[1] == Token.Nonterminal("session set command") && ts[2] == Defines && ts[3] == Token.Terminal("SESSION") && ts[4] == Token.Terminal("SET") && ts[5] == LBrace && ts[6] == Token.Nonterminal("session set schema clause") && ts[7] == Bar && ts[8] == Token.Nonterminal("session set graph clause") && ts[9] == Bar && ts[10] == Token.Nonterminal("session set time zone clause") && ts[11] == Bar && ts[12] == Token.Nonterminal("session set parameter clause") && ts[13] == RBrace
    ensures ParseAlternatives(ts, 6) == Parsed([Alternative([Sym(Symbol.Nonterminal("session set schema clause"))]), Alternative([Sym(Symbol.Nonterminal("session set graph clause"))]), Alternative([Sym(Symbol.Nonterminal("session set time zone clause"))]), Alternative([Sym(Symbol.Nonterminal("session set parameter clause"))])], 13)
    ensures ParseElement(ts, 5) == Parsed(Group([Alternative([Sym(Symbol.Nonterminal("session set schema clause"))]), Alternative([Sym(Symbol.Nonterminal("session set graph clause"))]), Alternative([Sym(Symbol.Nonterminal("session set time zone clause"))]), Alternative([Sym(Symbol.Nonterminal("session set parameter clause"))])]), 14)
    ensures ParseItems(ts, 14) == Parsed([], 14)
    ensures [Group([Alternative([Sym(Symbol.Nonterminal("session set schema clause"))]), Alternative([Sym(Symbol.Nonterminal("session set graph clause"))]), Alternative([Sym(Symbol.Nonterminal("session set time zone clause"))]), Alternative([Sym(Symbol.Nonterminal("session set parameter clause"))])])] + [] == [Group([Alternative([Sym(Symbol.Nonterminal("session set schema clause"))]), Alternative([Sym(Symbol.Nonterminal("session set graph clause"))]), Alternative([Sym(Symbol.Nonterminal("session set time zone clause"))]), Alternative([Sym(Symbol.Nonterminal("session set parameter clause"))])])]
  {
    Parsed19Step2(ts);
    Parsed19Step7(ts);
  }

  /** Parser results on test_19's text, in evaluation order (part 9). */
  lemma Parsed19Step9(ts: seq<Token>)
    requires |ts| == 14 && ts[0] == BlockEnd && ts[1] == Token.Nonterminal("session set command") && ts[2] == Defines && ts[3] == Token.Terminal("SESSION") && ts[4] == Token.Terminal("SET") && ts[5] == LBrace && ts[6] == Token.Nonterminal("session set schema clause") && ts[7] == Bar && ts[8] == Token.Nonterminal("session set graph clause") && ts[9] == Bar && ts[10] == Token.Nonterminal("session set time zone clause") && ts[11] == Bar && ts[12] == Token.Nonterminal("session set parameter clause") && ts[13] == RBrace
    ensures ParseItems(ts, 5) == Parsed([Group([Alternative([Sym(Symbol.Nonterminal("session set schema clause"))]), Alternative([Sym(Symbol.Nonterminal("session set graph clause"))]), Alternative([Sym(Symbol.Nonterminal("session set time zone clause"))]), Alternative([Sym(Symbol.Nonterminal("session set parameter clause"))])])], 14)
    ensures [Sym(Symbol.Terminal("SET"))] + [Group([Alternative([Sym(Symbol.Nonterminal("session set schema clause"))]), Alternative([Sym(Symbol.Nonterminal("session set graph clause"))]), Alternative([Sym(Symbol.Nonterminal("session set time zone clause"))]), Alternative([Sym(Symbol.Nonterminal("session set parameter clause"))])])] == [Sym(Symbol.Terminal("SET")), Group([Alternative([Sym(Symbol.Nonterminal("session set schema clause"))]), Alternative([Sym(Symbol.Nonterminal("session set graph clause"))]), Alternative([Sym(Symbol.Nonterminal("session set time zone clause"))]), Alternative([Sym(Symbol.Nonterminal("session set parameter clause"))])])]
    ensures ParseItems(ts, 4) == Parsed([Sym(Symbol.Terminal("SET")), Group([Alternative([Sym(Symbol.Nonterminal("session set schema clause"))]), Alternative([Sym(Symbol.Nonterminal("session set graph clause"))]), Alternative([Sym(Symbol.Nonterminal("session set time zone clause"))]), Alternative([Sym(Symbol.Nonterminal("session set parameter clause"))])])], 14)
    ensures [Sym(Symbol.Terminal("SESSION"))] + [Sym(Symbol.Terminal("SET")), Group([Alternative([Sym(Symbol.Nonterminal("session set schema clause"))]), Alternative([Sym(Symbol.Nonterminal("session set graph clause"))]), Alternative([Sym(Symbol.Nonterminal("session set time zone clause"))]), Alternative([Sym(Symbol.Nonterminal("session set parameter clause"))])])] == [Sym(Symbol.Terminal("SESSION")), Sym(Symbol.Terminal("SET")), Group([Alternative([Sym(Symbol.Nonterminal("session set schema clause"))]), Alternative([Sym(Symbol.Nonterminal("session set graph clause"))]), Alternative([Sym(Symbol.Nonterminal("session set time zone clause"))]), Alternative([Sym(Symbol.Nonterminal("session set parameter clause"))])])]
  {
    Parsed19Step1(ts);
    Parsed19Step8(ts);
  }

  /** Parser results on test_19's text, in evaluation order (part 10). */
  lemma Parsed19Step10(ts: seq<Token>)
    requires |ts| == 14 && ts[0] == BlockEnd && ts[1] == Token.Nonterminal("session set command") && ts[2] == Defines && ts[3] == Token.Terminal("SESSION") && ts[4] == Token.Terminal("SET") && ts[5] == LBrace && ts[6] == Token.Nonterminal("session set schema clause") && ts[7] == Bar && ts[8] == Token.Nonterminal("session set graph clause") && ts[9] == Bar && ts[10] == Token.Nonterminal("session set time zone clause") && ts[11] == Bar && ts[12] == Token.Nonterminal("session set parameter clause") && ts[13] == RBrace
    ensures ParseAlternative(ts, 3) == Parsed(Alternative([Sym(Symbol.Terminal("SESSION")), Sym(Symbol.Terminal("SET")), Group([Alternative([Sym(Symbol.Nonterminal("session set schema clause"))]), Alternative([Sym(Symbol.Nonterminal("session set graph clause"))]), Alternative([Sym(Symbol.Nonterminal("session set time zone clause"))]), Alternative([Sym(Symbol.Nonterminal("session set parameter clause"))])])]), 14)
    ensures ParseMoreAlternatives(ts, 14) == Parsed([], 14)
    ensures [Alternative([Sym(Symbol.Terminal("SESSION")), Sym(Symbol.Terminal("SET")), Group([Alternative([Sym(Symbol.Nonterminal("session set schema clause"))]), Alternative([Sym(Symbol.Nonterminal("session set graph clause"))]), Alternative([Sym(Symbol.Nonterminal("session set time zone clause"))]), Alternative([Sym(Symbol.Nonterminal("session set parameter clause"))])])])] + [] == [Alternative([Sym(Symbol.Terminal("SESSION")), Sym(Symbol.Terminal("SET")), Group([Alternative([Sym(Symbol.Nonterminal("session set schema clause"))]), Alternative([Sym(Symbol.Nonterminal("session set graph clause"))]), Alternative([Sym(Symbol.Nonterminal("session set time zone clause"))]), Alternative([Sym(Symbol.Nonterminal("session set parameter clause"))])])])]
    ensures ParseAlternatives(ts, 3) == Parsed([Alternative([Sym(Symbol.Terminal("SESSION")), Sym(Symbol.Terminal("SET")), Group([Alternative([Sym(Symbol.Nonterminal("session set schema clause"))]), Alternative([Sym(Symbol.Nonterminal("session set graph clause"))]), Alternative([Sym(Symbol.Nonterminal("session set time zone clause"))]), Alternative([Sym(Symbol.Nonterminal("session set parameter clause"))])])])], 14)
  {
    Parsed19Step1(ts);
    Parsed19Step9(ts);
  }

  /** Parser results on test_19's text, in evaluation order (part 11). */
  lemma Parsed19Step11(ts: seq<Token>)
    requires |ts| == 14 && ts[0] == BlockEnd && ts[1] == Token.Nonterminal("session set command") && ts[2] == Defines && ts[3] == Token.Terminal("SESSION") && ts[4] == Token.Terminal("SET") && ts[5] == LBrace && ts[6] == Token.Nonterminal("session set schema clause") && ts[7] == Bar && ts[8] == Token.Nonterminal("session set graph clause") && ts[9] == Bar && ts[10] == Token.Nonterminal("session set time zone clause") && ts[11] == Bar && ts[12] == Token.Nonterminal("session set parameter clause") && ts[13] == RBrace
    ensures ParseRuleBody(ts, 3) == Parsed([Alternative([Sym(Symbol.Terminal("SESSION")), Sym(Symbol.Terminal("SET")), Group([Alternative([Sym(Symbol.Nonterminal("session set schema clause"))]), Alternative([Sym(Symbol.Nonterminal("session set graph clause"))]), Alternative([Sym(Symbol.Nonterminal("session set time zone clause"))]), Alternative([Sym(Symbol.Nonterminal("session set parameter clause"))])])])], 14)
    ensures ParseRule(ts, 1) == Parsed(Rule("session set command", [Alternative([Sym(Symbol.Terminal("SESSION")), Sym(Symbol.Terminal("SET")), Group([Alternative([Sym(Symbol.Nonterminal("session set schema clause"))]), Alternative([Sym(Symbol.Nonterminal("session set graph clause"))]), Alternative([Sym(Symbol.Nonterminal("session set time zone clause"))]), Alternative([Sym(Symbol.Nonterminal("session set parameter clause"))])])])]), 14)
    ensures ParseRules(ts, 1) == Some([Rule("session set command", [Alternative([Sym(Symbol.Terminal("SESSION")), Sym(Symbol.Terminal("SET")), Group([Alternative([Sym(Symbol.Nonterminal("session set schema clause"))]), Alternative([Sym(Symbol.Nonterminal("session set graph clause"))]), Alternative([Sym(Symbol.Nonterminal("session set time zone clause"))]), Alternative([Sym(Symbol.Nonterminal("session set parameter clause"))])])])])])
  {
    Parsed19Step10(ts);
  }

  /** The rule blocks test_19's text parses to. */
  lemma Parsed19()
    ensures Parse(Text19) == Some([Rule("session set command", [Alternative([Sym(Symbol.Terminal("SESSION")), Sym(Symbol.Terminal("SET")), Group([Alternative([Sym(Symbol.Nonterminal("session set schema clause"))]), Alternative([Sym(Symbol.Nonterminal("session set graph clause"))]), Alternative([Sym(Symbol.Nonterminal("session set time zone clause"))]), Alternative([Sym(Symbol.Nonterminal("session set parameter clause"))])])])])])
  {
    Text19Tokens1();
    Text19Tokens2();
    Text19Tokens3();
    Text19Tokens4();
    Parsed19Step1(Text19);
    Parsed19Step2(Text19);
    Parsed19Step3(Text19);
    Parsed19Step4(Text19);
    Parsed19Step5(Text19);
    Parsed19Step6(Text19);
    Parsed19Step7(Text19);
    Parsed19Step8(Text19);
    Parsed19Step9(Text19);
    Parsed19Step10(Text19);
    Parsed19Step11(Text19);
  }

  /** test_19, block 1: its alternatives merged into its entry. */
  lemma Test19Block1Merge()
    ensures var w: Grammar := map[]; w["session_set_command" := Lookup(w, "session_set_command") + {["SESSION", "SET", "session_set_schema_clause"], ["SESSION", "SET", "session_set_graph_clause"], ["SESSION", "SET", "session_set_time_zone_clause"], ["SESSION", "SET", "session_set_parameter_clause"]}] == map["session_set_command" := {["SESSION", "SET", "session_set_schema_clause"], ["SESSION", "SET", "session_set_graph_clause"], ["SESSION", "SET", "session_set_time_zone_clause"], ["SESSION", "SET", "session_set_parameter_clause"]}]
  {
    var w: Grammar := map[];
    assert Lookup(w, "session_set_command") == {};
    assert {} + {["SESSION", "SET", "session_set_schema_clause"], ["SESSION", "SET", "session_set_graph_clause"], ["SESSION", "SET", "session_set_time_zone_clause"], ["SESSION", "SET", "session_set_parameter_clause"]} == {["SESSION", "SET", "session_set_schema_clause"], ["SESSION", "SET", "session_set_graph_clause"], ["SESSION", "SET", "session_set_time_zone_clause"], ["SESSION", "SET", "session_set_parameter_clause"]};
  }

  /** test_19: the map after block 1. */
  lemma Test19Block1()
    ensures ApplyRules(map[], [Rule("session set command", [Alternative([Sym(Symbol.Terminal("SESSION")), Sym(Symbol.Terminal("SET")), Group([Alternative([Sym(Symbol.Nonterminal("session set schema clause"))]), Alternative([Sym(Symbol.Nonterminal("session set graph clause"))]), Alternative([Sym(Symbol.Nonterminal("session set time zone clause"))]), Alternative([Sym(Symbol.Nonterminal("session set parameter clause"))])])])])]) == map["session_set_command" := {["SESSION", "SET", "session_set_schema_clause"], ["SESSION", "SET", "session_set_graph_clause"], ["SESSION", "SET", "session_set_time_zone_clause"], ["SESSION", "SET", "session_set_parameter_clause"]}]
  {
    Step293();
    Step294();
    Test19Block1Merge();
    var g: Grammar := map[];
    WithNoLists(g);
    var rules := [Rule("session set command", [Alternative([Sym(Symbol.Terminal("SESSION")), Sym(Symbol.Terminal("SET")), Group([Alternative([Sym(Symbol.Nonterminal("session set schema clause"))]), Alternative([Sym(Symbol.Nonterminal("session set graph clause"))]), Alternative([Sym(Symbol.Nonterminal("session set time zone clause"))]), Alternative([Sym(Symbol.Nonterminal("session set parameter clause"))])])])])];
    assert rules[..0] == [];
    var w: Grammar := map[];
    BlockStep(rules, g, {}, w, "session_set_command", {["SESSION", "SET", "session_set_schema_clause"], ["SESSION", "SET", "session_set_graph_clause"], ["SESSION", "SET", "session_set_time_zone_clause"], ["SESSION", "SET", "session_set_parameter_clause"]}, map["session_set_command" := {["SESSION", "SET", "session_set_schema_clause"], ["SESSION", "SET", "session_set_graph_clause"], ["SESSION", "SET", "session_set_time_zone_clause"], ["SESSION", "SET", "session_set_parameter_clause"]}]);
  }

  /** The map the test expects. */
  lemma Test19()
    ensures Convert(Text19) == Some(map["session_set_command" := {["SESSION", "SET", "session_set_schema_clause"], ["SESSION", "SET", "session_set_graph_clause"], ["SESSION", "SET", "session_set_time_zone_clause"], ["SESSION", "SET", "session_set_parameter_clause"]}])
  {
    Parsed19();
    Test19Block1();
  }


  // test_20, line 848 of the test file
  /** The grammar text of test_20 as its token sequence. */
  const Text20: seq<Token> := [BlockEnd, Token.Nonterminal("single quoted character representation"), Defines, Token.Nonterminal("character representation"), Bar, Token.Nonterminal("double single quote"), Comment("See the Syntax Rules.")]

  /** Tokens of test_20's text, four at a time. */
  lemma Text20Tokens1()
    ensures |Text20| == 7
    ensures Text20[0] == BlockEnd
    ensures Text20[1] == Token.Nonterminal("single quoted character representation")
    ensures Text20[2] == Defines
    ensures Text20[3] == Token.Nonterminal("character representation")
  {
  }

  /** Tokens of test_20's text, four at a time. */
  lemma Text20Tokens2()
    ensures Text20[4] == Bar
    ensures Text20[5] == Token.Nonterminal("double single quote")
    ensures Text20[6] == Comment("See the Syntax Rules.")
  {
  }

  /** Parser results on test_20's text, in evaluation order (part 1). */
  lemma Parsed20Step1(ts: seq<Token>)
    requires |ts| == 7 && ts[0] == BlockEnd && ts[1] == Token.Nonterminal("single quoted character representation") && ts[2] == Defines && ts[3] == Token.Nonterminal("character representation") && ts[4] == Bar && ts[5] == Token.Nonterminal("double single quote") && ts[6] == Comment("See the Syntax Rules.")
    ensures SkipBlank(ts, 1) == 1
    ensures SkipBlank(ts, 0) == 1
    ensures ParseElement(ts, 3) == Parsed(Sym(Symbol.Nonterminal("character representation")), 4)
    ensures ParseItems(ts, 4) == Parsed([], 4)
  {
  }

  /** Parser results on test_20's text, in evaluation order (part 2). */
  lemma Parsed20Step2(ts: seq<Token>)
    requires |ts| == 7 && ts[0] == BlockEnd && ts[1] == Token.Nonterminal("single quoted character representation") && ts[2] == Defines && ts[3] == Token.Nonterminal("character representation") && ts[4] == Bar && ts[5] == Token.Nonterminal("double single quote") && ts[6] == Comment("See the Syntax Rules.")
    ensures [Sym(Symbol.Nonterminal("character representation"))] + [] == [Sym(Symbol.Nonterminal("character representation"))]
    ensures ParseAlternative(ts, 3) == Parsed(Alternative([Sym(Symbol.Nonterminal("character representation"))]), 4)
    ensures ParseElement(ts, 5) == Parsed(Sym(Symbol.Nonterminal("double single quote")), 6)
    ensures ParseItems(ts, 7) == Parsed([], 7)
  {
    Parsed20Step1(ts);
  }

  /** Parser results on test_20's text, in evaluation order (part 3). */
  lemma Parsed20Step3(ts: seq<Token>)
    requires |ts| == 7 && ts[0] == BlockEnd && ts[1] == Token.Nonterminal("single quoted character representation") && ts[2] == Defines && ts[3] == Token.Nonterminal("character representation") && ts[4] == Bar && ts[5] == Token.Nonterminal("double single quote") && ts[6] == Comment("See the Syntax Rules.")
    ensures ParseItems(ts, 6) == Parsed([], 7)
    ensures [Sym(Symbol.Nonterminal("double single quote"))] + [] == [Sym(Symbol.Nonterminal("double single quote"))]
    ensures ParseAlternative(ts, 5) == Parsed(Alternative([Sym(Symbol.Nonterminal("double single quote"))]), 7)
    ensures ParseMoreAlternatives(ts, 7) == Parsed([], 7)
  {
    Parsed20Step2(ts);
  }

  /** Parser results on test_20's text, in evaluation order (part 4). */
  lemma Parsed20Step4(ts: seq<Token>)
    requires |ts| == 7 && ts[0] == BlockEnd && ts[1] == Token.Nonterminal("single quoted character representation") && ts[2] == Defines && ts[3] == Token.Nonterminal("character representation") && ts[4] == Bar && ts[5] == Token.Nonterminal("double single quote") && ts[6] == Comment("See the Syntax Rules.")
    ensures [Alternative([Sym(Symbol.Nonterminal("double single quote"))])] + [] == [Alternative([Sym(Symbol.Nonterminal("double single quote"))])]
    ensures ParseMoreAlternatives(ts, 4) == Parsed([Alternative([Sym(Symbol.Nonterminal("double single quote"))])], 7)
    ensures [Alternative([Sym(Symbol.Nonterminal("character representation"))])] + [Alternative([Sym(Symbol.Nonterminal("double single quote"))])] == [Alternative([Sym(Symbol.Nonterminal("character representation"))]), Alternative([Sym(Symbol.Nonterminal("double single quote"))])]
    ensures ParseAlternatives(ts, 3) == Parsed([Alternative([Sym(Symbol.Nonterminal("character representation"))]), Alternative([Sym(Symbol.Nonterminal("double single quote"))])], 7)
  {
    Parsed20Step2(ts);
    Parsed20Step3(ts);
  }

  /** Parser results on test_20's text, in evaluation order (part 5). */
  lemma Parsed20Step5(ts: seq<Token>)
    requires |ts| == 7 && ts[0] == BlockEnd && ts[1] == Token.Nonterminal("single quoted character representation") && ts[2] == Defines && ts[3] == Token.Nonterminal("character representation") && ts[4] == Bar && ts[5] == Token.Nonterminal("double single quote") && ts[6] == Comment("See the Syntax Rules.")
    ensures ParseRuleBody(ts, 3) == Parsed([Alternative([Sym(Symbol.Nonterminal("character representation"))]), Alternative([Sym(Symbol.Nonterminal("double single quote"))])], 7)
    ensures ParseRule(ts, 1) == Parsed(Rule("single quoted character representation", [Alternative([Sym(Symbol.Nonterminal("character representation"))]), Alternative([Sym(Symbol.Nonterminal("double single quote"))])]), 7)
    ensures ParseRules(ts, 1) == Some([Rule("single quoted character representation", [Alternative([Sym(Symbol.Nonterminal("character representation"))]), Alternative([Sym(Symbol.Nonterminal("double single quote"))])])])
  {
    Parsed20Step4(ts);
  }

  /** The rule blocks test_20's text parses to. */
  lemma Parsed20()
    ensures Parse(Text20) == Some([Rule("single quoted character representation", [Alternative([Sym(Symbol.Nonterminal("character representation"))]), Alternative([Sym(Symbol.Nonterminal("double single quote"))])])])
  {
    Text20Tokens1();
    Text20Tokens2();
    Parsed20Step1(Text20);
    Parsed20Step2(Text20);
    Parsed20Step3(Text20);
    Parsed20Step4(Text20);
    Parsed20Step5(Text20);
  }

  /** test_20, block 1: its alternatives merged into its entry. */
  lemma Test20Block1Merge()
    ensures var w: Grammar := map[]; w["single_quoted_character_representation" := Lookup(w, "single_quoted_character_representation") + {["character_representation"], ["double_single_quote"]}] == map["single_quoted_character_representation" := {["character_representation"], ["double_single_quote"]}]
  {
    var w: Grammar := map[];
    assert Lookup(w, "single_quoted_character_representation") == {};
    assert {} + {["character_representation"], ["double_single_quote"]} == {["character_representation"], ["double_single_quote"]};
  }

  /** test_20: the map after block 1. */
  lemma Test20Block1()
    ensures ApplyRules(map[], [Rule("single quoted character representation", [Alternative([Sym(Symbol.Nonterminal("character representation"))]), Alternative([Sym(Symbol.Nonterminal("double single quote"))])])]) == map["single_quoted_character_representation" := {["character_representation"], ["double_single_quote"]}]
  {
    Step300();
    Step301();
    Test20Block1Merge();
    var g: Grammar := map[];
    WithNoLists(g);
    var rules := [Rule("single quoted character representation", [Alternative([Sym(Symbol.Nonterminal("character representation"))]), Alternative([Sym(Symbol.Nonterminal("double single quote"))])])];
    assert rules[..0] == [];
    var w: Grammar := map[];
    BlockStep(rules, g, {}, w, "single_quoted_character_representation", {["character_representation"], ["double_single_quote"]}, map["single_quoted_character_representation" := {["character_representation"], ["double_single_quote"]}]);
  }

  /** The map the test expects. */
  lemma Test20()
    ensures Convert(Text20) == Some(map["single_quoted_character_representation" := {["character_representation"], ["double_single_quote"]}])
  {
    Parsed20();
    Test20Block1();
  }


  // test_21, line 883 of the test file
  /** The grammar text of test_21 as its token sequence. */
  const Text21: seq<Token> := [BlockEnd, Token.Nonterminal("double single quote"), Defines, Token.Nonterminal("quote"), Token.Nonterminal("quote"), Comment("See the Syntax Rules.")]

  /** Tokens of test_21's text, four at a time. */
  lemma Text21Tokens1()
    ensures |Text21| == 6
    ensures Text21[0] == BlockEnd
    ensures Text21[1] == Token.Nonterminal("double single quote")
    ensures Text21[2] == Defines
    ensures Text21[3] == Token.Nonterminal("quote")
  {
  }

  /** Tokens of test_21's text, four at a time. */
  lemma Text21Tokens2()
    ensures Text21[4] == Token.Nonterminal("quote")
    ensures Text21[5] == Comment("See the Syntax Rules.")
  {
  }

  /** Parser results on test_21's text, in evaluation order (part 1). */
  lemma Parsed21Step1(ts: seq<Token>)
    requires |ts| == 6 && ts[0] == BlockEnd && ts[1] == Token.Nonterminal("double single quote") && ts[2] == Defines && ts[3] == Token.Nonterminal("quote") && ts[4] == Token.Nonterminal("quote") && ts[5] == Comment("See the Syntax Rules.")
    ensures SkipBlank(ts, 1) == 1
    ensures SkipBlank(ts, 0) == 1
    ensures ParseElement(ts, 3) == Parsed(Sym(Symbol.Nonterminal("quote")), 4)
    ensures ParseElement(ts, 4) == Parsed(Sym(Symbol.Nonterminal("quote")), 5)
  {
  }

  /** Parser results on test_21's text, in evaluation order (part 2). */
  lemma Parsed21Step2(ts: seq<Token>)
    requires |ts| == 6 && ts[0] == BlockEnd && ts[1] == Token.Nonterminal("double single quote") && ts[2] == Defines && ts[3] == Token.Nonterminal("quote") && ts[4] == Token.Nonterminal("quote") && ts[5] == Comment("See the Syntax Rules.")
    ensures ParseItems(ts, 6) == Parsed([], 6)
    ensures ParseItems(ts, 5) == Parsed([], 6)
    ensures [Sym(Symbol.Nonterminal("quote"))] + [] == [Sym(Symbol.Nonterminal("quote"))]
    ensures ParseItems(ts, 4) == Parsed([Sym(Symbol.Nonterminal("quote"))], 6)
  {
    Parsed21Step1(ts);
  }

  /** Parser results on test_21's text, in evaluation order (part 3). */
  lemma Parsed21Step3(ts: seq<Token>)
    requires |ts| == 6 && ts[0] == BlockEnd && ts[1] == Token.Nonterminal("double single quote") && ts[2] == Defines && ts[3] == Token.Nonterminal("quote") && ts[4] == Token.Nonterminal("quote") && ts[5] == Comment("See the Syntax Rules.")
    ensures [Sym(Symbol.Nonterminal("quote"))] + [Sym(Symbol.Nonterminal("quote"))] == [Sym(Symbol.Nonterminal("quote")), Sym(Symbol.Nonterminal("quote"))]
    ensures ParseAlternative(ts, 3) == Parsed(Alternative([Sym(Symbol.Nonterminal("quote")), Sym(Symbol.Nonterminal("quote"))]), 6)
    ensures ParseMoreAlternatives(ts, 6) == Parsed([], 6)
    ensures [Alternative([Sym(Symbol.Nonterminal("quote")), Sym(Symbol.Nonterminal("quote"))])] + [] == [Alternative([Sym(Symbol.Nonterminal("quote")), Sym(Symbol.Nonterminal("quote"))])]
  {
    Parsed21Step1(ts);
    Parsed21Step2(ts);
  }

  /** Parser results on test_21's text, in evaluation order (part 4). */
  lemma Parsed21Step4(ts: seq<Token>)
    requires |ts| == 6 && ts[0] == BlockEnd && ts[1] == Token.Nonterminal("double single quote") && ts[2] == Defines && ts[3] == Token.Nonterminal("quote") && ts[4] == Token.Nonterminal("quote") && ts[5] == Comment("See the Syntax Rules.")
    ensures ParseAlternatives(ts, 3) == Parsed([Alternative([Sym(Symbol.Nonterminal("quote")), Sym(Symbol.Nonterminal("quote"))])], 6)
    ensures ParseRuleBody(ts, 3) == Parsed([Alternative([Sym(Symbol.Nonterminal("quote")), Sym(Symbol.Nonterminal("quote"))])], 6)
    ensures ParseRule(ts, 1) == Parsed(Rule("double single quote", [Alternative([Sym(Symbol.Nonterminal("quote")), Sym(Symbol.Nonterminal("quote"))])]), 6)
    ensures ParseRules(ts, 1) == Some([Rule("double single quote", [Alternative([Sym(Symbol.Nonterminal("quote")), Sym(Symbol.Nonterminal("quote"))])])])
  {
    Parsed21Step3(ts);
  }

  /** The rule blocks test_21's text parses to. */
  lemma Parsed21()
    ensures Parse(Text21) == Some([Rule("double single quote", [Alternative([Sym(Symbol.Nonterminal("quote")), Sym(Symbol.Nonterminal("quote"))])])])
  {
    Text21Tokens1();
    Text21Tokens2();
    Parsed21Step1(Text21);
    Parsed21Step2(Text21);
    Parsed21Step3(Text21);
    Parsed21Step4(Text21);
  }

  /** test_21, block 1: its alternatives merged into its entry. */
  lemma Test21Block1Merge()
    ensures var w: Grammar := map[]; w["double_single_quote" := Lookup(w, "double_single_quote") + {["quote", "quote"]}] == map["double_single_quote" := {["quote", "quote"]}]
  {
    var w: Grammar := map[];
    assert Lookup(w, "double_single_quote") == {};
    assert {} + {["quote", "quote"]} == {["quote", "quote"]};
  }

  /** test_21: the map after block 1. */
  lemma Test21Block1()
    ensures ApplyRules(map[], [Rule("double single quote", [Alternative([Sym(Symbol.Nonterminal("quote")), Sym(Symbol.Nonterminal("quote"))])])]) == map["double_single_quote" := {["quote", "quote"]}]
  {
    Step306();
    Step307();
    Test21Block1Merge();
    var g: Grammar := map[];
    WithNoLists(g);
    var rules := [Rule("double single quote", [Alternative([Sym(Symbol.Nonterminal("quote")), Sym(Symbol.Nonterminal("quote"))])])];
    assert rules[..0] == [];
    var w: Grammar := map[];
    BlockStep(rules, g, {}, w, "double_single_quote", {["quote", "quote"]}, map["double_single_quote" := {["quote", "quote"]}]);
  }

  /** The map the test expects. */
  lemma Test21()
    ensures Convert(Text21) == Some(map["double_single_quote" := {["quote", "quote"]}])
  {
    Parsed21();
    Test21Block1();
  }


  // test_22, line 917 of the test file
  /** The grammar text of test_22 as its token sequence. */
  const Text22: seq<Token> := [BlockEnd, Token.Nonterminal("GQL-program"), Defines, Token.Nonterminal("program activity"), LBrack, Token.Nonterminal("session close command"), RBrack, Bar, Token.Nonterminal("session close command"), BlockEnd, Token.Nonterminal("program activity"), Defines, Token.Nonterminal("session activity"), Bar, Token.Nonterminal("transaction activity")]

  /** Tokens of test_22's text, four at a time. */
  lemma Text22Tokens1()
    ensures |Text22| == 15
    ensures Text22[0] == BlockEnd
    ensures Text22[1] == Token.Nonterminal("GQL-program")
    ensures Text22[2] == Defines
    ensures Text22[3] == Token.Nonterminal("program activity")
  {
  }

  /** Tokens of test_22's text, four at a time. */
  lemma Text22Tokens2()
    ensures Text22[4] == LBrack
    ensures Text22[5] == Token.Nonterminal("session close command")
    ensures Text22[6] == RBrack
    ensures Text22[7] == Bar
  {
  }

  /** Tokens of test_22's text, four at a time. */
  lemma Text22Tokens3()
    ensures Text22[8] == Token.Nonterminal("session close command")
    ensures Text22[9] == BlockEnd
    ensures Text22[10] == Token.Nonterminal("program activity")
    ensures Text22[11] == Defines
  {
  }

  /** Tokens of test_22's text, four at a time. */
  lemma Text22Tokens4()
    ensures Text22[12] == Token.Nonterminal("session activity")
    ensures Text22[13] == Bar
    ensures Text22[14] == Token.Nonterminal("transaction activity")
  {
  }

  /** Parser results on test_22's text, in evaluation order (part 1). */
  lemma Parsed22Step1(ts: seq<Token>)
    requires |ts| == 15 && ts[0] == BlockEnd && ts[1] == Token.Nonterminal("GQL-program") && ts[2] == Defines && ts[3] == Token.Nonterminal("program activity") && ts[4] == LBrack && ts[5] == Token.Nonterminal("session close command") && ts[6] == RBrack && ts[7] == Bar && ts[8] == Token.Nonterminal("session close command") && ts[9] == BlockEnd && ts[10] == Token.Nonterminal("program activity") && ts[11] == Defines && ts[12] == Token.Nonterminal("session activity") && ts[13] == Bar && ts[14] == Token.Nonterminal("transaction activity")
    ensures SkipBlank(ts, 1) == 1
    ensures SkipBlank(ts, 0) == 1
    ensures ParseElement(ts, 3) == Parsed(Sym(Symbol.Nonterminal("program activity")), 4)
    ensures ParseElement(ts, 5) == Parsed(Sym(Symbol.Nonterminal("session close command")), 6)
  {
  }

  /** Parser results on test_22's text, in evaluation order (part 2). */
  lemma Parsed22Step2(ts: seq<Token>)
    requires |ts| == 15 && ts[0] == BlockEnd && ts[1] == Token.Nonterminal("GQL-program") && ts[2] == Defines && ts[3] == Token.Nonterminal("program activity") && ts[4] == LBrack && ts[5] == Token.Nonterminal("session close command") && ts[6] == RBrack && ts[7] == Bar && ts[8] == Token.Nonterminal("session close command") && ts[9] == BlockEnd && ts[10] == Token.Nonterminal("program activity") && ts[11] == Defines && ts[12] == Token.Nonterminal("session activity") && ts[13] == Bar && ts[14] == Token.Nonterminal("transaction activity")
    ensures ParseItems(ts, 6) == Parsed([], 6)
    ensures [Sym(Symbol.Nonterminal("session close command"))] + [] == [Sym(Symbol.Nonterminal("session close command"))]
    ensures ParseAlternative(ts, 5) == Parsed(Alternative([Sym(Symbol.Nonterminal("session close command"))]), 6)
    ensures ParseMoreAlternatives(ts, 6) == Parsed([], 6)
  {
    Parsed22Step1(ts);
  }

  /** Parser results on test_22's text, in evaluation order (part 3). */
  lemma Parsed22Step3(ts: seq<Token>)
    requires |ts| == 15 && ts[0] == BlockEnd && ts[1] == Token.Nonterminal("GQL-program") && ts[2] == Defines && ts[3] == Token.Nonterminal("program activity") && ts[4] == LBrack && ts[5] == Token.Nonterminal("session close command") && ts[6] == RBrack && ts[7] == Bar && ts[8] == Token.Nonterminal("session close command") && ts[9] == BlockEnd && ts[10] == Token.Nonterminal("program activity") && ts[11] == Defines && ts[12] == Token.Nonterminal("session activity") && ts[13] == Bar && ts[14] == Token.Nonterminal("transaction activity")
    ensures [Alternative([Sym(Symbol.Nonterminal("session close command"))])] + [] == [Alternative([Sym(Symbol.Nonterminal("session close command"))])]
    ensures ParseAlternatives(ts, 5) == Parsed([Alternative([Sym(Symbol.Nonterminal("session close command"))])], 6)
    ensures ParseElement(ts, 4) == Parsed(Opt([Alternative([Sym(Symbol.Nonterminal("session close command"))])]), 7)
    ensures ParseItems(ts, 7) == Parsed([], 7)
  {
    Parsed22Step2(ts);
  }

  /** Parser results on test_22's text, in evaluation order (part 4). */
  lemma Parsed22Step4(ts: seq<Token>)
    requires |ts| == 15 && ts[0] == BlockEnd && ts[1] == Token.Nonterminal("GQL-program") && ts[2] == Defines && ts[3] == Token.Nonterminal("program activity") && ts[4] == LBrack && ts[5] == Token.Nonterminal("session close command") && ts[6] == RBrack && ts[7] == Bar && ts[8] == Token.Nonterminal("session close command") && ts[9] == BlockEnd && ts[10] == Token.Nonterminal("program activity") && ts[11] == Defines && ts[12] == Token.Nonterminal("session activity") && ts[13] == Bar && ts[14] == Token.Nonterminal("transaction activity")
    ensures [Opt([Alternative([Sym(Symbol.Nonterminal("session close command"))])])] + [] == [Opt([Alternative([Sym(Symbol.Nonterminal("session close command"))])])]
    ensures ParseItems(ts, 4) == Parsed([Opt([Alternative([Sym(Symbol.Nonterminal("session close command"))])])], 7)
    ensures [Sym(Symbol.Nonterminal("program activity"))] + [Opt([Alternative([Sym(Symbol.Nonterminal("session close command"))])])] == [Sym(Symbol.Nonterminal("program activity")), Opt([Alternative([Sym(Symbol.Nonterminal("session close command"))])])]
    ensures ParseAlternative(ts, 3) == Parsed(Alternative([Sym(Symbol.Nonterminal("program activity")), Opt([Alternative([Sym(Symbol.Nonterminal("session close command"))])])]), 7)
  {
    Parsed22Step1(ts);
    Parsed22Step3(ts);
  }

  /** Parser results on test_22's text, in evaluation order (part 5). */
  lemma Parsed22Step5(ts: seq<Token>)
    requires |ts| == 15 && ts[0] == BlockEnd && ts[1] == Token.Nonterminal("GQL-program") && ts[2] == Defines && ts[3] == Token.Nonterminal("program activity") && ts[4] == LBrack && ts[5] == Token.Nonterminal("session close command") && ts[6] == RBrack && ts[7] == Bar && ts[8] == Token.Nonterminal("session close command") && ts[9] == BlockEnd && ts[10] == Token.Nonterminal("program activity") && ts[11] == Defines && ts[12] == Token.Nonterminal("session activity") && ts[13] == Bar && ts[14] == Token.Nonterminal("transaction activity")
    ensures ParseElement(ts, 8) == Parsed(Sym(Symbol.Nonterminal("session close command")), 9)
    ensures ParseItems(ts, 9) == Parsed([], 9)
    ensures [Sym(Symbol.Nonterminal("session close command"))] + [] == [Sym(Symbol.Nonterminal("session close command"))]
    ensures ParseAlternative(ts, 8) == Parsed(Alternative([Sym(Symbol.Nonterminal("session close command"))]), 9)
  {
  }

  /** Parser results on test_22's text, in evaluation order (part 6). */
  lemma Parsed22Step6(ts: seq<Token>)
    requires |ts| == 15 && ts[0] == BlockEnd && ts[1] == Token.Nonterminal("GQL-program") && ts[2] == Defines && ts[3] == Token.Nonterminal("program activity") && ts[4] == LBrack && ts[5] == Token.Nonterminal("session close command") && ts[6] == RBrack && ts[7] == Bar && ts[8] == Token.Nonterminal("session close command") && ts[9] == BlockEnd && ts[10] == Token.Nonterminal("program activity") && ts[11] == Defines && ts[12] == Token.Nonterminal("session activity") && ts[13] == Bar && ts[14] == Token.Nonterminal("transaction activity")
    ensures SkipBlank(ts, 10) == 10
    ensures SkipBlank(ts, 9) == 10
    ensures ParseMoreAlternatives(ts, 9) == Parsed([], 9)
    ensures [Alternative([Sym(Symbol.Nonterminal("session close command"))])] + [] == [Alternative([Sym(Symbol.Nonterminal("session close command"))])]
  {
  }

  /** Parser results on test_22's text, in evaluation order (part 7). */
  lemma Parsed22Step7(ts: seq<Token>)
    requires |ts| == 15 && ts[0] == BlockEnd && ts[1] == Token.Nonterminal("GQL-program") && ts[2] == Defines && ts[3] == Token.Nonterminal("program activity") && ts[4] == LBrack && ts[5] == Token.Nonterminal("session close command") && ts[6] == RBrack && ts[7] == Bar && ts[8] == Token.Nonterminal("session close command") && ts[9] == BlockEnd && ts[10] == Token.Nonterminal("program activity") && ts[11] == Defines && ts[12] == Token.Nonterminal("session activity") && ts[13] == Bar && ts[14] == Token.Nonterminal("transaction activity")
    ensures ParseMoreAlternatives(ts, 7) == Parsed([Alternative([Sym(Symbol.Nonterminal("session close command"))])], 9)
    ensures [Alternative([Sym(Symbol.Nonterminal("program activity")), Opt([Alternative([Sym(Symbol.Nonterminal("session close command"))])])])] + [Alternative([Sym(Symbol.Nonterminal("session close command"))])] == [Alternative([Sym(Symbol.Nonterminal("program activity")), Opt([Alternative([Sym(Symbol.Nonterminal("session close command"))])])]), Alternative([Sym(Symbol.Nonterminal("session close command"))])]
    ensures ParseAlternatives(ts, 3) == Parsed([Alternative([Sym(Symbol.Nonterminal("program activity")), Opt([Alternative([Sym(Symbol.Nonterminal("session close command"))])])]), Alternative([Sym(Symbol.Nonterminal("session close command"))])], 9)
    ensures ParseRuleBody(ts, 3) == Parsed([Alternative([Sym(Symbol.Nonterminal("program activity")), Opt([Alternative([Sym(Symbol.Nonterminal("session close command"))])])]), Alternative([Sym(Symbol.Nonterminal("session close command"))])], 9)
  {
    Parsed22Step4(ts);
    Parsed22Step5(ts);
    Parsed22Step6(ts);
  }

  /** Parser results on test_22's text, in evaluation order (part 8). */
  lemma Parsed22Step8(ts: seq<Token>)
    requires |ts| == 15 && ts[0] == BlockEnd && ts[1] == Token.Nonterminal("GQL-program") && ts[2] == Defines && ts[3] == Token.Nonterminal("program activity") && ts[4] == LBrack && ts[5] == Token.Nonterminal("session close command") && ts[6] == RBrack && ts[7] == Bar && ts[8] == Token.Nonterminal("session close command") && ts[9] == BlockEnd && ts[10] == Token.Nonterminal("program activity") && ts[11] == Defines && ts[12] == Token.Nonterminal("session activity") && ts[13] == Bar && ts[14] == Token.Nonterminal("transaction activity")
    ensures ParseRule(ts, 1) == Parsed(Rule("GQL-program", [Alternative([Sym(Symbol.Nonterminal("program activity")), Opt([Alternative([Sym(Symbol.Nonterminal("session close command"))])])]), Alternative([Sym(Symbol.Nonterminal("session close command"))])]), 9)
    ensures ParseElement(ts, 12) == Parsed(Sym(Symbol.Nonterminal("session activity")), 13)
    ensures ParseItems(ts, 13) == Parsed([], 13)
    ensures [Sym(Symbol.Nonterminal("session activity"))] + [] == [Sym(Symbol.Nonterminal("session activity"))]
  {
    Parsed22Step7(ts);
  }

  /** Parser results on test_22's text, in evaluation order (part 9). */
  lemma Parsed22Step9(ts: seq<Token>)
    requires |ts| == 15 && ts[0] == BlockEnd && ts[1] == Token.Nonterminal("GQL-program") && ts[2] == Defines && ts[3] == Token.Nonterminal("program activity") && ts[4] == LBrack && ts[5] == Token.Nonterminal("session close command") && ts[6] == RBrack && ts[7] == Bar && ts[8] == Token.Nonterminal("session close command") && ts[9] == BlockEnd && ts[10] == Token.Nonterminal("program activity") && ts[11] == Defines && ts[12] == Token.Nonterminal("session activity") && ts[13] == Bar && ts[14] == Token.Nonterminal("transaction activity")
    ensures ParseAlternative(ts, 12) == Parsed(Alternative([Sym(Symbol.Nonterminal("session activity"))]), 13)
    ensures ParseElement(ts, 14) == Parsed(Sym(Symbol.Nonterminal("transaction activity")), 15)
    ensures ParseItems(ts, 15) == Parsed([], 15)
    ensures [Sym(Symbol.Nonterminal("transaction activity"))] + [] == [Sym(Symbol.Nonterminal("transaction activity"))]
  {
    Parsed22Step8(ts);
  }

  /** Parser results on test_22's text, in evaluation order (part 10). */
  lemma Parsed22Step10(ts: seq<Token>)
    requires |ts| == 15 && ts[0] == BlockEnd && ts[1] == Token.Nonterminal("GQL-program") && ts[2] == Defines && ts[3] == Token.Nonterminal("program activity") && ts[4] == LBrack && ts[5] == Token.Nonterminal("session close command") && ts[6] == RBrack && ts[7] == Bar && ts[8] == Token.Nonterminal("session close command") && ts[9] == BlockEnd && ts[10] == Token.Nonterminal("program activity") && ts[11] == Defines && ts[12] == Token.Nonterminal("session activity") && ts[13] == Bar && ts[14] == Token.Nonterminal("transaction activity")
    ensures ParseAlternative(ts, 14) == Parsed(Alternative([Sym(Symbol.Nonterminal("transaction activity"))]), 15)
    ensures ParseMoreAlternatives(ts, 15) == Parsed([], 15)
    ensures [Alternative([Sym(Symbol.Nonterminal("transaction activity"))])] + [] == [Alternative([Sym(Symbol.Nonterminal("transaction activity"))])]
    ensures ParseMoreAlternatives(ts, 13) == Parsed([Alternative([Sym(Symbol.Nonterminal("transaction activity"))])], 15)
  {
    Parsed22Step9(ts);
  }

  /** Parser results on test_22's text, in evaluation order (part 11). */
  lemma Parsed22Step11(ts: seq<Token>)
    requires |ts| == 15 && ts[0] == BlockEnd && ts[1] == Token.Nonterminal("GQL-program") && ts[2] == Defines && ts[3] == Token.Nonterminal("program activity") && ts[4] == LBrack && ts[5] == Token.Nonterminal("session close command") && ts[6] == RBrack && ts[7] == Bar && ts[8] == Token.Nonterminal("session close command") && ts[9] == BlockEnd && ts[10] == Token.Nonterminal("program activity") && ts[11] == Defines && ts[12] == Token.Nonterminal("session activity") && ts[13] == Bar && ts[14] == Token.Nonterminal("transaction activity")
    ensures [Alternative([Sym(Symbol.Nonterminal("session activity"))])] + [Alternative([Sym(Symbol.Nonterminal("transaction activity"))])] == [Alternative([Sym(Symbol.Nonterminal("session activity"))]), Alternative([Sym(Symbol.Nonterminal("transaction activity"))])]
    ensures ParseAlternatives(ts, 12) == Parsed([Alternative([Sym(Symbol.Nonterminal("session activity"))]), Alternative([Sym(Symbol.Nonterminal("transaction activity"))])], 15)
    ensures ParseRuleBody(ts, 12) == Parsed([Alternative([Sym(Symbol.Nonterminal("session activity"))]), Alternative([Sym(Symbol.Nonterminal("transaction activity"))])], 15)
    ensures ParseRule(ts, 10) == Parsed(Rule("program activity", [Alternative([Sym(Symbol.Nonterminal("session activity"))]), Alternative([Sym(Symbol.Nonterminal("transaction activity"))])]), 15)
  {
    Parsed22Step9(ts);
    Parsed22Step10(ts);
  }

  /** Parser results on test_22's text, in evaluation order (part 12). */
  lemma Parsed22Step12(ts: seq<Token>)
    requires |ts| == 15 && ts[0] == BlockEnd && ts[1] == Token.Nonterminal("GQL-program") && ts[2] == Defines && ts[3] == Token.Nonterminal("program activity") && ts[4] == LBrack && ts[5] == Token.Nonterminal("session close command") && ts[6] == RBrack && ts[7] == Bar && ts[8] == Token.Nonterminal("session close command") && ts[9] == BlockEnd && ts[10] == Token.Nonterminal("program activity") && ts[11] == Defines && ts[12] == Token.Nonterminal("session activity") && ts[13] == Bar && ts[14] == Token.Nonterminal("transaction activity")
    ensures ParseRules(ts, 10) == Some([Rule("program activity", [Alternative([Sym(Symbol.Nonterminal("session activity"))]), Alternative([Sym(Symbol.Nonterminal("transaction activity"))])])])
    ensures [Rule("GQL-program", [Alternative([Sym(Symbol.Nonterminal("program activity")), Opt([Alternative([Sym(Symbol.Nonterminal("session close command"))])])]), Alternative([Sym(Symbol.Nonterminal("session close command"))])])] + [Rule("program activity", [Alternative([Sym(Symbol.Nonterminal("session activity"))]), Alternative([Sym(Symbol.Nonterminal("transaction activity"))])])] == [Rule("GQL-program", [Alternative([Sym(Symbol.Nonterminal("program activity")), Opt([Alternative([Sym(Symbol.Nonterminal("session close command"))])])]), Alternative([Sym(Symbol.Nonterminal("session close command"))])]), Rule("program activity", [Alternative([Sym(Symbol.Nonterminal("session activity"))]), Alternative([Sym(Symbol.Nonterminal("transaction activity"))])])]
    ensures ParseRules(ts, 1) == Some([Rule("GQL-program", [Alternative([Sym(Symbol.Nonterminal("program activity")), Opt([Alternative([Sym(Symbol.Nonterminal("session close command"))])])]), Alternative([Sym(Symbol.Nonterminal("session close command"))])]), Rule("program activity", [Alternative([Sym(Symbol.Nonterminal("session activity"))]), Alternative([Sym(Symbol.Nonterminal("transaction activity"))])])])
  {
    Parsed22Step6(ts);
    Parsed22Step8(ts);
    Parsed22Step11(ts);
  }

  /** The rule blocks test_22's text parses to. */
  lemma Parsed22()
    ensures Parse(Text22) == Some([Rule("GQL-program", [Alternative([Sym(Symbol.Nonterminal("program activity")), Opt([Alternative([Sym(Symbol.Nonterminal("session close command"))])])]), Alternative([Sym(Symbol.Nonterminal("session close command"))])]), Rule("program activity", [Alternative([Sym(Symbol.Nonterminal("session activity"))]), Alternative([Sym(Symbol.Nonterminal("transaction activity"))])])])
  {
    Text22Tokens1();
    Text22Tokens2();
    Text22Tokens3();
    Text22Tokens4();
    Parsed22Step1(Text22);
    Parsed22Step2(Text22);
    Parsed22Step3(Text22);
    Parsed22Step4(Text22);
    Parsed22Step5(Text22);
    Parsed22Step6(Text22);
    Parsed22Step7(Text22);
    Parsed22Step8(Text22);
    Parsed22Step9(Text22);
    Parsed22Step10(Text22);
    Parsed22Step11(Text22);
    Parsed22Step12(Text22);
  }

  /** test_22, block 1: its alternatives merged into its entry. */
  lemma Test22Block1Merge()
    ensures var w: Grammar := map[]; w["GQL_program" := Lookup(w, "GQL_program") + {["program_activity", "session_close_command"], ["program_activity"], ["session_close_command"]}] == map["GQL_program" := {["program_activity", "session_close_command"], ["program_activity"], ["session_close_command"]}]
  {
    var w: Grammar := map[];
    assert Lookup(w, "GQL_program") == {};
    assert {} + {["program_activity", "session_close_command"], ["program_activity"], ["session_close_command"]} == {["program_activity", "session_close_command"], ["program_activity"], ["session_close_command"]};
  }

  /** test_22: the map after block 1. */
  lemma Test22Block1()
    ensures ApplyRules(map[], [Rule("GQL-program", [Alternative([Sym(Symbol.Nonterminal("program activity")), Opt([Alternative([Sym(Symbol.Nonterminal("session close command"))])])]), Alternative([Sym(Symbol.Nonterminal("session close command"))])])]) == map["GQL_program" := {["program_activity", "session_close_command"], ["program_activity"], ["session_close_command"]}]
  {
    Step31();
    Step32();
    Test22Block1Merge();
    var g: Grammar := map[];
    WithNoLists(g);
    var rules := [Rule("GQL-program", [Alternative([Sym(Symbol.Nonterminal("program activity")), Opt([Alternative([Sym(Symbol.Nonterminal("session close command"))])])]), Alternative([Sym(Symbol.Nonterminal("session close command"))])])];
    assert rules[..0] == [];
    var w: Grammar := map[];
    BlockStep(rules, g, {}, w, "GQL_program", {["program_activity", "session_close_command"], ["program_activity"], ["session_close_command"]}, map["GQL_program" := {["program_activity", "session_close_command"], ["program_activity"], ["session_close_command"]}]);
  }

  /** test_22, block 2: its alternatives merged into its entry. */
  lemma Test22Block2Merge()
    ensures var w: Grammar := map["GQL_program" := {["program_activity", "session_close_command"], ["program_activity"], ["session_close_command"]}]; w["program_activity" := Lookup(w, "program_activity") + {["session_activity"], ["transaction_activity"]}] == map["GQL_program" := {["program_activity", "session_close_command"], ["program_activity"], ["session_close_command"]}, "program_activity" := {["session_activity"], ["transaction_activity"]}]
  {
    var w: Grammar := map["GQL_program" := {["program_activity", "session_close_command"], ["program_activity"], ["session_close_command"]}];
    assert Lookup(w, "program_activity") == {};
    assert {} + {["session_activity"], ["transaction_activity"]} == {["session_activity"], ["transaction_activity"]};
  }

  /** test_22: the map after block 2. */
  lemma Test22Block2()
    ensures ApplyRules(map[], [Rule("GQL-program", [Alternative([Sym(Symbol.Nonterminal("program activity")), Opt([Alternative([Sym(Symbol.Nonterminal("session close command"))])])]), Alternative([Sym(Symbol.Nonterminal("session close command"))])]), Rule("program activity", [Alternative([Sym(Symbol.Nonterminal("session activity"))]), Alternative([Sym(Symbol.Nonterminal("transaction activity"))])])]) == map["GQL_program" := {["program_activity", "session_close_command"], ["program_activity"], ["session_close_command"]}, "program_activity" := {["session_activity"], ["transaction_activity"]}]
  {
    Test22Block1();
    Step313();
    Step314();
    Test22Block2Merge();
    var g: Grammar := map["GQL_program" := {["program_activity", "session_close_command"], ["program_activity"], ["session_close_command"]}];
    WithNoLists(g);
    var rules := [Rule("GQL-program", [Alternative([Sym(Symbol.Nonterminal("program activity")), Opt([Alternative([Sym(Symbol.Nonterminal("session close command"))])])]), Alternative([Sym(Symbol.Nonterminal("session close command"))])]), Rule("program activity", [Alternative([Sym(Symbol.Nonterminal("session activity"))]), Alternative([Sym(Symbol.Nonterminal("transaction activity"))])])];
    assert rules[..1] == [Rule("GQL-program", [Alternative([Sym(Symbol.Nonterminal("program activity")), Opt([Alternative([Sym(Symbol.Nonterminal("session close command"))])])]), Alternative([Sym(Symbol.Nonterminal("session close command"))])])];
    var w: Grammar := map["GQL_program" := {["program_activity", "session_close_command"], ["program_activity"], ["session_close_command"]}];
    BlockStep(rules, g, {}, w, "program_activity", {["session_activity"], ["transaction_activity"]}, map["GQL_program" := {["program_activity", "session_close_command"], ["program_activity"], ["session_close_command"]}, "program_activity" := {["session_activity"], ["transaction_activity"]}]);
  }

  /** The map the test expects. */
  lemma Test22()
    ensures Convert(Text22) == Some(map["GQL_program" := {["program_activity", "session_close_command"], ["program_activity"], ["session_close_command"]}, "program_activity" := {["session_activity"], ["transaction_activity"]}])
  {
    Parsed22();
    Test22Block2();
  }


  // test_23, line 965 of the test file
  /** The grammar text of test_23 as its token sequence. */
  const Text23: seq<Token> := [BlockEnd, Token.Nonterminal("GQL-program"), Defines, Token.Nonterminal("program activity"), LBrack, Token.Nonterminal("session close command"), RBrack, Bar, Token.Nonterminal("session close command"), BlockEnd, Token.Nonterminal("program activity"), Defines, Token.Nonterminal("session activity"), Bar, Token.Nonterminal("transaction activity"), BlockEnd]

  /** Tokens of test_23's text, four at a time. */
  lemma Text23Tokens1()
    ensures |Text23| == 16
    ensures Text23[0] == BlockEnd
    ensures Text23[1] == Token.Nonterminal("GQL-program")
    ensures Text23[2] == Defines
    ensures Text23[3] == Token.Nonterminal("program activity")
  {
  }

  /** Tokens of test_23's text, four at a time. */
  lemma Text23Tokens2()
    ensures Text23[4] == LBrack
    ensures Text23[5] == Token.Nonterminal("session close command")
    ensures Text23[6] == RBrack
    ensures Text23[7] == Bar
  {
  }

  /** Tokens of test_23's text, four at a time. */
  lemma Text23Tokens3()
    ensures Text23[8] == Token.Nonterminal("session close command")
    ensures Text23[9] == BlockEnd
    ensures Text23[10] == Token.Nonterminal("program activity")
    ensures Text23[11] == Defines
  {
  }

  /** Tokens of test_23's text, four at a time. */
  lemma Text23Tokens4()
    ensures Text23[12] == Token.Nonterminal("session activity")
    ensures Text23[13] == Bar
    ensures Text23[14] == Token.Nonterminal("transaction activity")
    ensures Text23[15] == BlockEnd
  {
  }

  /** Parser results on test_23's text, in evaluation order (part 1). */
  lemma Parsed23Step1(ts: seq<Token>)
    requires |ts| == 16 && ts[0] == BlockEnd && ts[1] == Token.Nonterminal("GQL-program") && ts[2] == Defines && ts[3] == Token.Nonterminal("program activity") && ts[4] == LBrack && ts[5] == Token.Nonterminal("session close command") && ts[6] == RBrack && ts[7] == Bar && ts[8] == Token.Nonterminal("session close command") && ts[9] == BlockEnd && ts[10] == Token.Nonterminal("program activity") && ts[11] == Defines && ts[12] == Token.Nonterminal("session activity") && ts[13] == Bar && ts[14] == Token.Nonterminal("transaction activity") && ts[15] == BlockEnd
    ensures SkipBlank(ts, 1) == 1
    ensures SkipBlank(ts, 0) == 1
    ensures ParseElement(ts, 3) == Parsed(Sym(Symbol.Nonterminal("program activity")), 4)
    ensures ParseElement(ts, 5) == Parsed(Sym(Symbol.Nonterminal("session close command")), 6)
  {
  }

  /** Parser results on test_23's text, in evaluation order (part 2). */
  lemma Parsed23Step2(ts: seq<Token>)
    requires |ts| == 16 && ts[0] == BlockEnd && ts[1] == Token.Nonterminal("GQL-program") && ts[2] == Defines && ts[3] == Token.Nonterminal("program activity") && ts[4] == LBrack && ts[5] == Token.Nonterminal("session close command") && ts[6] == RBrack && ts[7] == Bar && ts[8] == Token.Nonterminal("session close command") && ts[9] == BlockEnd && ts[10] == Token.Nonterminal("program activity") && ts[11] == Defines && ts[12] == Token.Nonterminal("session activity") && ts[13] == Bar && ts[14] == Token.Nonterminal("transaction activity") && ts[15] == BlockEnd
    ensures ParseItems(ts, 6) == Parsed([], 6)
    ensures [Sym(Symbol.Nonterminal("session close command"))] + [] == [Sym(Symbol.Nonterminal("session close command"))]
    ensures ParseAlternative(ts, 5) == Parsed(Alternative([Sym(Symbol.Nonterminal("session close command"))]), 6)
    ensures ParseMoreAlternatives(ts, 6) == Parsed([], 6)
  {
    Parsed23Step1(ts);
  }

  /** Parser results on test_23's text, in evaluation order (part 3). */
  lemma Parsed23Step3(ts: seq<Token>)
    requires |ts| == 16 && ts[0] == BlockEnd && ts[1] == Token.Nonterminal("GQL-program") && ts[2] == Defines && ts[3] == Token.Nonterminal("program activity") && ts[4] == LBrack && ts[5] == Token.Nonterminal("session close command") && ts[6] == RBrack && ts[7] == Bar && ts[8] == Token.Nonterminal("session close command") && ts[9] == BlockEnd && ts[10] == Token.Nonterminal("program activity") && ts[11] == Defines && ts[12] == Token.Nonterminal("session activity") && ts[13] == Bar && ts[14] == Token.Nonterminal("transaction activity") && ts[15] == BlockEnd
    ensures [Alternative([Sym(Symbol.Nonterminal("session close command"))])] + [] == [Alternative([Sym(Symbol.Nonterminal("session close command"))])]
    ensures ParseAlternatives(ts, 5) == Parsed([Alternative([Sym(Symbol.Nonterminal("session close command"))])], 6)
    ensures ParseElement(ts, 4) == Parsed(Opt([Alternative([Sym(Symbol.Nonterminal("session close command"))])]), 7)
    ensures ParseItems(ts, 7) == Parsed([], 7)
  {
    Parsed23Step2(ts);
  }

  /** Parser results on test_23's text, in evaluation order (part 4). */
  lemma Parsed23Step4(ts: seq<Token>)
    requires |ts| == 16 && ts[0] == BlockEnd && ts[1] == Token.Nonterminal("GQL-program") && ts[2] == Defines && ts[3] == Token.Nonterminal("program activity") && ts[4] == LBrack && ts[5] == Token.Nonterminal("session close command") && ts[6] == RBrack && ts[7] == Bar && ts[8] == Token.Nonterminal("session close command") && ts[9] == BlockEnd && ts[10] == Token.Nonterminal("program activity") && ts[11] == Defines && ts[12] == Token.Nonterminal("session activity") && ts[13] == Bar && ts[14] == Token.Nonterminal("transaction activity") && ts[15] == BlockEnd
    ensures [Opt([Alternative([Sym(Symbol.Nonterminal("session close command"))])])] + [] == [Opt([Alternative([Sym(Symbol.Nonterminal("session close command"))])])]
    ensures ParseItems(ts, 4) == Parsed([Opt([Alternative([Sym(Symbol.Nonterminal("session close command"))])])], 7)
    ensures [Sym(Symbol.Nonterminal("program activity"))] + [Opt([Alternative([Sym(Symbol.Nonterminal("session close command"))])])] == [Sym(Symbol.Nonterminal("program activity")), Opt([Alternative([Sym(Symbol.Nonterminal("session close command"))])])]
    ensures ParseAlternative(ts, 3) == Parsed(Alternative([Sym(Symbol.Nonterminal("program activity")), Opt([Alternative([Sym(Symbol.Nonterminal("session close command"))])])]), 7)
  {
    Parsed23Step1(ts);
    Parsed23Step3(ts);
  }

  /** Parser results on test_23's text, in evaluation order (part 5). */
  lemma Parsed23Step5(ts: seq<Token>)
    requires |ts| == 16 && ts[0] == BlockEnd && ts[1] == Token.Nonterminal("GQL-program") && ts[2] == Defines && ts[3] == Token.Nonterminal("program activity") && ts[4] == LBrack && ts[5] == Token.Nonterminal("session close command") && ts[6] == RBrack && ts[7] == Bar && ts[8] == Token.Nonterminal("session close command") && ts[9] == BlockEnd && ts[10] == Token.Nonterminal("program activity") && ts[11] == Defines && ts[12] == Token.Nonterminal("session activity") && ts[13] == Bar && ts[14] == Token.Nonterminal("transaction activity") && ts[15] == BlockEnd
    ensures ParseElement(ts, 8) == Parsed(Sym(Symbol.Nonterminal("session close command")), 9)
    ensures ParseItems(ts, 9) == Parsed([], 9)
    ensures [Sym(Symbol.Nonterminal("session close command"))] + [] == [Sym(Symbol.Nonterminal("session close command"))]
    ensures ParseAlternative(ts, 8) == Parsed(Alternative([Sym(Symbol.Nonterminal("session close command"))]), 9)
  {
  }

  /** Parser results on test_23's text, in evaluation order (part 6). */
  lemma Parsed23Step6(ts: seq<Token>)
    requires |ts| == 16 && ts[0] == BlockEnd && ts[1] == Token.Nonterminal("GQL-program") && ts[2] == Defines && ts[3] == Token.Nonterminal("program activity") && ts[4] == LBrack && ts[5] == Token.Nonterminal("session close command") && ts[6] == RBrack && ts[7] == Bar && ts[8] == Token.Nonterminal("session close command") && ts[9] == BlockEnd && ts[10] == Token.Nonterminal("program activity") && ts[11] == Defines && ts[12] == Token.Nonterminal("session activity") && ts[13] == Bar && ts[14] == Token.Nonterminal("transaction activity") && ts[15] == BlockEnd
    ensures SkipBlank(ts, 10) == 10
    ensures SkipBlank(ts, 9) == 10
    ensures ParseMoreAlternatives(ts, 9) == Parsed([], 9)
    ensures [Alternative([Sym(Symbol.Nonterminal("session close command"))])] + [] == [Alternative([Sym(Symbol.Nonterminal("session close command"))])]
  {
  }

  /** Parser results on test_23's text, in evaluation order (part 7). */
  lemma Parsed23Step7(ts: seq<Token>)
    requires |ts| == 16 && ts[0] == BlockEnd && ts[1] == Token.Nonterminal("GQL-program") && ts[2] == Defines && ts[3] == Token.Nonterminal("program activity") && ts[4] == LBrack && ts[5] == Token.Nonterminal("session close command") && ts[6] == RBrack && ts[7] == Bar && ts[8] == Token.Nonterminal("session close command") && ts[9] == BlockEnd && ts[10] == Token.Nonterminal("program activity") && ts[11] == Defines && ts[12] == Token.Nonterminal("session activity") && ts[13] == Bar && ts[14] == Token.Nonterminal("transaction activity") && ts[15] == BlockEnd
    ensures ParseMoreAlternatives(ts, 7) == Parsed([Alternative([Sym(Symbol.Nonterminal("session close command"))])], 9)
    ensures [Alternative([Sym(Symbol.Nonterminal("program activity")), Opt([Alternative([Sym(Symbol.Nonterminal("session close command"))])])])] + [Alternative([Sym(Symbol.Nonterminal("session close command"))])] == [Alternative([Sym(Symbol.Nonterminal("program activity")), Opt([Alternative([Sym(Symbol.Nonterminal("session close command"))])])]), Alternative([Sym(Symbol.Nonterminal("session close command"))])]
    ensures ParseAlternatives(ts, 3) == Parsed([Alternative([Sym(Symbol.Nonterminal("program activity")), Opt([Alternative([Sym(Symbol.Nonterminal("session close command"))])])]), Alternative([Sym(Symbol.Nonterminal("session close command"))])], 9)
    ensures ParseRuleBody(ts, 3) == Parsed([Alternative([Sym(Symbol.Nonterminal("program activity")), Opt([Alternative([Sym(Symbol.Nonterminal("session close command"))])])]), Alternative([Sym(Symbol.Nonterminal("session close command"))])], 9)
  {
    Parsed23Step4(ts);
    Parsed23Step5(ts);
    Parsed23Step6(ts);
  }

  /** Parser results on test_23's text, in evaluation order (part 8). */
  lemma Parsed23Step8(ts: seq<Token>)
    requires |ts| == 16 && ts[0] == BlockEnd && ts[1] == Token.Nonterminal("GQL-program") && ts[2] == Defines && ts[3] == Token.Nonterminal("program activity") && ts[4] == LBrack && ts[5] == Token.Nonterminal("session close command") && ts[6] == RBrack && ts[7] == Bar && ts[8] == Token.Nonterminal("session close command") && ts[9] == BlockEnd && ts[10] == Token.Nonterminal("program activity") && ts[11] == Defines && ts[12] == Token.Nonterminal("session activity") && ts[13] == Bar && ts[14] == Token.Nonterminal("transaction activity") && ts[15] == BlockEnd
    ensures ParseRule(ts, 1) == Parsed(Rule("GQL-program", [Alternative([Sym(Symbol.Nonterminal("program activity")), Opt([Alternative([Sym(Symbol.Nonterminal("session close command"))])])]), Alternative([Sym(Symbol.Nonterminal("session close command"))])]), 9)
    ensures ParseElement(ts, 12) == Parsed(Sym(Symbol.Nonterminal("session activity")), 13)
    ensures ParseItems(ts, 13) == Parsed([], 13)
    ensures [Sym(Symbol.Nonterminal("session activity"))] + [] == [Sym(Symbol.Nonterminal("session activity"))]
  {
    Parsed23Step7(ts);
  }

  /** Parser results on test_23's text, in evaluation order (part 9). */
  lemma Parsed23Step9(ts: seq<Token>)
    requires |ts| == 16 && ts[0] == BlockEnd && ts[1] == Token.Nonterminal("GQL-program") && ts[2] == Defines && ts[3] == Token.Nonterminal("program activity") && ts[4] == LBrack && ts[5] == Token.Nonterminal("session close command") && ts[6] == RBrack && ts[7] == Bar && ts[8] == Token.Nonterminal("session close command") && ts[9] == BlockEnd && ts[10] == Token.Nonterminal("program activity") && ts[11] == Defines && ts[12] == Token.Nonterminal("session activity") && ts[13] == Bar && ts[14] == Token.Nonterminal("transaction activity") && ts[15] == BlockEnd
    ensures ParseAlternative(ts, 12) == Parsed(Alternative([Sym(Symbol.Nonterminal("session activity"))]), 13)
    ensures ParseElement(ts, 14) == Parsed(Sym(Symbol.Nonterminal("transaction activity")), 15)
    ensures ParseItems(ts, 15) == Parsed([], 15)
    ensures [Sym(Symbol.Nonterminal("transaction activity"))] + [] == [Sym(Symbol.Nonterminal("transaction activity"))]
  {
    Parsed23Step8(ts);
  }

  /** Parser results on test_23's text, in evaluation order (part 10). */
  lemma Parsed23Step10(ts: seq<Token>)
    requires |ts| == 16 && ts[0] == BlockEnd && ts[1] == Token.Nonterminal("GQL-program") && ts[2] == Defines && ts[3] == Token.Nonterminal("program activity") && ts[4] == LBrack && ts[5] == Token.Nonterminal("session close command") && ts[6] == RBrack && ts[7] == Bar && ts[8] == Token.Nonterminal("session close command") && ts[9] == BlockEnd && ts[10] == Token.Nonterminal("program activity") && ts[11] == Defines && ts[12] == Token.Nonterminal("session activity") && ts[13] == Bar && ts[14] == Token.Nonterminal("transaction activity") && ts[15] == BlockEnd
    ensures ParseAlternative(ts, 14) == Parsed(Alternative([Sym(Symbol.Nonterminal("transaction activity"))]), 15)
    ensures SkipBlank(ts, 16) == 16
    ensures SkipBlank(ts, 15) == 16
    ensures ParseMoreAlternatives(ts, 15) == Parsed([], 15)
  {
    Parsed23Step9(ts);
  }

  /** Parser results on test_23's text, in evaluation order (part 11). */
  lemma Parsed23Step11(ts: seq<Token>)
    requires |ts| == 16 && ts[0] == BlockEnd && ts[1] == Token.Nonterminal("GQL-program") && ts[2] == Defines && ts[3] == Token.Nonterminal("program activity") && ts[4] == LBrack && ts[5] == Token.Nonterminal("session close command") && ts[6] == RBrack && ts[7] == Bar && ts[8] == Token.Nonterminal("session close command") && ts[9] == BlockEnd && ts[10] == Token.Nonterminal("program activity") && ts[11] == Defines && ts[12] == Token.Nonterminal("session activity") && ts[13] == Bar && ts[14] == Token.Nonterminal("transaction activity") && ts[15] == BlockEnd
    ensures [Alternative([Sym(Symbol.Nonterminal("transaction activity"))])] + [] == [Alternative([Sym(Symbol.Nonterminal("transaction activity"))])]
    ensures ParseMoreAlternatives(ts, 13) == Parsed([Alternative([Sym(Symbol.Nonterminal("transaction activity"))])], 15)
    ensures [Alternative([Sym(Symbol.Nonterminal("session activity"))])] + [Alternative([Sym(Symbol.Nonterminal("transaction activity"))])] == [Alternative([Sym(Symbol.Nonterminal("session activity"))]), Alternative([Sym(Symbol.Nonterminal("transaction activity"))])]
    ensures ParseAlternatives(ts, 12) == Parsed([Alternative([Sym(Symbol.Nonterminal("session activity"))]), Alternative([Sym(Symbol.Nonterminal("transaction activity"))])], 15)
  {
    Parsed23Step9(ts);
    Parsed23Step10(ts);
  }

  /** Parser results on test_23's text, in evaluation order (part 12). */
  lemma Parsed23Step12(ts: seq<Token>)
    requires |ts| == 16 && ts[0] == BlockEnd && ts[1] == Token.Nonterminal("GQL-program") && ts[2] == Defines && ts[3] == Token.Nonterminal("program activity") && ts[4] == LBrack && ts[5] == Token.Nonterminal("session close command") && ts[6] == RBrack && ts[7] == Bar && ts[8] == Token.Nonterminal("session close command") && ts[9] == BlockEnd && ts[10] == Token.Nonterminal("program activity") && ts[11] == Defines && ts[12] == Token.Nonterminal("session activity") && ts[13] == Bar && ts[14] == Token.Nonterminal("transaction activity") && ts[15] == BlockEnd
    ensures ParseRuleBody(ts, 12) == Parsed([Alternative([Sym(Symbol.Nonterminal("session activity"))]), Alternative([Sym(Symbol.Nonterminal("transaction activity"))])], 15)
    ensures ParseRule(ts, 10) == Parsed(Rule("program activity", [Alternative([Sym(Symbol.Nonterminal("session activity"))]), Alternative([Sym(Symbol.Nonterminal("transaction activity"))])]), 15)
    ensures ParseRules(ts, 10) == Some([Rule("program activity", [Alternative([Sym(Symbol.Nonterminal("session activity"))]), Alternative([Sym(Symbol.Nonterminal("transaction activity"))])])])
    ensures [Rule("GQL-program", [Alternative([Sym(Symbol.Nonterminal("program activity")), Opt([Alternative([Sym(Symbol.Nonterminal("session close command"))])])]), Alternative([Sym(Symbol.Nonterminal("session close command"))])])] + [Rule("program activity", [Alternative([Sym(Symbol.Nonterminal("session activity"))]), Alternative([Sym(Symbol.Nonterminal("transaction activity"))])])] == [Rule("GQL-program", [Alternative([Sym(Symbol.Nonterminal("program activity")), Opt([Alternative([Sym(Symbol.Nonterminal("session close command"))])])]), Alternative([Sym(Symbol.Nonterminal("session close command"))])]), Rule("program activity", [Alternative([Sym(Symbol.Nonterminal("session activity"))]), Alternative([Sym(Symbol.Nonterminal("transaction activity"))])])]
  {
    Parsed23Step10(ts);
    Parsed23Step11(ts);
  }

  /** Parser results on test_23's text, in evaluation order (part 13). */
  lemma Parsed23Step13(ts: seq<Token>)
    requires |ts| == 16 && ts[0] == BlockEnd && ts[1] == Token.Nonterminal("GQL-program") && ts[2] == Defines && ts[3] == Token.Nonterminal("program activity") && ts[4] == LBrack && ts[5] == Token.Nonterminal("session close command") && ts[6] == RBrack && ts[7] == Bar && ts[8] == Token.Nonterminal("session close command") && ts[9] == BlockEnd && ts[10] == Token.Nonterminal("program activity") && ts[11] == Defines && ts[12] == Token.Nonterminal("session activity") && ts[13] == Bar && ts[14] == Token.Nonterminal("transaction activity") && ts[15] == BlockEnd
    ensures ParseRules(ts, 1) == Some([Rule("GQL-program", [Alternative([Sym(Symbol.Nonterminal("program activity")), Opt([Alternative([Sym(Symbol.Nonterminal("session close command"))])])]), Alternative([Sym(Symbol.Nonterminal("session close command"))])]), Rule("program activity", [Alternative([Sym(Symbol.Nonterminal("session activity"))]), Alternative([Sym(Symbol.Nonterminal("transaction activity"))])])])
  {
    Parsed23Step6(ts);
    Parsed23Step8(ts);
    Parsed23Step12(ts);
  }

  /** The rule blocks test_23's text parses to. */
  lemma Parsed23()
    ensures Parse(Text23) == Some([Rule("GQL-program", [Alternative([Sym(Symbol.Nonterminal("program activity")), Opt([Alternative([Sym(Symbol.Nonterminal("session close command"))])])]), Alternative([Sym(Symbol.Nonterminal("session close command"))])]), Rule("program activity", [Alternative([Sym(Symbol.Nonterminal("session activity"))]), Alternative([Sym(Symbol.Nonterminal("transaction activity"))])])])
  {
    Text23Tokens1();
    Text23Tokens2();
    Text23Tokens3();
    Text23Tokens4();
    Parsed23Step1(Text23);
    Parsed23Step2(Text23);
    Parsed23Step3(Text23);
    Parsed23Step4(Text23);
    Parsed23Step5(Text23);
    Parsed23Step6(Text23);
    Parsed23Step7(Text23);
    Parsed23Step8(Text23);
    Parsed23Step9(Text23);
    Parsed23Step10(Text23);
    Parsed23Step11(Text23);
    Parsed23Step12(Text23);
    Parsed23Step13(Text23);
  }

  /** test_23, block 1: its alternatives merged into its entry. */
  lemma Test23Block1Merge()
    ensures var w: Grammar := map[]; w["GQL_program" := Lookup(w, "GQL_program") + {["program_activity", "session_close_command"], ["program_activity"], ["session_close_command"]}] == map["GQL_program" := {["program_activity", "session_close_command"], ["program_activity"], ["session_close_command"]}]
  {
    var w: Grammar := map[];
    assert Lookup(w, "GQL_program") == {};
    assert {} + {["program_activity", "session_close_command"], ["program_activity"], ["session_close_command"]} == {["program_activity", "session_close_command"], ["program_activity"], ["session_close_command"]};
  }

  /** test_23: the map after block 1. */
  lemma Test23Block1()
    ensures ApplyRules(map[], [Rule("GQL-program", [Alternative([Sym(Symbol.Nonterminal("program activity")), Opt([Alternative([Sym(Symbol.Nonterminal("session close command"))])])]), Alternative([Sym(Symbol.Nonterminal("session close command"))])])]) == map["GQL_program" := {["program_activity", "session_close_command"], ["program_activity"], ["session_close_command"]}]
  {
    Step31();
    Step32();
    Test23Block1Merge();
    var g: Grammar := map[];
    WithNoLists(g);
    var rules := [Rule("GQL-program", [Alternative([Sym(Symbol.Nonterminal("program activity")), Opt([Alternative([Sym(Symbol.Nonterminal("session close command"))])])]), Alternative([Sym(Symbol.Nonterminal("session close command"))])])];
    assert rules[..0] == [];
    var w: Grammar := map[];
    BlockStep(rules, g, {}, w, "GQL_program", {["program_activity", "session_close_command"], ["program_activity"], ["session_close_command"]}, map["GQL_program" := {["program_activity", "session_close_command"], ["program_activity"], ["session_close_command"]}]);
  }

  /** test_23, block 2: its alternatives merged into its entry. */
  lemma Test23Block2Merge()
    ensures var w: Grammar := map["GQL_program" := {["program_activity", "session_close_command"], ["program_activity"], ["session_close_command"]}]; w["program_activity" := Lookup(w, "program_activity") + {["session_activity"], ["transaction_activity"]}] == map["GQL_program" := {["program_activity", "session_close_command"], ["program_activity"], ["session_close_command"]}, "program_activity" := {["session_activity"], ["transaction_activity"]}]
  {
    var w: Grammar := map["GQL_program" := {["program_activity", "session_close_command"], ["program_activity"], ["session_close_command"]}];
    assert Lookup(w, "program_activity") == {};
    assert {} + {["session_activity"], ["transaction_activity"]} == {["session_activity"], ["transaction_activity"]};
  }

  /** test_23: the map after block 2. */
  lemma Test23Block2()
    ensures ApplyRules(map[], [Rule("GQL-program", [Alternative([Sym(Symbol.Nonterminal("program activity")), Opt([Alternative([Sym(Symbol.Nonterminal("session close command"))])])]), Alternative([Sym(Symbol.Nonterminal("session close command"))])]), Rule("program activity", [Alternative([Sym(Symbol.Nonterminal("session activity"))]), Alternative([Sym(Symbol.Nonterminal("transaction activity"))])])]) == map["GQL_program" := {["program_activity", "session_close_command"], ["program_activity"], ["session_close_command"]}, "program_activity" := {["session_activity"], ["transaction_activity"]}]
  {
    Test23Block1();
    Step313();
    Step314();
    Test23Block2Merge();
    var g: Grammar := map["GQL_program" := {["program_activity", "session_close_command"], ["program_activity"], ["session_close_command"]}];
    WithNoLists(g);
    var rules := [Rule("GQL-program", [Alternative([Sym(Symbol.Nonterminal("program activity")), Opt([Alternative([Sym(Symbol.Nonterminal("session close command"))])])]), Alternative([Sym(Symbol.Nonterminal("session close command"))])]), Rule("program activity", [Alternative([Sym(Symbol.Nonterminal("session activity"))]), Alternative([Sym(Symbol.Nonterminal("transaction activity"))])])];
    assert rules[..1] == [Rule("GQL-program", [Alternative([Sym(Symbol.Nonterminal("program activity")), Opt([Alternative([Sym(Symbol.Nonterminal("session close command"))])])]), Alternative([Sym(Symbol.Nonterminal("session close command"))])])];
    var w: Grammar := map["GQL_program" := {["program_activity", "session_close_command"], ["program_activity"], ["session_close_command"]}];
    BlockStep(rules, g, {}, w, "program_activity", {["session_activity"], ["transaction_activity"]}, map["GQL_program" := {["program_activity", "session_close_command"], ["program_activity"], ["session_close_command"]}, "program_activity" := {["session_activity"], ["transaction_activity"]}]);
  }

  /** The map the test expects. */
  lemma Test23()
    ensures Convert(Text23) == Some(map["GQL_program" := {["program_activity", "session_close_command"], ["program_activity"], ["session_close_command"]}, "program_activity" := {["session_activity"], ["transaction_activity"]}])
  {
    Parsed23();
    Test23Block2();
  }


  // test_24, line 1016 of the test file
  /** The grammar text of test_24 as its token sequence. */
  const Text24: seq<Token> := [BlockEnd, Token.Nonterminal("implementation-defined access mode"), Defines, Comment("See the Syntax Rules."), BlockEnd]

  /** Tokens of test_24's text, four at a time. */
  lemma Text24Tokens1()
    ensures |Text24| == 5
    ensures Text24[0] == BlockEnd
    ensures Text24[1] == Token.Nonterminal("implementation-defined access mode")
    ensures Text24[2] == Defines
    ensures Text24[3] == Comment("See the Syntax Rules.")
  {
  }

  /** Tokens of test_24's text, four at a time. */
  lemma Text24Tokens2()
    ensures Text24[4] == BlockEnd
  {
  }

  /** Parser results on test_24's text, in evaluation order (part 1). */
  lemma Parsed24Step1(ts: seq<Token>)
    requires |ts| == 5 && ts[0] == BlockEnd && ts[1] == Token.Nonterminal("implementation-defined access mode") && ts[2] == Defines && ts[3] == Comment("See the Syntax Rules.") && ts[4] == BlockEnd
    ensures SkipBlank(ts, 1) == 1
    ensures SkipBlank(ts, 0) == 1
    ensures SkipComments(ts, 4) == 4
    ensures SkipComments(ts, 3) == 4
  {
  }

  /** Parser results on test_24's text, in evaluation order (part 2). */
  lemma Parsed24Step2(ts: seq<Token>)
    requires |ts| == 5 && ts[0] == BlockEnd && ts[1] == Token.Nonterminal("implementation-defined access mode") && ts[2] == Defines && ts[3] == Comment("See the Syntax Rules.") && ts[4] == BlockEnd
    ensures ParseRuleBody(ts, 3) == Parsed([], 4)
    ensures ParseRule(ts, 1) == Parsed(Rule("implementation-defined access mode", []), 4)
    ensures SkipBlank(ts, 5) == 5
    ensures SkipBlank(ts, 4) == 5
  {
    Parsed24Step1(ts);
  }

  /** Parser results on test_24's text, in evaluation order (part 3). */
  lemma Parsed24Step3(ts: seq<Token>)
    requires |ts| == 5 && ts[0] == BlockEnd && ts[1] == Token.Nonterminal("implementation-defined access mode") && ts[2] == Defines && ts[3] == Comment("See the Syntax Rules.") && ts[4] == BlockEnd
    ensures ParseRules(ts, 1) == Some([Rule("implementation-defined access mode", [])])
  {
    Parsed24Step2(ts);
  }

  /** The rule blocks test_24's text parses to. */
  lemma Parsed24()
    ensures Parse(Text24) == Some([Rule("implementation-defined access mode", [])])
  {
    Text24Tokens1();
    Text24Tokens2();
    Parsed24Step1(Text24);
    Parsed24Step2(Text24);
    Parsed24Step3(Text24);
  }

  /** test_24, block 1: its alternatives merged into its entry. */
  lemma Test24Block1Merge()
    ensures var w: Grammar := map[]; w["implementation_defined_access_mode" := Lookup(w, "implementation_defined_access_mode") + {}] == map["implementation_defined_access_mode" := {}]
  {
    var w: Grammar := map[];
    assert Lookup(w, "implementation_defined_access_mode") == {};
    assert Lookup(w, "implementation_defined_access_mode") + {} == {};
  }

  /** test_24: the map after block 1. */
  lemma Test24Block1()
    ensures ApplyRules(map[], [Rule("implementation-defined access mode", [])]) == map["implementation_defined_access_mode" := {}]
  {
    Step315();
    Test24Block1Merge();
    var g: Grammar := map[];
    WithNoLists(g);
    var rules := [Rule("implementation-defined access mode", [])];
    assert rules[..0] == [];
    var w: Grammar := map[];
    BlockStep(rules, g, {}, w, "implementation_defined_access_mode", {}, map["implementation_defined_access_mode" := {}]);
  }

  /** The map the test expects. */
  lemma Test24()
    ensures Convert(Text24) == Some(map["implementation_defined_access_mode" := {}])
  {
    Parsed24();
    Test24Block1();
  }


  // test_25, line 1048 of the test file
  /** The grammar text of test_25 as its token sequence. */
  const Text25: seq<Token> := [BlockEnd, Token.Nonterminal("implementation-defined access mode"), Defines, Comment("See the Syntax Rules."), BlockEnd, Token.Nonterminal("rollback command"), Defines, Token.Terminal("ROLLBACK"), BlockEnd]

  /** Tokens of test_25's text, four at a time. */
  lemma Text25Tokens1()
    ensures |Text25| == 9
    ensures Text25[0] == BlockEnd
    ensures Text25[1] == Token.Nonterminal("implementation-defined access mode")
    ensures Text25[2] == Defines
    ensures Text25[3] == Comment("See the Syntax Rules.")
  {
  }

  /** Tokens of test_25's text, four at a time. */
  lemma Text25Tokens2()
    ensures Text25[4] == BlockEnd
    ensures Text25[5] == Token.Nonterminal("rollback command")
    ensures Text25[6] == Defines
    ensures Text25[7] == Token.Terminal("ROLLBACK")
  {
  }

  /** Tokens of test_25's text, four at a time. */
  lemma Text25Tokens3()
    ensures Text25[8] == BlockEnd
  {
  }

  /** Parser results on test_25's text, in evaluation order (part 1). */
  lemma Parsed25Step1(ts: seq<Token>)
    requires |ts| == 9 && ts[0] == BlockEnd && ts[1] == Token.Nonterminal("implementation-defined access mode") && ts[2] == Defines && ts[3] == Comment("See the Syntax Rules.") && ts[4] == BlockEnd && ts[5] == Token.Nonterminal("rollback command") && ts[6] == Defines && ts[7] == Token.Terminal("ROLLBACK") && ts[8] == BlockEnd
    ensures SkipBlank(ts, 1) == 1
    ensures SkipBlank(ts, 0) == 1
    ensures SkipComments(ts, 4) == 4
    ensures SkipComments(ts, 3) == 4
  {
  }

  /** Parser results on test_25's text, in evaluation order (part 2). */
  lemma Parsed25Step2(ts: seq<Token>)
    requires |ts| == 9 && ts[0] == BlockEnd && ts[1] == Token.Nonterminal("implementation-defined access mode") && ts[2] == Defines && ts[3] == Comment("See the Syntax Rules.") && ts[4] == BlockEnd && ts[5] == Token.Nonterminal("rollback command") && ts[6] == Defines && ts[7] == Token.Terminal("ROLLBACK") && ts[8] == BlockEnd
    ensures ParseRuleBody(ts, 3) == Parsed([], 4)
    ensures ParseRule(ts, 1) == Parsed(Rule("implementation-defined access mode", []), 4)
    ensures SkipBlank(ts, 5) == 5
    ensures SkipBlank(ts, 4) == 5
  {
    Parsed25Step1(ts);
  }

  /** Parser results on test_25's text, in evaluation order (part 3). */
  lemma Parsed25Step3(ts: seq<Token>)
    requires |ts| == 9 && ts[0] == BlockEnd && ts[1] == Token.Nonterminal("implementation-defined access mode") && ts[2] == Defines && ts[3] == Comment("See the Syntax Rules.") && ts[4] == BlockEnd && ts[5] == Token.Nonterminal("rollback command") && ts[6] == Defines && ts[7] == Token.Terminal("ROLLBACK") && ts[8] == BlockEnd
    ensures ParseElement(ts, 7) == Parsed(Sym(Symbol.Terminal("ROLLBACK")), 8)
    ensures ParseItems(ts, 8) == Parsed([], 8)
    ensures [Sym(Symbol.Terminal("ROLLBACK"))] + [] == [Sym(Symbol.Terminal("ROLLBACK"))]
    ensures ParseAlternative(ts, 7) == Parsed(Alternative([Sym(Symbol.Terminal("ROLLBACK"))]), 8)
  {
  }

  /** Parser results on test_25's text, in evaluation order (part 4). */
  lemma Parsed25Step4(ts: seq<Token>)
    requires |ts| == 9 && ts[0] == BlockEnd && ts[1] == Token.Nonterminal("implementation-defined access mode") && ts[2] == Defines && ts[3] == Comment("See the Syntax Rules.") && ts[4] == BlockEnd && ts[5] == Token.Nonterminal("rollback command") && ts[6] == Defines && ts[7] == Token.Terminal("ROLLBACK") && ts[8] == BlockEnd
    ensures SkipBlank(ts, 9) == 9
    ensures SkipBlank(ts, 8) == 9
    ensures ParseMoreAlternatives(ts, 8) == Parsed([], 8)
    ensures [Alternative([Sym(Symbol.Terminal("ROLLBACK"))])] + [] == [Alternative([Sym(Symbol.Terminal("ROLLBACK"))])]
  {
  }

  /** Parser results on test_25's text, in evaluation order (part 5). */
  lemma Parsed25Step5(ts: seq<Token>)
    requires |ts| == 9 && ts[0] == BlockEnd && ts[1] == Token.Nonterminal("implementation-defined access mode") && ts[2] == Defines && ts[3] == Comment("See the Syntax Rules.") && ts[4] == BlockEnd && ts[5] == Token.Nonterminal("rollback command") && ts[6] == Defines && ts[7] == Token.Terminal("ROLLBACK") && ts[8] == BlockEnd
    ensures ParseAlternatives(ts, 7) == Parsed([Alternative([Sym(Symbol.Terminal("ROLLBACK"))])], 8)
    ensures ParseRuleBody(ts, 7) == Parsed([Alternative([Sym(Symbol.Terminal("ROLLBACK"))])], 8)
    ensures ParseRule(ts, 5) == Parsed(Rule("rollback command", [Alternative([Sym(Symbol.Terminal("ROLLBACK"))])]), 8)
    ensures ParseRules(ts, 5) == Some([Rule("rollback command", [Alternative([Sym(Symbol.Terminal("ROLLBACK"))])])])
  {
    Parsed25Step3(ts);
    Parsed25Step4(ts);
  }

  /** Parser results on test_25's text, in evaluation order (part 6). */
  lemma Parsed25Step6(ts: seq<Token>)
    requires |ts| == 9 && ts[0] == BlockEnd && ts[1] == Token.Nonterminal("implementation-defined access mode") && ts[2] == Defines && ts[3] == Comment("See the Syntax Rules.") && ts[4] == BlockEnd && ts[5] == Token.Nonterminal("rollback command") && ts[6] == Defines && ts[7] == Token.Terminal("ROLLBACK") && ts[8] == BlockEnd
    ensures [Rule("implementation-defined access mode", [])] + [Rule("rollback command", [Alternative([Sym(Symbol.Terminal("ROLLBACK"))])])] == [Rule("implementation-defined access mode", []), Rule("rollback command", [Alternative([Sym(Symbol.Terminal("ROLLBACK"))])])]
    ensures ParseRules(ts, 1) == Some([Rule("implementation-defined access mode", []), Rule("rollback command", [Alternative([Sym(Symbol.Terminal("ROLLBACK"))])])])
  {
    Parsed25Step2(ts);
    Parsed25Step5(ts);
  }

  /** The rule blocks test_25's text parses to. */
  lemma Parsed25()
    ensures Parse(Text25) == Some([Rule("implementation-defined access mode", []), Rule("rollback command", [Alternative([Sym(Symbol.Terminal("ROLLBACK"))])])])
  {
    Text25Tokens1();
    Text25Tokens2();
    Text25Tokens3();
    Parsed25Step1(Text25);
    Parsed25Step2(Text25);
    Parsed25Step3(Text25);
    Parsed25Step4(Text25);
    Parsed25Step5(Text25);
    Parsed25Step6(Text25);
  }

  /** test_25, block 1: its alternatives merged into its entry. */
  lemma Test25Block1Merge()
    ensures var w: Grammar := map[]; w["implementation_defined_access_mode" := Lookup(w, "implementation_defined_access_mode") + {}] == map["implementation_defined_access_mode" := {}]
  {
    var w: Grammar := map[];
    assert Lookup(w, "implementation_defined_access_mode") == {};
    assert Lookup(w, "implementation_defined_access_mode") + {} == {};
  }

  /** test_25: the map after block 1. */
  lemma Test25Block1()
    ensures ApplyRules(map[], [Rule("implementation-defined access mode", [])]) == map["implementation_defined_access_mode" := {}]
  {
    Step315();
    Test25Block1Merge();
    var g: Grammar := map[];
    WithNoLists(g);
    var rules := [Rule("implementation-defined access mode", [])];
    assert rules[..0] == [];
    var w: Grammar := map[];
    BlockStep(rules, g, {}, w, "implementation_defined_access_mode", {}, map["implementation_defined_access_mode" := {}]);
  }

  /** test_25, block 2: its alternatives merged into its entry. */
  lemma Test25Block2Merge()
    ensures var w: Grammar := map["implementation_defined_access_mode" := {}]; w["rollback_command" := Lookup(w, "rollback_command") + {["ROLLBACK"]}] == map["implementation_defined_access_mode" := {}, "rollback_command" := {["ROLLBACK"]}]
  {
    var w: Grammar := map["implementation_defined_access_mode" := {}];
    assert Lookup(w, "rollback_command") == {};
    assert {} + {["ROLLBACK"]} == {["ROLLBACK"]};
  }

  /** test_25: the map after block 2. */
  lemma Test25Block2()
    ensures ApplyRules(map[], [Rule("implementation-defined access mode", []), Rule("rollback command", [Alternative([Sym(Symbol.Terminal("ROLLBACK"))])])]) == map["implementation_defined_access_mode" := {}, "rollback_command" := {["ROLLBACK"]}]
  {
    Test25Block1();
    Step318();
    Step319();
    Test25Block2Merge();
    var g: Grammar := map["implementation_defined_access_mode" := {}];
    WithNoLists(g);
    var rules := [Rule("implementation-defined access mode", []), Rule("rollback command", [Alternative([Sym(Symbol.Terminal("ROLLBACK"))])])];
    assert rules[..1] == [Rule("implementation-defined access mode", [])];
    var w: Grammar := map["implementation_defined_access_mode" := {}];
    BlockStep(rules, g, {}, w, "rollback_command", {["ROLLBACK"]}, map["implementation_defined_access_mode" := {}, "rollback_command" := {["ROLLBACK"]}]);
  }

  /** The map the test expects. */
  lemma Test25()
    ensures Convert(Text25) == Some(map["implementation_defined_access_mode" := {}, "rollback_command" := {["ROLLBACK"]}])
  {
    Parsed25();
    Test25Block2();
  }


  // test_26, line 1090 of the test file
  /** The grammar text of test_26 as its token sequence. */
  const Text26: seq<Token> := [BlockEnd, Token.Nonterminal("pre-reserved word"), Defines, Token.Terminal("ABSTRACT"), BlockEnd, Bar, Token.Terminal("AGGREGATE"), BlockEnd, Bar, Token.Terminal("AGGREGATES")]

  /** Tokens of test_26's text, four at a time. */
  lemma Text26Tokens1()
    ensures |Text26| == 10
    ensures Text26[0] == BlockEnd
    ensures Text26[1] == Token.Nonterminal("pre-reserved word")
    ensures Text26[2] == Defines
    ensures Text26[3] == Token.Terminal("ABSTRACT")
  {
  }

  /** Tokens of test_26's text, four at a time. */
  lemma Text26Tokens2()
    ensures Text26[4] == BlockEnd
    ensures Text26[5] == Bar
    ensures Text26[6] == Token.Terminal("AGGREGATE")
    ensures Text26[7] == BlockEnd
  {
  }

  /** Tokens of test_26's text, four at a time. */
  lemma Text26Tokens3()
    ensures Text26[8] == Bar
    ensures Text26[9] == Token.Terminal("AGGREGATES")
  {
  }

  /** Parser results on test_26's text, in evaluation order (part 1). */
  lemma Parsed26Step1(ts: seq<Token>)
    requires |ts| == 10 && ts[0] == BlockEnd && ts[1] == Token.Nonterminal("pre-reserved word") && ts[2] == Defines && ts[3] == Token.Terminal("ABSTRACT") && ts[4] == BlockEnd && ts[5] == Bar && ts[6] == Token.Terminal("AGGREGATE") && ts[7] == BlockEnd && ts[8] == Bar && ts[9] == Token.Terminal("AGGREGATES")
    ensures SkipBlank(ts, 1) == 1
    ensures SkipBlank(ts, 0) == 1
    ensures ParseElement(ts, 3) == Parsed(Sym(Symbol.Terminal("ABSTRACT")), 4)
    ensures ParseItems(ts, 4) == Parsed([], 4)
  {
  }

  /** Parser results on test_26's text, in evaluation order (part 2). */
  lemma Parsed26Step2(ts: seq<Token>)
    requires |ts| == 10 && ts[0] == BlockEnd && ts[1] == Token.Nonterminal("pre-reserved word") && ts[2] == Defines && ts[3] == Token.Terminal("ABSTRACT") && ts[4] == BlockEnd && ts[5] == Bar && ts[6] == Token.Terminal("AGGREGATE") && ts[7] == BlockEnd && ts[8] == Bar && ts[9] == Token.Terminal("AGGREGATES")
    ensures [Sym(Symbol.Terminal("ABSTRACT"))] + [] == [Sym(Symbol.Terminal("ABSTRACT"))]
    ensures ParseAlternative(ts, 3) == Parsed(Alternative([Sym(Symbol.Terminal("ABSTRACT"))]), 4)
    ensures SkipBlank(ts, 5) == 5
    ensures SkipBlank(ts, 4) == 5
  {
    Parsed26Step1(ts);
  }

  /** Parser results on test_26's text, in evaluation order (part 3). */
  lemma Parsed26Step3(ts: seq<Token>)
    requires |ts| == 10 && ts[0] == BlockEnd && ts[1] == Token.Nonterminal("pre-reserved word") && ts[2] == Defines && ts[3] == Token.Terminal("ABSTRACT") && ts[4] == BlockEnd && ts[5] == Bar && ts[6] == Token.Terminal("AGGREGATE") && ts[7] == BlockEnd && ts[8] == Bar && ts[9] == Token.Terminal("AGGREGATES")
    ensures ParseElement(ts, 6) == Parsed(Sym(Symbol.Terminal("AGGREGATE")), 7)
    ensures ParseItems(ts, 7) == Parsed([], 7)
    ensures [Sym(Symbol.Terminal("AGGREGATE"))] + [] == [Sym(Symbol.Terminal("AGGREGATE"))]
    ensures ParseAlternative(ts, 6) == Parsed(Alternative([Sym(Symbol.Terminal("AGGREGATE"))]), 7)
  {
  }

  /** Parser results on test_26's text, in evaluation order (part 4). */
  lemma Parsed26Step4(ts: seq<Token>)
    requires |ts| == 10 && ts[0] == BlockEnd && ts[1] == Token.Nonterminal("pre-reserved word") && ts[2] == Defines && ts[3] == Token.Terminal("ABSTRACT") && ts[4] == BlockEnd && ts[5] == Bar && ts[6] == Token.Terminal("AGGREGATE") && ts[7] == BlockEnd && ts[8] == Bar && ts[9] == Token.Terminal("AGGREGATES")
    ensures SkipBlank(ts, 8) == 8
    ensures SkipBlank(ts, 7) == 8
    ensures ParseElement(ts, 9) == Parsed(Sym(Symbol.Terminal("AGGREGATES")), 10)
    ensures ParseItems(ts, 10) == Parsed([], 10)
  {
  }

  /** Parser results on test_26's text, in evaluation order (part 5). */
  lemma Parsed26Step5(ts: seq<Token>)
    requires |ts| == 10 && ts[0] == BlockEnd && ts[1] == Token.Nonterminal("pre-reserved word") && ts[2] == Defines && ts[3] == Token.Terminal("ABSTRACT") && ts[4] == BlockEnd && ts[5] == Bar && ts[6] == Token.Terminal("AGGREGATE") && ts[7] == BlockEnd && ts[8] == Bar && ts[9] == Token.Terminal("AGGREGATES")
    ensures [Sym(Symbol.Terminal("AGGREGATES"))] + [] == [Sym(Symbol.Terminal("AGGREGATES"))]
    ensures ParseAlternative(ts, 9) == Parsed(Alternative([Sym(Symbol.Terminal("AGGREGATES"))]), 10)
    ensures ParseMoreAlternatives(ts, 10) == Parsed([], 10)
    ensures [Alternative([Sym(Symbol.Terminal("AGGREGATES"))])] + [] == [Alternative([Sym(Symbol.Terminal("AGGREGATES"))])]
  {
    Parsed26Step4(ts);
  }

  /** Parser results on test_26's text, in evaluation order (part 6). */
  lemma Parsed26Step6(ts: seq<Token>)
    requires |ts| == 10 && ts[0] == BlockEnd && ts[1] == Token.Nonterminal("pre-reserved word") && ts[2] == Defines && ts[3] == Token.Terminal("ABSTRACT") && ts[4] == BlockEnd && ts[5] == Bar && ts[6] == Token.Terminal("AGGREGATE") && ts[7] == BlockEnd && ts[8] == Bar && ts[9] == Token.Terminal("AGGREGATES")
    ensures ParseMoreAlternatives(ts, 7) == Parsed([Alternative([Sym(Symbol.Terminal("AGGREGATES"))])], 10)
    ensures [Alternative([Sym(Symbol.Terminal("AGGREGATE"))])] + [Alternative([Sym(Symbol.Terminal("AGGREGATES"))])] == [Alternative([Sym(Symbol.Terminal("AGGREGATE"))]), Alternative([Sym(Symbol.Terminal("AGGREGATES"))])]
    ensures ParseMoreAlternatives(ts, 4) == Parsed([Alternative([Sym(Symbol.Terminal("AGGREGATE"))]), Alternative([Sym(Symbol.Terminal("AGGREGATES"))])], 10)
    ensures [Alternative([Sym(Symbol.Terminal("ABSTRACT"))])] + [Alternative([Sym(Symbol.Terminal("AGGREGATE"))]), Alternative([Sym(Symbol.Terminal("AGGREGATES"))])] == [Alternative([Sym(Symbol.Terminal("ABSTRACT"))]), Alternative([Sym(Symbol.Terminal("AGGREGATE"))]), Alternative([Sym(Symbol.Terminal("AGGREGATES"))])]
  {
    Parsed26Step2(ts);
    Parsed26Step3(ts);
    Parsed26Step4(ts);
    Parsed26Step5(ts);
  }

  /** Parser results on test_26's text, in evaluation order (part 7). */
  lemma Parsed26Step7(ts: seq<Token>)
    requires |ts| == 10 && ts[0] == BlockEnd && ts[1] == Token.Nonterminal("pre-reserved word") && ts[2] == Defines && ts[3] == Token.Terminal("ABSTRACT") && ts[4] == BlockEnd && ts[5] == Bar && ts[6] == Token.Terminal("AGGREGATE") && ts[7] == BlockEnd && ts[8] == Bar && ts[9] == Token.Terminal("AGGREGATES")
    ensures ParseAlternatives(ts, 3) == Parsed([Alternative([Sym(Symbol.Terminal("ABSTRACT"))]), Alternative([Sym(Symbol.Terminal("AGGREGATE"))]), Alternative([Sym(Symbol.Terminal("AGGREGATES"))])], 10)
    ensures ParseRuleBody(ts, 3) == Parsed([Alternative([Sym(Symbol.Terminal("ABSTRACT"))]), Alternative([Sym(Symbol.Terminal("AGGREGATE"))]), Alternative([Sym(Symbol.Terminal("AGGREGATES"))])], 10)
    ensures ParseRule(ts, 1) == Parsed(Rule("pre-reserved word", [Alternative([Sym(Symbol.Terminal("ABSTRACT"))]), Alternative([Sym(Symbol.Terminal("AGGREGATE"))]), Alternative([Sym(Symbol.Terminal("AGGREGATES"))])]), 10)
    ensures ParseRules(ts, 1) == Some([Rule("pre-reserved word", [Alternative([Sym(Symbol.Terminal("ABSTRACT"))]), Alternative([Sym(Symbol.Terminal("AGGREGATE"))]), Alternative([Sym(Symbol.Terminal("AGGREGATES"))])])])
  {
    Parsed26Step2(ts);
    Parsed26Step6(ts);
  }

  /** The rule blocks test_26's text parses to. */
  lemma Parsed26()
    ensures Parse(Text26) == Some([Rule("pre-reserved word", [Alternative([Sym(Symbol.Terminal("ABSTRACT"))]), Alternative([Sym(Symbol.Terminal("AGGREGATE"))]), Alternative([Sym(Symbol.Terminal("AGGREGATES"))])])])
  {
    Text26Tokens1();
    Text26Tokens2();
    Text26Tokens3();
    Parsed26Step1(Text26);
    Parsed26Step2(Text26);
    Parsed26Step3(Text26);
    Parsed26Step4(Text26);
    Parsed26Step5(Text26);
    Parsed26Step6(Text26);
    Parsed26Step7(Text26);
  }

  /** test_26, block 1: its alternatives merged into its entry. */
  lemma Test26Block1Merge()
    ensures var w: Grammar := map[]; w["pre_reserved_word" := Lookup(w, "pre_reserved_word") + {["ABSTRACT"], ["AGGREGATE"], ["AGGREGATES"]}] == map["pre_reserved_word" := {["ABSTRACT"], ["AGGREGATE"], ["AGGREGATES"]}]
  {
    var w: Grammar := map[];
    assert Lookup(w, "pre_reserved_word") == {};
    assert {} + {["ABSTRACT"], ["AGGREGATE"], ["AGGREGATES"]} == {["ABSTRACT"], ["AGGREGATE"], ["AGGREGATES"]};
  }

  /** test_26: the map after block 1. */
  lemma Test26Block1()
    ensures ApplyRules(map[], [Rule("pre-reserved word", [Alternative([Sym(Symbol.Terminal("ABSTRACT"))]), Alternative([Sym(Symbol.Terminal("AGGREGATE"))]), Alternative([Sym(Symbol.Terminal("AGGREGATES"))])])]) == map["pre_reserved_word" := {["ABSTRACT"], ["AGGREGATE"], ["AGGREGATES"]}]
  {
    Step328();
    Step329();
    Test26Block1Merge();
    var g: Grammar := map[];
    WithNoLists(g);
    var rules := [Rule("pre-reserved word", [Alternative([Sym(Symbol.Terminal("ABSTRACT"))]), Alternative([Sym(Symbol.Terminal("AGGREGATE"))]), Alternative([Sym(Symbol.Terminal("AGGREGATES"))])])];
    assert rules[..0] == [];
    var w: Grammar := map[];
    BlockStep(rules, g, {}, w, "pre_reserved_word", {["ABSTRACT"], ["AGGREGATE"], ["AGGREGATES"]}, map["pre_reserved_word" := {["ABSTRACT"], ["AGGREGATE"], ["AGGREGATES"]}]);
  }

  /** The map the test expects. */
  lemma Test26()
    ensures Convert(Text26) == Some(map["pre_reserved_word" := {["ABSTRACT"], ["AGGREGATE"], ["AGGREGATES"]}])
  {
    Parsed26();
    Test26Block1();
  }


  // test_27, line 1130 of the test file
  /** The grammar text of test_27 as its token sequence. */
  const Text27: seq<Token> := [BlockEnd, Token.Nonterminal("pre-reserved word"), Defines, Bar, Token.Terminal("ABSTRACT"), BlockEnd, Bar, Token.Terminal("AGGREGATE"), BlockEnd, Bar, Token.Terminal("AGGREGATES")]

  /** Tokens of test_27's text, four at a time. */
  lemma Text27Tokens1()
    ensures |Text27| == 11
    ensures Text27[0] == BlockEnd
    ensures Text27[1] == Token.Nonterminal("pre-reserved word")
    ensures Text27[2] == Defines
    ensures Text27[3] == Bar
  {
  }

  /** Tokens of test_27's text, four at a time. */
  lemma Text27Tokens2()
    ensures Text27[4] == Token.Terminal("ABSTRACT")
    ensures Text27[5] == BlockEnd
    ensures Text27[6] == Bar
    ensures Text27[7] == Token.Terminal("AGGREGATE")
  {
  }

  /** Tokens of test_27's text, four at a time. */
  lemma Text27Tokens3()
    ensures Text27[8] == BlockEnd
    ensures Text27[9] == Bar
    ensures Text27[10] == Token.Terminal("AGGREGATES")
  {
  }

  /** Parser results on test_27's text, in evaluation order (part 1). */
  lemma Parsed27Step1(ts: seq<Token>)
    requires |ts| == 11 && ts[0] == BlockEnd && ts[1] == Token.Nonterminal("pre-reserved word") && ts[2] == Defines && ts[3] == Bar && ts[4] == Token.Terminal("ABSTRACT") && ts[5] == BlockEnd && ts[6] == Bar && ts[7] == Token.Terminal("AGGREGATE") && ts[8] == BlockEnd && ts[9] == Bar && ts[10] == Token.Terminal("AGGREGATES")
    ensures SkipBlank(ts, 1) == 1
    ensures SkipBlank(ts, 0) == 1
    ensures ParseRuleBody(ts, 3) == Parsed([], 3)
    ensures ParseRule(ts, 1) == Parsed(Rule("pre-reserved word", []), 3)
  {
  }

  /** Parser results on test_27's text, in evaluation order (part 2). */
  lemma Parsed27Step2(ts: seq<Token>)
    requires |ts| == 11 && ts[0] == BlockEnd && ts[1] == Token.Nonterminal("pre-reserved word") && ts[2] == Defines && ts[3] == Bar && ts[4] == Token.Terminal("ABSTRACT") && ts[5] == BlockEnd && ts[6] == Bar && ts[7] == Token.Terminal("AGGREGATE") && ts[8] == BlockEnd && ts[9] == Bar && ts[10] == Token.Terminal("AGGREGATES")
    ensures ParseRules(ts, 1) == None
  {
    Parsed27Step1(ts);
  }

  /** The rule blocks test_27's text parses to. */
  lemma Parsed27()
    ensures Parse(Text27) == None
  {
    Text27Tokens1();
    Text27Tokens2();
    Text27Tokens3();
    Parsed27Step1(Text27);
    Parsed27Step2(Text27);
  }

  /** The text is rejected and no map is produced. */
  lemma Test27()
    ensures Convert(Text27) == None
  {
    Parsed27();
  }


  // test_28, line 1159 of the test file
  /** The grammar text of test_28 as its token sequence. */
  const Text28: seq<Token> := [BlockEnd, Token.Nonterminal("space"), Defines, Quoted("\" \"")]

  /** Tokens of test_28's text, four at a time. */
  lemma Text28Tokens1()
    ensures |Text28| == 4
    ensures Text28[0] == BlockEnd
    ensures Text28[1] == Token.Nonterminal("space")
    ensures Text28[2] == Defines
    ensures Text28[3] == Quoted("\" \"")
  {
  }

  /** Parser results on test_28's text, in evaluation order (part 1). */
  lemma Parsed28Step1(ts: seq<Token>)
    requires |ts| == 4 && ts[0] == BlockEnd && ts[1] == Token.Nonterminal("space") && ts[2] == Defines && ts[3] == Quoted("\" \"")
    ensures SkipBlank(ts, 1) == 1
    ensures SkipBlank(ts, 0) == 1
    ensures ParseElement(ts, 3) == Parsed(Sym(Symbol.Terminal("\" \"")), 4)
    ensures ParseItems(ts, 4) == Parsed([], 4)
  {
  }

  /** Parser results on test_28's text, in evaluation order (part 2). */
  lemma Parsed28Step2(ts: seq<Token>)
    requires |ts| == 4 && ts[0] == BlockEnd && ts[1] == Token.Nonterminal("space") && ts[2] == Defines && ts[3] == Quoted("\" \"")
    ensures [Sym(Symbol.Terminal("\" \""))] + [] == [Sym(Symbol.Terminal("\" \""))]
    ensures ParseAlternative(ts, 3) == Parsed(Alternative([Sym(Symbol.Terminal("\" \""))]), 4)
    ensures ParseMoreAlternatives(ts, 4) == Parsed([], 4)
    ensures [Alternative([Sym(Symbol.Terminal("\" \""))])] + [] == [Alternative([Sym(Symbol.Terminal("\" \""))])]
  {
    Parsed28Step1(ts);
  }

  /** Parser results on test_28's text, in evaluation order (part 3). */
  lemma Parsed28Step3(ts: seq<Token>)
    requires |ts| == 4 && ts[0] == BlockEnd && ts[1] == Token.Nonterminal("space") && ts[2] == Defines && ts[3] == Quoted("\" \"")
    ensures ParseAlternatives(ts, 3) == Parsed([Alternative([Sym(Symbol.Terminal("\" \""))])], 4)
    ensures ParseRuleBody(ts, 3) == Parsed([Alternative([Sym(Symbol.Terminal("\" \""))])], 4)
    ensures ParseRule(ts, 1) == Parsed(Rule("space", [Alternative([Sym(Symbol.Terminal("\" \""))])]), 4)
    ensures ParseRules(ts, 1) == Some([Rule("space", [Alternative([Sym(Symbol.Terminal("\" \""))])])])
  {
    Parsed28Step2(ts);
  }

  /** The rule blocks test_28's text parses to. */
  lemma Parsed28()
    ensures Parse(Text28) == Some([Rule("space", [Alternative([Sym(Symbol.Terminal("\" \""))])])])
  {
    Text28Tokens1();
    Parsed28Step1(Text28);
    Parsed28Step2(Text28);
    Parsed28Step3(Text28);
  }

  /** test_28, block 1: its alternatives merged into its entry. */
  lemma Test28Block1Merge()
    ensures var w: Grammar := map[]; w["space" := Lookup(w, "space") + {["\" \""]}] == map["space" := {["\" \""]}]
  {
    var w: Grammar := map[];
    assert Lookup(w, "space") == {};
    assert {} + {["\" \""]} == {["\" \""]};
  }

  /** test_28: the map after block 1. */
  lemma Test28Block1()
    ensures ApplyRules(map[], [Rule("space", [Alternative([Sym(Symbol.Terminal("\" \""))])])]) == map["space" := {["\" \""]}]
  {
    Step332();
    Step333();
    Test28Block1Merge();
    var g: Grammar := map[];
    WithNoLists(g);
    var rules := [Rule("space", [Alternative([Sym(Symbol.Terminal("\" \""))])])];
    assert rules[..0] == [];
    var w: Grammar := map[];
    BlockStep(rules, g, {}, w, "space", {["\" \""]}, map["space" := {["\" \""]}]);
  }

  /** The map the test expects. */
  lemma Test28()
    ensures Convert(Text28) == Some(map["space" := {["\" \""]}])
  {
    Parsed28();
    Test28Block1();
  }


  // test_29, line 1192 of the test file
  /** The grammar text of test_29 as its token sequence. */
  const Text29: seq<Token> := [BlockEnd, Token.Nonterminal("right brace"), Defines, Quoted("\"}\"")]

  /** Tokens of test_29's text, four at a time. */
  lemma Text29Tokens1()
    ensures |Text29| == 4
    ensures Text29[0] == BlockEnd
    ensures Text29[1] == Token.Nonterminal("right brace")
    ensures Text29[2] == Defines
    ensures Text29[3] == Quoted("\"}\"")
  {
  }

  /** Parser results on test_29's text, in evaluation order (part 1). */
  lemma Parsed29Step1(ts: seq<Token>)
    requires |ts| == 4 && ts[0] == BlockEnd && ts[1] == Token.Nonterminal("right brace") && ts[2] == Defines && ts[3] == Quoted("\"}\"")
    ensures SkipBlank(ts, 1) == 1
    ensures SkipBlank(ts, 0) == 1
    ensures ParseElement(ts, 3) == Parsed(Sym(Symbol.Terminal("\"}\"")), 4)
    ensures ParseItems(ts, 4) == Parsed([], 4)
  {
  }

  /** Parser results on test_29's text, in evaluation order (part 2). */
  lemma Parsed29Step2(ts: seq<Token>)
    requires |ts| == 4 && ts[0] == BlockEnd && ts[1] == Token.Nonterminal("right brace") && ts[2] == Defines && ts[3] == Quoted("\"}\"")
    ensures [Sym(Symbol.Terminal("\"}\""))] + [] == [Sym(Symbol.Terminal("\"}\""))]
    ensures ParseAlternative(ts, 3) == Parsed(Alternative([Sym(Symbol.Terminal("\"}\""))]), 4)
    ensures ParseMoreAlternatives(ts, 4) == Parsed([], 4)
    ensures [Alternative([Sym(Symbol.Terminal("\"}\""))])] + [] == [Alternative([Sym(Symbol.Terminal("\"}\""))])]
  {
    Parsed29Step1(ts);
  }

  /** Parser results on test_29's text, in evaluation order (part 3). */
  lemma Parsed29Step3(ts: seq<Token>)
    requires |ts| == 4 && ts[0] == BlockEnd && ts[1] == Token.Nonterminal("right brace") && ts[2] == Defines && ts[3] == Quoted("\"}\"")
    ensures ParseAlternatives(ts, 3) == Parsed([Alternative([Sym(Symbol.Terminal("\"}\""))])], 4)
    ensures ParseRuleBody(ts, 3) == Parsed([Alternative([Sym(Symbol.Terminal("\"}\""))])], 4)
    ensures ParseRule(ts, 1) == Parsed(Rule("right brace", [Alternative([Sym(Symbol.Terminal("\"}\""))])]), 4)
    ensures ParseRules(ts, 1) == Some([Rule("right brace", [Alternative([Sym(Symbol.Terminal("\"}\""))])])])
  {
    Parsed29Step2(ts);
  }

  /** The rule blocks test_29's text parses to. */
  lemma Parsed29()
    ensures Parse(Text29) == Some([Rule("right brace", [Alternative([Sym(Symbol.Terminal("\"}\""))])])])
  {
    Text29Tokens1();
    Parsed29Step1(Text29);
    Parsed29Step2(Text29);
    Parsed29Step3(Text29);
  }

  /** test_29, block 1: its alternatives merged into its entry. */
  lemma Test29Block1Merge()
    ensures var w: Grammar := map[]; w["right_brace" := Lookup(w, "right_brace") + {["\"}\""]}] == map["right_brace" := {["\"}\""]}]
  {
    var w: Grammar := map[];
    assert Lookup(w, "right_brace") == {};
    assert {} + {["\"}\""]} == {["\"}\""]};
  }

  /** test_29: the map after block 1. */
  lemma Test29Block1()
    ensures ApplyRules(map[], [Rule("right brace", [Alternative([Sym(Symbol.Terminal("\"}\""))])])]) == map["right_brace" := {["\"}\""]}]
  {
    Step336();
    Step337();
    Test29Block1Merge();
    var g: Grammar := map[];
    WithNoLists(g);
    var rules := [Rule("right brace", [Alternative([Sym(Symbol.Terminal("\"}\""))])])];
    assert rules[..0] == [];
    var w: Grammar := map[];
    BlockStep(rules, g, {}, w, "right_brace", {["\"}\""]}, map["right_brace" := {["\"}\""]}]);
  }

  /** The map the test expects. */
  lemma Test29()
    ensures Convert(Text29) == Some(map["right_brace" := {["\"}\""]}])
  {
    Parsed29();
    Test29Block1();
  }


  // test_30, line 1225 of the test file
  /** The grammar text of test_30 as its token sequence. */
  const Text30: seq<Token> := [BlockEnd, Token.Nonterminal("reverse solidus"), Defines, Quoted("\"\\\\\""), BlockEnd, Token.Nonterminal("right brace"), Defines, Quoted("\"}\"")]

  /** Tokens of test_30's text, four at a time. */
  lemma Text30Tokens1()
    ensures |Text30| == 8
    ensures Text30[0] == BlockEnd
    ensures Text30[1] == Token.Nonterminal("reverse solidus")
    ensures Text30[2] == Defines
    ensures Text30[3] == Quoted("\"\\\\\"")
  {
  }

  /** Tokens of test_30's text, four at a time. */
  lemma Text30Tokens2()
    ensures Text30[4] == BlockEnd
    ensures Text30[5] == Token.Nonterminal("right brace")
    ensures Text30[6] == Defines
    ensures Text30[7] == Quoted("\"}\"")
  {
  }

  /** Parser results on test_30's text, in evaluation order (part 1). */
  lemma Parsed30Step1(ts: seq<Token>)
    requires |ts| == 8 && ts[0] == BlockEnd && ts[1] == Token.Nonterminal("reverse solidus") && ts[2] == Defines && ts[3] == Quoted("\"\\\\\"") && ts[4] == BlockEnd && ts[5] == Token.Nonterminal("right brace") && ts[6] == Defines && ts[7] == Quoted("\"}\"")
    ensures SkipBlank(ts, 1) == 1
    ensures SkipBlank(ts, 0) == 1
    ensures ParseElement(ts, 3) == Parsed(Sym(Symbol.Terminal("\"\\\\\"")), 4)
    ensures ParseItems(ts, 4) == Parsed([], 4)
  {
  }

  /** Parser results on test_30's text, in evaluation order (part 2). */
  lemma Parsed30Step2(ts: seq<Token>)
    requires |ts| == 8 && ts[0] == BlockEnd && ts[1] == Token.Nonterminal("reverse solidus") && ts[2] == Defines && ts[3] == Quoted("\"\\\\\"") && ts[4] == BlockEnd && ts[5] == Token.Nonterminal("right brace") && ts[6] == Defines && ts[7] == Quoted("\"}\"")
    ensures [Sym(Symbol.Terminal("\"\\\\\""))] + [] == [Sym(Symbol.Terminal("\"\\\\\""))]
    ensures ParseAlternative(ts, 3) == Parsed(Alternative([Sym(Symbol.Terminal("\"\\\\\""))]), 4)
    ensures SkipBlank(ts, 5) == 5
    ensures SkipBlank(ts, 4) == 5
  {
    Parsed30Step1(ts);
  }

  /** Parser results on test_30's text, in evaluation order (part 3). */
  lemma Parsed30Step3(ts: seq<Token>)
    requires |ts| == 8 && ts[0] == BlockEnd && ts[1] == Token.Nonterminal("reverse solidus") && ts[2] == Defines && ts[3] == Quoted("\"\\\\\"") && ts[4] == BlockEnd && ts[5] == Token.Nonterminal("right brace") && ts[6] == Defines && ts[7] == Quoted("\"}\"")
    ensures ParseMoreAlternatives(ts, 4) == Parsed([], 4)
    ensures [Alternative([Sym(Symbol.Terminal("\"\\\\\""))])] + [] == [Alternative([Sym(Symbol.Terminal("\"\\\\\""))])]
    ensures ParseAlternatives(ts, 3) == Parsed([Alternative([Sym(Symbol.Terminal("\"\\\\\""))])], 4)
    ensures ParseRuleBody(ts, 3) == Parsed([Alternative([Sym(Symbol.Terminal("\"\\\\\""))])], 4)
  {
    Parsed30Step2(ts);
  }

  /** Parser results on test_30's text, in evaluation order (part 4). */
  lemma Parsed30Step4(ts: seq<Token>)
    requires |ts| == 8 && ts[0] == BlockEnd && ts[1] == Token.Nonterminal("reverse solidus") && ts[2] == Defines && ts[3] == Quoted("\"\\\\\"") && ts[4] == BlockEnd && ts[5] == Token.Nonterminal("right brace") && ts[6] == Defines && ts[7] == Quoted("\"}\"")
    ensures ParseRule(ts, 1) == Parsed(Rule("reverse solidus", [Alternative([Sym(Symbol.Terminal("\"\\\\\""))])]), 4)
    ensures ParseElement(ts, 7) == Parsed(Sym(Symbol.Terminal("\"}\"")), 8)
    ensures ParseItems(ts, 8) == Parsed([], 8)
    ensures [Sym(Symbol.Terminal("\"}\""))] + [] == [Sym(Symbol.Terminal("\"}\""))]
  {
    Parsed30Step3(ts);
  }

  /** Parser results on test_30's text, in evaluation order (part 5). */
  lemma Parsed30Step5(ts: seq<Token>)
    requires |ts| == 8 && ts[0] == BlockEnd && ts[1] == Token.Nonterminal("reverse solidus") && ts[2] == Defines && ts[3] == Quoted("\"\\\\\"") && ts[4] == BlockEnd && ts[5] == Token.Nonterminal("right brace") && ts[6] == Defines && ts[7] == Quoted("\"}\"")
    ensures ParseAlternative(ts, 7) == Parsed(Alternative([Sym(Symbol.Terminal("\"}\""))]), 8)
    ensures ParseMoreAlternatives(ts, 8) == Parsed([], 8)
    ensures [Alternative([Sym(Symbol.Terminal("\"}\""))])] + [] == [Alternative([Sym(Symbol.Terminal("\"}\""))])]
    ensures ParseAlternatives(ts, 7) == Parsed([Alternative([Sym(Symbol.Terminal("\"}\""))])], 8)
  {
    Parsed30Step4(ts);
  }

  /** Parser results on test_30's text, in evaluation order (part 6). */
  lemma Parsed30Step6(ts: seq<Token>)
    requires |ts| == 8 && ts[0] == BlockEnd && ts[1] == Token.Nonterminal("reverse solidus") && ts[2] == Defines && ts[3] == Quoted("\"\\\\\"") && ts[4] == BlockEnd && ts[5] == Token.Nonterminal("right brace") && ts[6] == Defines && ts[7] == Quoted("\"}\"")
    ensures ParseRuleBody(ts, 7) == Parsed([Alternative([Sym(Symbol.Terminal("\"}\""))])], 8)
    ensures ParseRule(ts, 5) == Parsed(Rule("right brace", [Alternative([Sym(Symbol.Terminal("\"}\""))])]), 8)
    ensures ParseRules(ts, 5) == Some([Rule("right brace", [Alternative([Sym(Symbol.Terminal("\"}\""))])])])
    ensures [Rule("reverse solidus", [Alternative([Sym(Symbol.Terminal("\"\\\\\""))])])] + [Rule("right brace", [Alternative([Sym(Symbol.Terminal("\"}\""))])])] == [Rule("reverse solidus", [Alternative([Sym(Symbol.Terminal("\"\\\\\""))])]), Rule("right brace", [Alternative([Sym(Symbol.Terminal("\"}\""))])])]
  {
    Parsed30Step5(ts);
  }

  /** Parser results on test_30's text, in evaluation order (part 7). */
  lemma Parsed30Step7(ts: seq<Token>)
    requires |ts| == 8 && ts[0] == BlockEnd && ts[1] == Token.Nonterminal("reverse solidus") && ts[2] == Defines && ts[3] == Quoted("\"\\\\\"") && ts[4] == BlockEnd && ts[5] == Token.Nonterminal("right brace") && ts[6] == Defines && ts[7] == Quoted("\"}\"")
    ensures ParseRules(ts, 1) == Some([Rule("reverse solidus", [Alternative([Sym(Symbol.Terminal("\"\\\\\""))])]), Rule("right brace", [Alternative([Sym(Symbol.Terminal("\"}\""))])])])
  {
    Parsed30Step2(ts);
    Parsed30Step4(ts);
    Parsed30Step6(ts);
  }

  /** The rule blocks test_30's text parses to. */
  lemma Parsed30()
    ensures Parse(Text30) == Some([Rule("reverse solidus", [Alternative([Sym(Symbol.Terminal("\"\\\\\""))])]), Rule("right brace", [Alternative([Sym(Symbol.Terminal("\"}\""))])])])
  {
    Text30Tokens1();
    Text30Tokens2();
    Parsed30Step1(Text30);
    Parsed30Step2(Text30);
    Parsed30Step3(Text30);
    Parsed30Step4(Text30);
    Parsed30Step5(Text30);
    Parsed30Step6(Text30);
    Parsed30Step7(Text30);
  }

  /** test_30, block 1: its alternatives merged into its entry. */
  lemma Test30Block1Merge()
    ensures var w: Grammar := map[]; w["reverse_solidus" := Lookup(w, "reverse_solidus") + {["\"\\\\\""]}] == map["reverse_solidus" := {["\"\\\\\""]}]
  {
    var w: Grammar := map[];
    assert Lookup(w, "reverse_solidus") == {};
    assert {} + {["\"\\\\\""]} == {["\"\\\\\""]};
  }

  /** test_30: the map after block 1. */
  lemma Test30Block1()
    ensures ApplyRules(map[], [Rule("reverse solidus", [Alternative([Sym(Symbol.Terminal("\"\\\\\""))])])]) == map["reverse_solidus" := {["\"\\\\\""]}]
  {
    Step340();
    Step341();
    Test30Block1Merge();
    var g: Grammar := map[];
    WithNoLists(g);
    var rules := [Rule("reverse solidus", [Alternative([Sym(Symbol.Terminal("\"\\\\\""))])])];
    assert rules[..0] == [];
    var w: Grammar := map[];
    BlockStep(rules, g, {}, w, "reverse_solidus", {["\"\\\\\""]}, map["reverse_solidus" := {["\"\\\\\""]}]);
  }

  /** test_30, block 2: its alternatives merged into its entry. */
  lemma Test30Block2Merge()
    ensures var w: Grammar := map["reverse_solidus" := {["\"\\\\\""]}]; w["right_brace" := Lookup(w, "right_brace") + {["\"}\""]}] == map["reverse_solidus" := {["\"\\\\\""]}, "right_brace" := {["\"}\""]}]
  {
    var w: Grammar := map["reverse_solidus" := {["\"\\\\\""]}];
    assert Lookup(w, "right_brace") == {};
    assert {} + {["\"}\""]} == {["\"}\""]};
  }

  /** test_30: the map after block 2. */
  lemma Test30Block2()
    ensures ApplyRules(map[], [Rule("reverse solidus", [Alternative([Sym(Symbol.Terminal("\"\\\\\""))])]), Rule("right brace", [Alternative([Sym(Symbol.Terminal("\"}\""))])])]) == map["reverse_solidus" := {["\"\\\\\""]}, "right_brace" := {["\"}\""]}]
  {
    Test30Block1();
    Step336();
    Step337();
    Test30Block2Merge();
    var g: Grammar := map["reverse_solidus" := {["\"\\\\\""]}];
    WithNoLists(g);
    var rules := [Rule("reverse solidus", [Alternative([Sym(Symbol.Terminal("\"\\\\\""))])]), Rule("right brace", [Alternative([Sym(Symbol.Terminal("\"}\""))])])];
    assert rules[..1] == [Rule("reverse solidus", [Alternative([Sym(Symbol.Terminal("\"\\\\\""))])])];
    var w: Grammar := map["reverse_solidus" := {["\"\\\\\""]}];
    BlockStep(rules, g, {}, w, "right_brace", {["\"}\""]}, map["reverse_solidus" := {["\"\\\\\""]}, "right_brace" := {["\"}\""]}]);
  }

  /** The map the test expects. */
  lemma Test30()
    ensures Convert(Text30) == Some(map["reverse_solidus" := {["\"\\\\\""]}, "right_brace" := {["\"}\""]}])
  {
    Parsed30();
    Test30Block2();
  }


  // test_31, line 1268 of the test file
  /** The grammar text of test_31 as its token sequence. */
  const Text31: seq<Token> := [Token.Nonterminal("a"), Token.Terminal(":="), Token.Terminal("b")]

  /** Tokens of test_31's text, four at a time. */
  lemma Text31Tokens1()
    ensures |Text31| == 3
    ensures Text31[0] == Token.Nonterminal("a")
    ensures Text31[1] == Token.Terminal(":=")
    ensures Text31[2] == Token.Terminal("b")
  {
  }

  /** Parser results on test_31's text, in evaluation order (part 1). */
  lemma Parsed31Step1(ts: seq<Token>)
    requires |ts| == 3 && ts[0] == Token.Nonterminal("a") && ts[1] == Token.Terminal(":=") && ts[2] == Token.Terminal("b")
    ensures ParseRule(ts, 0) == NoParse
    ensures ParseRules(ts, 0) == None
  {
  }

  /** The rule blocks test_31's text parses to. */
  lemma Parsed31()
    ensures Parse(Text31) == None
  {
    Text31Tokens1();
    Parsed31Step1(Text31);
  }

  /** The text is rejected and no map is produced. */
  lemma Test31()
    ensures Convert(Text31) == None
  {
    Parsed31();
  }

  // The failing texts through the whole parameter: nonzero status, empty map.

  /** test_27: `parser()` fails and `result` stays empty. */
  method Test27Run() returns (status: int, result: Grammar)
    ensures status != 0 && result == map[]
  {
    Test27();
    status, result := RunParser(Text27);
  }

  /** test_31: `parser()` fails and `result` stays empty. */
  method Test31Run() returns (status: int, result: Grammar)
    ensures status != 0 && result == map[]
  {
    Test31();
    status, result := RunParser(Text31);
  }
}
