/**
 * The syntax-only parser on the grammar texts of its unit tests
 * (src/bnfparser.no_actions/parser/bnfparser.bison.gtest.cpp), each text
 * written as the token sequence the scanner produces for it.  Longer texts
 * are evaluated in steps, each step a lemma about a stretch of positions.
 */
module BnfParserExamples {

  import opened Wrappers
  import opened Tokens
  import opened BnfParser

  /** The grammar text of test_0, line 41 of the test file. */
  const Text0: seq<Token> := [Nonterminal("true literal"), Defines, Terminal("TRUE")]

  /** The text of test_0 is accepted. */
  lemma Test0()
    ensures Accepts(Text0)
  {
    assert SkipBlank(Text0, 0) == 0;
    assert Suffix(Text0, 3) == 3;
    assert Element(Text0, 2) == Some(3);
    assert Items(Text0, 3) == Some(3);
    assert Alternative(Text0, 2) == Some(3);
    assert SkipBlank(Text0, 3) == 3;
    assert MoreAlternatives(Text0, 3) == Some(3);
    assert Alternatives(Text0, 2) == Some(3);
    assert RuleBody(Text0, 2) == Some(3);
    assert Rule(Text0, 0) == Some(3);
    assert Rules(Text0, 0);
  }

  /** The grammar text of test_1, line 58 of the test file. */
  const Text1: seq<Token> := [Nonterminal("true literal"), Defines, Terminal("TRUE"), Bar, Terminal("FALSE"), Bar, Terminal("UNKNOWN")]

  /** The text of test_1 is accepted. */
  lemma Test1()
    ensures Accepts(Text1)
  {
    assert SkipBlank(Text1, 0) == 0;
    assert Suffix(Text1, 3) == 3;
    assert Element(Text1, 2) == Some(3);
    assert Items(Text1, 3) == Some(3);
    assert Alternative(Text1, 2) == Some(3);
    assert SkipBlank(Text1, 3) == 3;
    assert Suffix(Text1, 5) == 5;
    assert Element(Text1, 4) == Some(5);
    assert Items(Text1, 5) == Some(5);
    assert Alternative(Text1, 4) == Some(5);
    assert SkipBlank(Text1, 5) == 5;
    assert Suffix(Text1, 7) == 7;
    assert Element(Text1, 6) == Some(7);
    assert Items(Text1, 7) == Some(7);
    assert Alternative(Text1, 6) == Some(7);
    assert SkipBlank(Text1, 7) == 7;
    assert MoreAlternatives(Text1, 7) == Some(7);
    assert MoreAlternatives(Text1, 5) == Some(7);
    assert MoreAlternatives(Text1, 3) == Some(7);
    assert Alternatives(Text1, 2) == Some(7);
    assert RuleBody(Text1, 2) == Some(7);
    assert Rule(Text1, 0) == Some(7);
    assert Rules(Text1, 0);
  }

  /** The grammar text of test_2, line 80 of the test file. */
  const Text2: seq<Token> := [Nonterminal("nested query specification"), Defines, Nonterminal("left brace"), Nonterminal("query specification"), Nonterminal("right brace")]

  /** The text of test_2 is accepted. */
  lemma Test2()
    ensures Accepts(Text2)
  {
    assert SkipBlank(Text2, 0) == 0;
    assert Suffix(Text2, 3) == 3;
    assert Element(Text2, 2) == Some(3);
    assert Suffix(Text2, 4) == 4;
    assert Element(Text2, 3) == Some(4);
    assert Suffix(Text2, 5) == 5;
    assert Element(Text2, 4) == Some(5);
    assert Items(Text2, 5) == Some(5);
    assert Items(Text2, 4) == Some(5);
    assert Items(Text2, 3) == Some(5);
    assert Alternative(Text2, 2) == Some(5);
    assert SkipBlank(Text2, 5) == 5;
    assert MoreAlternatives(Text2, 5) == Some(5);
    assert Alternatives(Text2, 2) == Some(5);
    assert RuleBody(Text2, 2) == Some(5);
    assert Rule(Text2, 0) == Some(5);
    assert Rules(Text2, 0);
  }

  /** The grammar text of test_3, line 98 of the test file. */
  const Text3: seq<Token> := [BlockEnd, Nonterminal("GQL-program"), Defines, Nonterminal("program activity"), LBrack, Nonterminal("session close command"), RBrack, Bar, Nonterminal("session close command")]

  /** The text of test_3 is accepted. */
  lemma Test3()
    ensures Accepts(Text3)
  {
    assert SkipBlank(Text3, 0) == 1;
    assert Suffix(Text3, 4) == 4;
    assert Element(Text3, 3) == Some(4);
    assert Suffix(Text3, 6) == 6;
    assert Element(Text3, 5) == Some(6);
    assert Items(Text3, 6) == Some(6);
    assert Alternative(Text3, 5) == Some(6);
    assert SkipBlank(Text3, 6) == 6;
    assert MoreAlternatives(Text3, 6) == Some(6);
    assert Alternatives(Text3, 5) == Some(6);
    assert Suffix(Text3, 7) == 7;
    assert Element(Text3, 4) == Some(7);
    assert Items(Text3, 7) == Some(7);
    assert Items(Text3, 4) == Some(7);
    assert Alternative(Text3, 3) == Some(7);
    assert SkipBlank(Text3, 7) == 7;
    assert Suffix(Text3, 9) == 9;
    assert Element(Text3, 8) == Some(9);
    assert Items(Text3, 9) == Some(9);
    assert Alternative(Text3, 8) == Some(9);
    assert SkipBlank(Text3, 9) == 9;
    assert MoreAlternatives(Text3, 9) == Some(9);
    assert MoreAlternatives(Text3, 7) == Some(9);
    assert Alternatives(Text3, 3) == Some(9);
    assert RuleBody(Text3, 3) == Some(9);
    assert Rule(Text3, 1) == Some(9);
    assert Rules(Text3, 1);
  }

  /** The grammar text of test_4, line 120 of the test file. */
  const Text4: seq<Token> := [BlockEnd, Nonterminal("session activity"), Defines, Nonterminal("session reset command"), Ellipsis, Bar, Nonterminal("session set command"), Ellipsis, LBrack, Nonterminal("session reset command"), Ellipsis, RBrack]

  /** The text of test_4 is accepted. */
  lemma Test4()
    ensures Accepts(Text4)
  {
    assert SkipBlank(Text4, 0) == 1;
    assert Suffix(Text4, 4) == 5;
    assert Element(Text4, 3) == Some(5);
    assert Items(Text4, 5) == Some(5);
    assert Alternative(Text4, 3) == Some(5);
    assert SkipBlank(Text4, 5) == 5;
    assert Suffix(Text4, 7) == 8;
    assert Element(Text4, 6) == Some(8);
    assert Suffix(Text4, 10) == 11;
    assert Element(Text4, 9) == Some(11);
    assert Items(Text4, 11) == Some(11);
    assert Alternative(Text4, 9) == Some(11);
    assert SkipBlank(Text4, 11) == 11;
    assert MoreAlternatives(Text4, 11) == Some(11);
    assert Alternatives(Text4, 9) == Some(11);
    assert Suffix(Text4, 12) == 12;
    assert Element(Text4, 8) == Some(12);
    assert Items(Text4, 12) == Some(12);
    assert Items(Text4, 8) == Some(12);
    assert Alternative(Text4, 6) == Some(12);
    assert SkipBlank(Text4, 12) == 12;
    assert MoreAlternatives(Text4, 12) == Some(12);
    assert MoreAlternatives(Text4, 5) == Some(12);
    assert Alternatives(Text4, 3) == Some(12);
    assert RuleBody(Text4, 3) == Some(12);
    assert Rule(Text4, 1) == Some(12);
    assert Rules(Text4, 1);
  }

  /** The grammar text of test_5, line 142 of the test file. */
  const Text5: seq<Token> := [BlockEnd, Nonterminal("transaction characteristics"), Defines, Nonterminal("transaction mode 1"), LBrack, LBrace, Nonterminal("comma"), Nonterminal("transaction mode 2"), RBrace, Ellipsis, RBrack]

  /** The text of test_5 is accepted. */
  lemma Test5()
    ensures Accepts(Text5)
  {
    assert SkipBlank(Text5, 0) == 1;
    assert Suffix(Text5, 4) == 4;
    assert Element(Text5, 3) == Some(4);
    assert Suffix(Text5, 7) == 7;
    assert Element(Text5, 6) == Some(7);
    assert Suffix(Text5, 8) == 8;
    assert Element(Text5, 7) == Some(8);
    assert Items(Text5, 8) == Some(8);
    assert Items(Text5, 7) == Some(8);
    assert Alternative(Text5, 6) == Some(8);
    assert SkipBlank(Text5, 8) == 8;
    assert MoreAlternatives(Text5, 8) == Some(8);
    assert Alternatives(Text5, 6) == Some(8);
    assert Suffix(Text5, 9) == 10;
    assert Element(Text5, 5) == Some(10);
    assert Items(Text5, 10) == Some(10);
    assert Alternative(Text5, 5) == Some(10);
    assert SkipBlank(Text5, 10) == 10;
    assert MoreAlternatives(Text5, 10) == Some(10);
    assert Alternatives(Text5, 5) == Some(10);
    assert Suffix(Text5, 11) == 11;
    assert Element(Text5, 4) == Some(11);
    assert Items(Text5, 11) == Some(11);
    assert Items(Text5, 4) == Some(11);
    assert Alternative(Text5, 3) == Some(11);
    assert SkipBlank(Text5, 11) == 11;
    assert MoreAlternatives(Text5, 11) == Some(11);
    assert Alternatives(Text5, 3) == Some(11);
    assert RuleBody(Text5, 3) == Some(11);
    assert Rule(Text5, 1) == Some(11);
    assert Rules(Text5, 1);
  }

  /** The grammar text of test_6, line 163 of the test file. */
  const Text6: seq<Token> := [BlockEnd, Nonterminal("create graph statement"), Defines, Terminal("CREATE"), LBrace, LBrack, Terminal("PROPERTY"), RBrack, Terminal("GRAPH"), LBrack, Terminal("IF"), Terminal("NOT"), Terminal("EXISTS"), RBrack, Bar, Terminal("OR"), Terminal("REPLACE"), LBrack, Terminal("PROPERTY"), RBrack, Terminal("GRAPH"), RBrace, Nonterminal("catalog graph parent and name"), LBrace, Nonterminal("open graph type"), Bar, Nonterminal("of graph type"), RBrace, LBrack, Nonterminal("graph source"), RBrack]

  lemma Text6Tokens1()
    ensures |Text6| == 31
    ensures Text6[0] == BlockEnd
    ensures Text6[1] == Nonterminal("create graph statement")
    ensures Text6[2] == Defines
    ensures Text6[3] == Terminal("CREATE")
  {
  }

  lemma Text6Tokens2()
    ensures Text6[4] == LBrace
    ensures Text6[5] == LBrack
    ensures Text6[6] == Terminal("PROPERTY")
    ensures Text6[7] == RBrack
  {
  }

  lemma Text6Tokens3()
    ensures Text6[8] == Terminal("GRAPH")
    ensures Text6[9] == LBrack
    ensures Text6[10] == Terminal("IF")
    ensures Text6[11] == Terminal("NOT")
  {
  }

  lemma Text6Tokens4()
    ensures Text6[12] == Terminal("EXISTS")
    ensures Text6[13] == RBrack
    ensures Text6[14] == Bar
    ensures Text6[15] == Terminal("OR")
  {
  }

  lemma Text6Tokens5()
    ensures Text6[16] == Terminal("REPLACE")
    ensures Text6[17] == LBrack
    ensures Text6[18] == Terminal("PROPERTY")
    ensures Text6[19] == RBrack
  {
  }

  lemma Text6Tokens6()
    ensures Text6[20] == Terminal("GRAPH")
    ensures Text6[21] == RBrace
    ensures Text6[22] == Nonterminal("catalog graph parent and name")
    ensures Text6[23] == LBrace
  {
  }

  lemma Text6Tokens7()
    ensures Text6[24] == Nonterminal("open graph type")
    ensures Text6[25] == Bar
    ensures Text6[26] == Nonterminal("of graph type")
    ensures Text6[27] == RBrace
  {
  }

  lemma Text6Tokens8()
    ensures Text6[28] == LBrack
    ensures Text6[29] == Nonterminal("graph source")
    ensures Text6[30] == RBrack
  {
  }

  lemma Text6Tokens()
    ensures |Text6| == 31
    ensures Text6[0] == BlockEnd
    ensures Text6[1] == Nonterminal("create graph statement")
    ensures Text6[2] == Defines
    ensures Text6[3] == Terminal("CREATE")
    ensures Text6[4] == LBrace
    ensures Text6[5] == LBrack
    ensures Text6[6] == Terminal("PROPERTY")
    ensures Text6[7] == RBrack
    ensures Text6[8] == Terminal("GRAPH")
    ensures Text6[9] == LBrack
    ensures Text6[10] == Terminal("IF")
    ensures Text6[11] == Terminal("NOT")
    ensures Text6[12] == Terminal("EXISTS")
    ensures Text6[13] == RBrack
    ensures Text6[14] == Bar
    ensures Text6[15] == Terminal("OR")
    ensures Text6[16] == Terminal("REPLACE")
    ensures Text6[17] == LBrack
    ensures Text6[18] == Terminal("PROPERTY")
    ensures Text6[19] == RBrack
    ensures Text6[20] == Terminal("GRAPH")
    ensures Text6[21] == RBrace
    ensures Text6[22] == Nonterminal("catalog graph parent and name")
    ensures Text6[23] == LBrace
    ensures Text6[24] == Nonterminal("open graph type")
    ensures Text6[25] == Bar
    ensures Text6[26] == Nonterminal("of graph type")
    ensures Text6[27] == RBrace
    ensures Text6[28] == LBrack
    ensures Text6[29] == Nonterminal("graph source")
    ensures Text6[30] == RBrack
  {
    Text6Tokens1();
    Text6Tokens2();
    Text6Tokens3();
    Text6Tokens4();
    Text6Tokens5();
    Text6Tokens6();
    Text6Tokens7();
    Text6Tokens8();
  }

  lemma Text6Step1()
    ensures SkipBlank(Text6, 0) == 1
    ensures Suffix(Text6, 4) == 4
    ensures Element(Text6, 3) == Some(4)
    ensures Suffix(Text6, 7) == 7
    ensures Element(Text6, 6) == Some(7)
    ensures Items(Text6, 7) == Some(7)
    ensures Alternative(Text6, 6) == Some(7)
    ensures SkipBlank(Text6, 7) == 7
    ensures MoreAlternatives(Text6, 7) == Some(7)
    ensures Alternatives(Text6, 6) == Some(7)
  {
    Text6Tokens();
    assert SkipBlank(Text6, 0) == 1;
    assert Suffix(Text6, 4) == 4;
    assert Element(Text6, 3) == Some(4);
    assert Suffix(Text6, 7) == 7;
    assert Element(Text6, 6) == Some(7);
    assert Items(Text6, 7) == Some(7);
    assert Alternative(Text6, 6) == Some(7);
    assert SkipBlank(Text6, 7) == 7;
    assert MoreAlternatives(Text6, 7) == Some(7);
    assert Alternatives(Text6, 6) == Some(7);
  }

  lemma Text6Step2()
    ensures Suffix(Text6, 8) == 8
    ensures Element(Text6, 5) == Some(8)
    ensures Suffix(Text6, 9) == 9
    ensures Element(Text6, 8) == Some(9)
    ensures Suffix(Text6, 11) == 11
    ensures Element(Text6, 10) == Some(11)
    ensures Suffix(Text6, 12) == 12
    ensures Element(Text6, 11) == Some(12)
    ensures Suffix(Text6, 13) == 13
    ensures Element(Text6, 12) == Some(13)
  {
    Text6Tokens();
    Text6Step1();
    assert Suffix(Text6, 8) == 8;
    assert Element(Text6, 5) == Some(8);
    assert Suffix(Text6, 9) == 9;
    assert Element(Text6, 8) == Some(9);
    assert Suffix(Text6, 11) == 11;
    assert Element(Text6, 10) == Some(11);
    assert Suffix(Text6, 12) == 12;
    assert Element(Text6, 11) == Some(12);
    assert Suffix(Text6, 13) == 13;
    assert Element(Text6, 12) == Some(13);
  }

  lemma Text6Step3()
    ensures Items(Text6, 13) == Some(13)
    ensures Items(Text6, 12) == Some(13)
    ensures Items(Text6, 11) == Some(13)
    ensures Alternative(Text6, 10) == Some(13)
    ensures SkipBlank(Text6, 13) == 13
    ensures MoreAlternatives(Text6, 13) == Some(13)
    ensures Alternatives(Text6, 10) == Some(13)
    ensures Suffix(Text6, 14) == 14
    ensures Element(Text6, 9) == Some(14)
    ensures Items(Text6, 14) == Some(14)
  {
    Text6Tokens();
    Text6Step1();
    Text6Step2();
    assert Items(Text6, 13) == Some(13);
    assert Items(Text6, 12) == Some(13);
    assert Items(Text6, 11) == Some(13);
    assert Alternative(Text6, 10) == Some(13);
    assert SkipBlank(Text6, 13) == 13;
    assert MoreAlternatives(Text6, 13) == Some(13);
    assert Alternatives(Text6, 10) == Some(13);
    assert Suffix(Text6, 14) == 14;
    assert Element(Text6, 9) == Some(14);
    assert Items(Text6, 14) == Some(14);
  }

  lemma Text6Step4()
    ensures Items(Text6, 9) == Some(14)
    ensures Items(Text6, 8) == Some(14)
    ensures Alternative(Text6, 5) == Some(14)
    ensures SkipBlank(Text6, 14) == 14
    ensures Suffix(Text6, 16) == 16
    ensures Element(Text6, 15) == Some(16)
    ensures Suffix(Text6, 17) == 17
    ensures Element(Text6, 16) == Some(17)
    ensures Suffix(Text6, 19) == 19
    ensures Element(Text6, 18) == Some(19)
  {
    Text6Tokens();
    Text6Step1();
    Text6Step2();
    Text6Step3();
    assert Items(Text6, 9) == Some(14);
    assert Items(Text6, 8) == Some(14);
    assert Alternative(Text6, 5) == Some(14);
    assert SkipBlank(Text6, 14) == 14;
    assert Suffix(Text6, 16) == 16;
    assert Element(Text6, 15) == Some(16);
    assert Suffix(Text6, 17) == 17;
    assert Element(Text6, 16) == Some(17);
    assert Suffix(Text6, 19) == 19;
    assert Element(Text6, 18) == Some(19);
  }

  lemma Text6Step5()
    ensures Items(Text6, 19) == Some(19)
    ensures Alternative(Text6, 18) == Some(19)
    ensures SkipBlank(Text6, 19) == 19
    ensures MoreAlternatives(Text6, 19) == Some(19)
    ensures Alternatives(Text6, 18) == Some(19)
    ensures Suffix(Text6, 20) == 20
    ensures Element(Text6, 17) == Some(20)
    ensures Suffix(Text6, 21) == 21
    ensures Element(Text6, 20) == Some(21)
    ensures Items(Text6, 21) == Some(21)
  {
    Text6Tokens();
    Text6Step1();
    Text6Step2();
    Text6Step3();
    Text6Step4();
    assert Items(Text6, 19) == Some(19);
    assert Alternative(Text6, 18) == Some(19);
    assert SkipBlank(Text6, 19) == 19;
    assert MoreAlternatives(Text6, 19) == Some(19);
    assert Alternatives(Text6, 18) == Some(19);
    assert Suffix(Text6, 20) == 20;
    assert Element(Text6, 17) == Some(20);
    assert Suffix(Text6, 21) == 21;
    assert Element(Text6, 20) == Some(21);
    assert Items(Text6, 21) == Some(21);
  }

  lemma Text6Step6()
    ensures Items(Text6, 20) == Some(21)
    ensures Items(Text6, 17) == Some(21)
    ensures Items(Text6, 16) == Some(21)
    ensures Alternative(Text6, 15) == Some(21)
    ensures SkipBlank(Text6, 21) == 21
    ensures MoreAlternatives(Text6, 21) == Some(21)
    ensures MoreAlternatives(Text6, 14) == Some(21)
    ensures Alternatives(Text6, 5) == Some(21)
    ensures Suffix(Text6, 22) == 22
    ensures Element(Text6, 4) == Some(22)
  {
    Text6Tokens();
    Text6Step1();
    Text6Step2();
    Text6Step3();
    Text6Step4();
    Text6Step5();
    assert Items(Text6, 20) == Some(21);
    assert Items(Text6, 17) == Some(21);
    assert Items(Text6, 16) == Some(21);
    assert Alternative(Text6, 15) == Some(21);
    assert SkipBlank(Text6, 21) == 21;
    assert MoreAlternatives(Text6, 21) == Some(21);
    assert MoreAlternatives(Text6, 14) == Some(21);
    assert Alternatives(Text6, 5) == Some(21);
    assert Suffix(Text6, 22) == 22;
    assert Element(Text6, 4) == Some(22);
  }

  lemma Text6Step7()
    ensures Suffix(Text6, 23) == 23
    ensures Element(Text6, 22) == Some(23)
    ensures Suffix(Text6, 25) == 25
    ensures Element(Text6, 24) == Some(25)
    ensures Items(Text6, 25) == Some(25)
    ensures Alternative(Text6, 24) == Some(25)
    ensures SkipBlank(Text6, 25) == 25
    ensures Suffix(Text6, 27) == 27
    ensures Element(Text6, 26) == Some(27)
    ensures Items(Text6, 27) == Some(27)
  {
    Text6Tokens();
    Text6Step1();
    Text6Step2();
    Text6Step3();
    Text6Step4();
    Text6Step5();
    Text6Step6();
    assert Suffix(Text6, 23) == 23;
    assert Element(Text6, 22) == Some(23);
    assert Suffix(Text6, 25) == 25;
    assert Element(Text6, 24) == Some(25);
    assert Items(Text6, 25) == Some(25);
    assert Alternative(Text6, 24) == Some(25);
    assert SkipBlank(Text6, 25) == 25;
    assert Suffix(Text6, 27) == 27;
    assert Element(Text6, 26) == Some(27);
    assert Items(Text6, 27) == Some(27);
  }

  lemma Text6Step8()
    ensures Alternative(Text6, 26) == Some(27)
    ensures SkipBlank(Text6, 27) == 27
    ensures MoreAlternatives(Text6, 27) == Some(27)
    ensures MoreAlternatives(Text6, 25) == Some(27)
    ensures Alternatives(Text6, 24) == Some(27)
    ensures Suffix(Text6, 28) == 28
    ensures Element(Text6, 23) == Some(28)
    ensures Suffix(Text6, 30) == 30
    ensures Element(Text6, 29) == Some(30)
    ensures Items(Text6, 30) == Some(30)
  {
    Text6Tokens();
    Text6Step1();
    Text6Step2();
    Text6Step3();
    Text6Step4();
    Text6Step5();
    Text6Step6();
    Text6Step7();
    assert Alternative(Text6, 26) == Some(27);
    assert SkipBlank(Text6, 27) == 27;
    assert MoreAlternatives(Text6, 27) == Some(27);
    assert MoreAlternatives(Text6, 25) == Some(27);
    assert Alternatives(Text6, 24) == Some(27);
    assert Suffix(Text6, 28) == 28;
    assert Element(Text6, 23) == Some(28);
    assert Suffix(Text6, 30) == 30;
    assert Element(Text6, 29) == Some(30);
    assert Items(Text6, 30) == Some(30);
  }

  lemma Text6Step9()
    ensures Alternative(Text6, 29) == Some(30)
    ensures SkipBlank(Text6, 30) == 30
    ensures MoreAlternatives(Text6, 30) == Some(30)
    ensures Alternatives(Text6, 29) == Some(30)
    ensures Suffix(Text6, 31) == 31
    ensures Element(Text6, 28) == Some(31)
    ensures Items(Text6, 31) == Some(31)
    ensures Items(Text6, 28) == Some(31)
    ensures Items(Text6, 23) == Some(31)
    ensures Items(Text6, 22) == Some(31)
  {
    Text6Tokens();
    Text6Step1();
    Text6Step2();
    Text6Step3();
    Text6Step4();
    Text6Step5();
    Text6Step6();
    Text6Step7();
    Text6Step8();
    assert Alternative(Text6, 29) == Some(30);
    assert SkipBlank(Text6, 30) == 30;
    assert MoreAlternatives(Text6, 30) == Some(30);
    assert Alternatives(Text6, 29) == Some(30);
    assert Suffix(Text6, 31) == 31;
    assert Element(Text6, 28) == Some(31);
    assert Items(Text6, 31) == Some(31);
    assert Items(Text6, 28) == Some(31);
    assert Items(Text6, 23) == Some(31);
    assert Items(Text6, 22) == Some(31);
  }

  /** The text of test_6 is accepted. */
  lemma Test6()
    ensures Accepts(Text6)
  {
    Text6Tokens();
    Text6Step1();
    Text6Step2();
    Text6Step3();
    Text6Step4();
    Text6Step5();
    Text6Step6();
    Text6Step7();
    Text6Step8();
    Text6Step9();
    assert Items(Text6, 4) == Some(31);
    assert Alternative(Text6, 3) == Some(31);
    assert SkipBlank(Text6, 31) == 31;
    assert MoreAlternatives(Text6, 31) == Some(31);
    assert Alternatives(Text6, 3) == Some(31);
    assert RuleBody(Text6, 3) == Some(31);
    assert Rule(Text6, 1) == Some(31);
    assert Rules(Text6, 1);
  }

  /** The grammar text of test_7, line 188 of the test file. */
  const Text7: seq<Token> := [BlockEnd, Nonterminal("delete statement"), Defines, LBrack, Terminal("DETACH"), Bar, Terminal("NODETACH"), RBrack, Terminal("DELETE"), Nonterminal("delete item list")]

  /** The text of test_7 is accepted. */
  lemma Test7()
    ensures Accepts(Text7)
  {
    assert SkipBlank(Text7, 0) == 1;
    assert Suffix(Text7, 5) == 5;
    assert Element(Text7, 4) == Some(5);
    assert Items(Text7, 5) == Some(5);
    assert Alternative(Text7, 4) == Some(5);
    assert SkipBlank(Text7, 5) == 5;
    assert Suffix(Text7, 7) == 7;
    assert Element(Text7, 6) == Some(7);
    assert Items(Text7, 7) == Some(7);
    assert Alternative(Text7, 6) == Some(7);
    assert SkipBlank(Text7, 7) == 7;
    assert MoreAlternatives(Text7, 7) == Some(7);
    assert MoreAlternatives(Text7, 5) == Some(7);
    assert Alternatives(Text7, 4) == Some(7);
    assert Suffix(Text7, 8) == 8;
    assert Element(Text7, 3) == Some(8);
    assert Suffix(Text7, 9) == 9;
    assert Element(Text7, 8) == Some(9);
    assert Suffix(Text7, 10) == 10;
    assert Element(Text7, 9) == Some(10);
    assert Items(Text7, 10) == Some(10);
    assert Items(Text7, 9) == Some(10);
    assert Items(Text7, 8) == Some(10);
    assert Alternative(Text7, 3) == Some(10);
    assert SkipBlank(Text7, 10) == 10;
    assert MoreAlternatives(Text7, 10) == Some(10);
    assert Alternatives(Text7, 3) == Some(10);
    assert RuleBody(Text7, 3) == Some(10);
    assert Rule(Text7, 1) == Some(10);
    assert Rules(Text7, 1);
  }

  /** The grammar text of test_8, line 210 of the test file. */
  const Text8: seq<Token> := [BlockEnd, Nonterminal("exists predicate"), Defines, Terminal("EXISTS"), LBrace, Nonterminal("left brace"), Nonterminal("graph pattern"), Nonterminal("right brace"), Bar, Nonterminal("left paren"), Nonterminal("graph pattern"), Nonterminal("right paren"), Bar, Nonterminal("left brace"), Nonterminal("match statement block"), Nonterminal("right brace"), Bar, Nonterminal("left paren"), Nonterminal("match statement block"), Nonterminal("right paren"), Bar, Nonterminal("nested query specification"), RBrace]

  lemma Text8Tokens1()
    ensures |Text8| == 23
    ensures Text8[0] == BlockEnd
    ensures Text8[1] == Nonterminal("exists predicate")
    ensures Text8[2] == Defines
    ensures Text8[3] == Terminal("EXISTS")
  {
  }

  lemma Text8Tokens2()
    ensures Text8[4] == LBrace
    ensures Text8[5] == Nonterminal("left brace")
    ensures Text8[6] == Nonterminal("graph pattern")
    ensures Text8[7] == Nonterminal("right brace")
  {
  }

  lemma Text8Tokens3()
    ensures Text8[8] == Bar
    ensures Text8[9] == Nonterminal("left paren")
    ensures Text8[10] == Nonterminal("graph pattern")
    ensures Text8[11] == Nonterminal("right paren")
  {
  }

  lemma Text8Tokens4()
    ensures Text8[12] == Bar
    ensures Text8[13] == Nonterminal("left brace")
    ensures Text8[14] == Nonterminal("match statement block")
    ensures Text8[15] == Nonterminal("right brace")
  {
  }

  lemma Text8Tokens5()
    ensures Text8[16] == Bar
    ensures Text8[17] == Nonterminal("left paren")
    ensures Text8[18] == Nonterminal("match statement block")
    ensures Text8[19] == Nonterminal("right paren")
  {
  }

  lemma Text8Tokens6()
    ensures Text8[20] == Bar
    ensures Text8[21] == Nonterminal("nested query specification")
    ensures Text8[22] == RBrace
  {
  }

  lemma Text8Tokens()
    ensures |Text8| == 23
    ensures Text8[0] == BlockEnd
    ensures Text8[1] == Nonterminal("exists predicate")
    ensures Text8[2] == Defines
    ensures Text8[3] == Terminal("EXISTS")
    ensures Text8[4] == LBrace
    ensures Text8[5] == Nonterminal("left brace")
    ensures Text8[6] == Nonterminal("graph pattern")
    ensures Text8[7] == Nonterminal("right brace")
    ensures Text8[8] == Bar
    ensures Text8[9] == Nonterminal("left paren")
    ensures Text8[10] == Nonterminal("graph pattern")
    ensures Text8[11] == Nonterminal("right paren")
    ensures Text8[12] == Bar
    ensures Text8[13] == Nonterminal("left brace")
    ensures Text8[14] == Nonterminal("match statement block")
    ensures Text8[15] == Nonterminal("right brace")
    ensures Text8[16] == Bar
    ensures Text8[17] == Nonterminal("left paren")
    ensures Text8[18] == Nonterminal("match statement block")
    ensures Text8[19] == Nonterminal("right paren")
    ensures Text8[20] == Bar
    ensures Text8[21] == Nonterminal("nested query specification")
    ensures Text8[22] == RBrace
  {
    Text8Tokens1();
    Text8Tokens2();
    Text8Tokens3();
    Text8Tokens4();
    Text8Tokens5();
    Text8Tokens6();
  }

  lemma Text8Step1()
    ensures SkipBlank(Text8, 0) == 1
    ensures Suffix(Text8, 4) == 4
    ensures Element(Text8, 3) == Some(4)
    ensures Suffix(Text8, 6) == 6
    ensures Element(Text8, 5) == Some(6)
    ensures Suffix(Text8, 7) == 7
    ensures Element(Text8, 6) == Some(7)
    ensures Suffix(Text8, 8) == 8
    ensures Element(Text8, 7) == Some(8)
    ensures Items(Text8, 8) == Some(8)
  {
    Text8Tokens();
    assert SkipBlank(Text8, 0) == 1;
    assert Suffix(Text8, 4) == 4;
    assert Element(Text8, 3) == Some(4);
    assert Suffix(Text8, 6) == 6;
    assert Element(Text8, 5) == Some(6);
    assert Suffix(Text8, 7) == 7;
    assert Element(Text8, 6) == Some(7);
    assert Suffix(Text8, 8) == 8;
    assert Element(Text8, 7) == Some(8);
    assert Items(Text8, 8) == Some(8);
  }

  lemma Text8Step2()
    ensures Items(Text8, 7) == Some(8)
    ensures Items(Text8, 6) == Some(8)
    ensures Alternative(Text8, 5) == Some(8)
    ensures SkipBlank(Text8, 8) == 8
    ensures Suffix(Text8, 10) == 10
    ensures Element(Text8, 9) == Some(10)
    ensures Suffix(Text8, 11) == 11
    ensures Element(Text8, 10) == Some(11)
    ensures Suffix(Text8, 12) == 12
    ensures Element(Text8, 11) == Some(12)
  {
    Text8Tokens();
    Text8Step1();
    assert Items(Text8, 7) == Some(8);
    assert Items(Text8, 6) == Some(8);
    assert Alternative(Text8, 5) == Some(8);
    assert SkipBlank(Text8, 8) == 8;
    assert Suffix(Text8, 10) == 10;
    assert Element(Text8, 9) == Some(10);
    assert Suffix(Text8, 11) == 11;
    assert Element(Text8, 10) == Some(11);
    assert Suffix(Text8, 12) == 12;
    assert Element(Text8, 11) == Some(12);
  }

  lemma Text8Step3()
    ensures Items(Text8, 12) == Some(12)
    ensures Items(Text8, 11) == Some(12)
    ensures Items(Text8, 10) == Some(12)
    ensures Alternative(Text8, 9) == Some(12)
    ensures SkipBlank(Text8, 12) == 12
    ensures Suffix(Text8, 14) == 14
    ensures Element(Text8, 13) == Some(14)
    ensures Suffix(Text8, 15) == 15
    ensures Element(Text8, 14) == Some(15)
    ensures Suffix(Text8, 16) == 16
  {
    Text8Tokens();
    Text8Step1();
    Text8Step2();
    assert Items(Text8, 12) == Some(12);
    assert Items(Text8, 11) == Some(12);
    assert Items(Text8, 10) == Some(12);
    assert Alternative(Text8, 9) == Some(12);
    assert SkipBlank(Text8, 12) == 12;
    assert Suffix(Text8, 14) == 14;
    assert Element(Text8, 13) == Some(14);
    assert Suffix(Text8, 15) == 15;
    assert Element(Text8, 14) == Some(15);
    assert Suffix(Text8, 16) == 16;
  }

  lemma Text8Step4()
    ensures Element(Text8, 15) == Some(16)
    ensures Items(Text8, 16) == Some(16)
    ensures Items(Text8, 15) == Some(16)
    ensures Items(Text8, 14) == Some(16)
    ensures Alternative(Text8, 13) == Some(16)
    ensures SkipBlank(Text8, 16) == 16
    ensures Suffix(Text8, 18) == 18
    ensures Element(Text8, 17) == Some(18)
    ensures Suffix(Text8, 19) == 19
    ensures Element(Text8, 18) == Some(19)
  {
    Text8Tokens();
    Text8Step1();
    Text8Step2();
    Text8Step3();
    assert Element(Text8, 15) == Some(16);
    assert Items(Text8, 16) == Some(16);
    assert Items(Text8, 15) == Some(16);
    assert Items(Text8, 14) == Some(16);
    assert Alternative(Text8, 13) == Some(16);
    assert SkipBlank(Text8, 16) == 16;
    assert Suffix(Text8, 18) == 18;
    assert Element(Text8, 17) == Some(18);
    assert Suffix(Text8, 19) == 19;
    assert Element(Text8, 18) == Some(19);
  }

  lemma Text8Step5()
    ensures Suffix(Text8, 20) == 20
    ensures Element(Text8, 19) == Some(20)
    ensures Items(Text8, 20) == Some(20)
    ensures Items(Text8, 19) == Some(20)
    ensures Items(Text8, 18) == Some(20)
    ensures Alternative(Text8, 17) == Some(20)
    ensures SkipBlank(Text8, 20) == 20
    ensures Suffix(Text8, 22) == 22
    ensures Element(Text8, 21) == Some(22)
    ensures Items(Text8, 22) == Some(22)
  {
    Text8Tokens();
    Text8Step1();
    Text8Step2();
    Text8Step3();
    Text8Step4();
    assert Suffix(Text8, 20) == 20;
    assert Element(Text8, 19) == Some(20);
    assert Items(Text8, 20) == Some(20);
    assert Items(Text8, 19) == Some(20);
    assert Items(Text8, 18) == Some(20);
    assert Alternative(Text8, 17) == Some(20);
    assert SkipBlank(Text8, 20) == 20;
    assert Suffix(Text8, 22) == 22;
    assert Element(Text8, 21) == Some(22);
    assert Items(Text8, 22) == Some(22);
  }

  lemma Text8Step6()
    ensures Alternative(Text8, 21) == Some(22)
    ensures SkipBlank(Text8, 22) == 22
    ensures MoreAlternatives(Text8, 22) == Some(22)
    ensures MoreAlternatives(Text8, 20) == Some(22)
    ensures MoreAlternatives(Text8, 16) == Some(22)
    ensures MoreAlternatives(Text8, 12) == Some(22)
    ensures MoreAlternatives(Text8, 8) == Some(22)
    ensures Alternatives(Text8, 5) == Some(22)
    ensures Suffix(Text8, 23) == 23
    ensures Element(Text8, 4) == Some(23)
  {
    Text8Tokens();
    Text8Step1();
    Text8Step2();
    Text8Step3();
    Text8Step4();
    Text8Step5();
    assert Alternative(Text8, 21) == Some(22);
    assert SkipBlank(Text8, 22) == 22;
    assert MoreAlternatives(Text8, 22) == Some(22);
    assert MoreAlternatives(Text8, 20) == Some(22);
    assert MoreAlternatives(Text8, 16) == Some(22);
    assert MoreAlternatives(Text8, 12) == Some(22);
    assert MoreAlternatives(Text8, 8) == Some(22);
    assert Alternatives(Text8, 5) == Some(22);
    assert Suffix(Text8, 23) == 23;
    assert Element(Text8, 4) == Some(23);
  }

  /** The text of test_8 is accepted. */
  lemma Test8()
    ensures Accepts(Text8)
  {
    Text8Tokens();
    Text8Step1();
    Text8Step2();
    Text8Step3();
    Text8Step4();
    Text8Step5();
    Text8Step6();
    assert Items(Text8, 23) == Some(23);
    assert Items(Text8, 4) == Some(23);
    assert Alternative(Text8, 3) == Some(23);
    assert SkipBlank(Text8, 23) == 23;
    assert MoreAlternatives(Text8, 23) == Some(23);
    assert Alternatives(Text8, 3) == Some(23);
    assert RuleBody(Text8, 3) == Some(23);
    assert Rule(Text8, 1) == Some(23);
    assert Rules(Text8, 1);
  }

  /** The grammar text of test_9, line 235 of the test file. */
  const Text9: seq<Token> := [BlockEnd, Nonterminal("transaction activity"), Defines, Nonterminal("start transaction command"), LBrack, Nonterminal("procedure specification"), LBrack, Nonterminal("end transaction command"), RBrack, RBrack]

  /** The text of test_9 is accepted. */
  lemma Test9()
    ensures Accepts(Text9)
  {
    assert SkipBlank(Text9, 0) == 1;
    assert Suffix(Text9, 4) == 4;
    assert Element(Text9, 3) == Some(4);
    assert Suffix(Text9, 6) == 6;
    assert Element(Text9, 5) == Some(6);
    assert Suffix(Text9, 8) == 8;
    assert Element(Text9, 7) == Some(8);
    assert Items(Text9, 8) == Some(8);
    assert Alternative(Text9, 7) == Some(8);
    assert SkipBlank(Text9, 8) == 8;
    assert MoreAlternatives(Text9, 8) == Some(8);
    assert Alternatives(Text9, 7) == Some(8);
    assert Suffix(Text9, 9) == 9;
    assert Element(Text9, 6) == Some(9);
    assert Items(Text9, 9) == Some(9);
    assert Items(Text9, 6) == Some(9);
    assert Alternative(Text9, 5) == Some(9);
    assert SkipBlank(Text9, 9) == 9;
    assert MoreAlternatives(Text9, 9) == Some(9);
    assert Alternatives(Text9, 5) == Some(9);
    assert Suffix(Text9, 10) == 10;
    assert Element(Text9, 4) == Some(10);
    assert Items(Text9, 10) == Some(10);
    assert Items(Text9, 4) == Some(10);
    assert Alternative(Text9, 3) == Some(10);
    assert SkipBlank(Text9, 10) == 10;
    assert MoreAlternatives(Text9, 10) == Some(10);
    assert Alternatives(Text9, 3) == Some(10);
    assert RuleBody(Text9, 3) == Some(10);
    assert Rule(Text9, 1) == Some(10);
    assert Rules(Text9, 1);
  }

  /** The grammar text of test_10, line 257 of the test file. */
  const Text10: seq<Token> := [BlockEnd, Nonterminal("session set command"), Defines, Terminal("SESSION"), Terminal("SET"), LBrace, Nonterminal("session set schema clause"), Bar, Nonterminal("session set graph clause"), Bar, Nonterminal("session set time zone clause"), Bar, Nonterminal("session set parameter clause"), RBrace]

  lemma Text10Step1()
    ensures SkipBlank(Text10, 0) == 1
    ensures Suffix(Text10, 4) == 4
    ensures Element(Text10, 3) == Some(4)
    ensures Suffix(Text10, 5) == 5
    ensures Element(Text10, 4) == Some(5)
    ensures Suffix(Text10, 7) == 7
    ensures Element(Text10, 6) == Some(7)
    ensures Items(Text10, 7) == Some(7)
    ensures Alternative(Text10, 6) == Some(7)
    ensures SkipBlank(Text10, 7) == 7
  {
    assert SkipBlank(Text10, 0) == 1;
    assert Suffix(Text10, 4) == 4;
    assert Element(Text10, 3) == Some(4);
    assert Suffix(Text10, 5) == 5;
    assert Element(Text10, 4) == Some(5);
    assert Suffix(Text10, 7) == 7;
    assert Element(Text10, 6) == Some(7);
    assert Items(Text10, 7) == Some(7);
    assert Alternative(Text10, 6) == Some(7);
    assert SkipBlank(Text10, 7) == 7;
  }

  lemma Text10Step2()
    ensures Suffix(Text10, 9) == 9
    ensures Element(Text10, 8) == Some(9)
    ensures Items(Text10, 9) == Some(9)
    ensures Alternative(Text10, 8) == Some(9)
    ensures SkipBlank(Text10, 9) == 9
    ensures Suffix(Text10, 11) == 11
    ensures Element(Text10, 10) == Some(11)
    ensures Items(Text10, 11) == Some(11)
    ensures Alternative(Text10, 10) == Some(11)
    ensures SkipBlank(Text10, 11) == 11
  {
    Text10Step1();
    assert Suffix(Text10, 9) == 9;
    assert Element(Text10, 8) == Some(9);
    assert Items(Text10, 9) == Some(9);
    assert Alternative(Text10, 8) == Some(9);
    assert SkipBlank(Text10, 9) == 9;
    assert Suffix(Text10, 11) == 11;
    assert Element(Text10, 10) == Some(11);
    assert Items(Text10, 11) == Some(11);
    assert Alternative(Text10, 10) == Some(11);
    assert SkipBlank(Text10, 11) == 11;
  }

  lemma Text10Step3()
    ensures Suffix(Text10, 13) == 13
    ensures Element(Text10, 12) == Some(13)
    ensures Items(Text10, 13) == Some(13)
    ensures Alternative(Text10, 12) == Some(13)
    ensures SkipBlank(Text10, 13) == 13
    ensures MoreAlternatives(Text10, 13) == Some(13)
    ensures MoreAlternatives(Text10, 11) == Some(13)
    ensures MoreAlternatives(Text10, 9) == Some(13)
    ensures MoreAlternatives(Text10, 7) == Some(13)
    ensures Alternatives(Text10, 6) == Some(13)
  {
    Text10Step1();
    Text10Step2();
    assert Suffix(Text10, 13) == 13;
    assert Element(Text10, 12) == Some(13);
    assert Items(Text10, 13) == Some(13);
    assert Alternative(Text10, 12) == Some(13);
    assert SkipBlank(Text10, 13) == 13;
    assert MoreAlternatives(Text10, 13) == Some(13);
    assert MoreAlternatives(Text10, 11) == Some(13);
    assert MoreAlternatives(Text10, 9) == Some(13);
    assert MoreAlternatives(Text10, 7) == Some(13);
    assert Alternatives(Text10, 6) == Some(13);
  }

  lemma Text10Step4()
    ensures Suffix(Text10, 14) == 14
    ensures Element(Text10, 5) == Some(14)
    ensures Items(Text10, 14) == Some(14)
    ensures Items(Text10, 5) == Some(14)
    ensures Items(Text10, 4) == Some(14)
    ensures Alternative(Text10, 3) == Some(14)
    ensures SkipBlank(Text10, 14) == 14
    ensures MoreAlternatives(Text10, 14) == Some(14)
    ensures Alternatives(Text10, 3) == Some(14)
    ensures RuleBody(Text10, 3) == Some(14)
  {
    Text10Step1();
    Text10Step2();
    Text10Step3();
    assert Suffix(Text10, 14) == 14;
    assert Element(Text10, 5) == Some(14);
    assert Items(Text10, 14) == Some(14);
    assert Items(Text10, 5) == Some(14);
    assert Items(Text10, 4) == Some(14);
    assert Alternative(Text10, 3) == Some(14);
    assert SkipBlank(Text10, 14) == 14;
    assert MoreAlternatives(Text10, 14) == Some(14);
    assert Alternatives(Text10, 3) == Some(14);
    assert RuleBody(Text10, 3) == Some(14);
  }

  /** The text of test_10 is accepted. */
  lemma Test10()
    ensures Accepts(Text10)
  {
    Text10Step1();
    Text10Step2();
    Text10Step3();
    Text10Step4();
    assert Rule(Text10, 1) == Some(14);
    assert Rules(Text10, 1);
  }

  /** The grammar text of test_11, line 281 of the test file. */
  const Text11: seq<Token> := [BlockEnd, Nonterminal("single quoted character representation"), Defines, Nonterminal("character representation"), Bar, Nonterminal("double single quote"), Comment("See the Syntax Rules.")]

  /** The text of test_11 is accepted. */
  lemma Test11()
    ensures Accepts(Text11)
  {
    assert SkipBlank(Text11, 0) == 1;
    assert Suffix(Text11, 4) == 4;
    assert Element(Text11, 3) == Some(4);
    assert Items(Text11, 4) == Some(4);
    assert Alternative(Text11, 3) == Some(4);
    assert SkipBlank(Text11, 4) == 4;
    assert Suffix(Text11, 6) == 6;
    assert Element(Text11, 5) == Some(6);
    assert Items(Text11, 7) == Some(7);
    assert Items(Text11, 6) == Some(7);
    assert Alternative(Text11, 5) == Some(7);
    assert SkipBlank(Text11, 7) == 7;
    assert MoreAlternatives(Text11, 7) == Some(7);
    assert MoreAlternatives(Text11, 4) == Some(7);
    assert Alternatives(Text11, 3) == Some(7);
    assert RuleBody(Text11, 3) == Some(7);
    assert Rule(Text11, 1) == Some(7);
    assert Rules(Text11, 1);
  }

  /** The grammar text of test_12, line 303 of the test file. */
  const Text12: seq<Token> := [BlockEnd, Nonterminal("double single quote"), Defines, Nonterminal("quote"), Nonterminal("quote"), Comment("See the Syntax Rules.")]

  /** The text of test_12 is accepted. */
  lemma Test12()
    ensures Accepts(Text12)
  {
    assert SkipBlank(Text12, 0) == 1;
    assert Suffix(Text12, 4) == 4;
    assert Element(Text12, 3) == Some(4);
    assert Suffix(Text12, 5) == 5;
    assert Element(Text12, 4) == Some(5);
    assert Items(Text12, 6) == Some(6);
    assert Items(Text12, 5) == Some(6);
    assert Items(Text12, 4) == Some(6);
    assert Alternative(Text12, 3) == Some(6);
    assert SkipBlank(Text12, 6) == 6;
    assert MoreAlternatives(Text12, 6) == Some(6);
    assert Alternatives(Text12, 3) == Some(6);
    assert RuleBody(Text12, 3) == Some(6);
    assert Rule(Text12, 1) == Some(6);
    assert Rules(Text12, 1);
  }

  /** The grammar text of test_13, line 325 of the test file. */
  const Text13: seq<Token> := [BlockEnd, Nonterminal("GQL-program"), Defines, Nonterminal("program activity"), LBrack, Nonterminal("session close command"), RBrack, Bar, Nonterminal("session close command"), BlockEnd, Nonterminal("program activity"), Defines, Nonterminal("session activity"), Bar, Nonterminal("transaction activity")]

  lemma Text13Step1()
    ensures SkipBlank(Text13, 0) == 1
    ensures Suffix(Text13, 4) == 4
    ensures Element(Text13, 3) == Some(4)
    ensures Suffix(Text13, 6) == 6
    ensures Element(Text13, 5) == Some(6)
    ensures Items(Text13, 6) == Some(6)
    ensures Alternative(Text13, 5) == Some(6)
    ensures SkipBlank(Text13, 6) == 6
    ensures MoreAlternatives(Text13, 6) == Some(6)
    ensures Alternatives(Text13, 5) == Some(6)
  {
    assert SkipBlank(Text13, 0) == 1;
    assert Suffix(Text13, 4) == 4;
    assert Element(Text13, 3) == Some(4);
    assert Suffix(Text13, 6) == 6;
    assert Element(Text13, 5) == Some(6);
    assert Items(Text13, 6) == Some(6);
    assert Alternative(Text13, 5) == Some(6);
    assert SkipBlank(Text13, 6) == 6;
    assert MoreAlternatives(Text13, 6) == Some(6);
    assert Alternatives(Text13, 5) == Some(6);
  }

  lemma Text13Step2()
    ensures Suffix(Text13, 7) == 7
    ensures Element(Text13, 4) == Some(7)
    ensures Items(Text13, 7) == Some(7)
    ensures Items(Text13, 4) == Some(7)
    ensures Alternative(Text13, 3) == Some(7)
    ensures SkipBlank(Text13, 7) == 7
    ensures Suffix(Text13, 9) == 9
    ensures Element(Text13, 8) == Some(9)
    ensures Items(Text13, 9) == Some(9)
    ensures Alternative(Text13, 8) == Some(9)
  {
    Text13Step1();
    assert Suffix(Text13, 7) == 7;
    assert Element(Text13, 4) == Some(7);
    assert Items(Text13, 7) == Some(7);
    assert Items(Text13, 4) == Some(7);
    assert Alternative(Text13, 3) == Some(7);
    assert SkipBlank(Text13, 7) == 7;
    assert Suffix(Text13, 9) == 9;
    assert Element(Text13, 8) == Some(9);
    assert Items(Text13, 9) == Some(9);
    assert Alternative(Text13, 8) == Some(9);
  }

  lemma Text13Step3()
    ensures SkipBlank(Text13, 9) == 10
    ensures MoreAlternatives(Text13, 9) == Some(9)
    ensures MoreAlternatives(Text13, 7) == Some(9)
    ensures Alternatives(Text13, 3) == Some(9)
    ensures RuleBody(Text13, 3) == Some(9)
    ensures Rule(Text13, 1) == Some(9)
    ensures Suffix(Text13, 13) == 13
    ensures Element(Text13, 12) == Some(13)
    ensures Items(Text13, 13) == Some(13)
    ensures Alternative(Text13, 12) == Some(13)
  {
    Text13Step1();
    Text13Step2();
    assert SkipBlank(Text13, 9) == 10;
    assert MoreAlternatives(Text13, 9) == Some(9);
    assert MoreAlternatives(Text13, 7) == Some(9);
    assert Alternatives(Text13, 3) == Some(9);
    assert RuleBody(Text13, 3) == Some(9);
    assert Rule(Text13, 1) == Some(9);
    assert Suffix(Text13, 13) == 13;
    assert Element(Text13, 12) == Some(13);
    assert Items(Text13, 13) == Some(13);
    assert Alternative(Text13, 12) == Some(13);
  }

  lemma Text13Step4()
    ensures SkipBlank(Text13, 13) == 13
    ensures Suffix(Text13, 15) == 15
    ensures Element(Text13, 14) == Some(15)
    ensures Items(Text13, 15) == Some(15)
    ensures Alternative(Text13, 14) == Some(15)
    ensures SkipBlank(Text13, 15) == 15
    ensures MoreAlternatives(Text13, 15) == Some(15)
    ensures MoreAlternatives(Text13, 13) == Some(15)
    ensures Alternatives(Text13, 12) == Some(15)
    ensures RuleBody(Text13, 12) == Some(15)
  {
    Text13Step1();
    Text13Step2();
    Text13Step3();
    assert SkipBlank(Text13, 13) == 13;
    assert Suffix(Text13, 15) == 15;
    assert Element(Text13, 14) == Some(15);
    assert Items(Text13, 15) == Some(15);
    assert Alternative(Text13, 14) == Some(15);
    assert SkipBlank(Text13, 15) == 15;
    assert MoreAlternatives(Text13, 15) == Some(15);
    assert MoreAlternatives(Text13, 13) == Some(15);
    assert Alternatives(Text13, 12) == Some(15);
    assert RuleBody(Text13, 12) == Some(15);
  }

  /** The text of test_13 is accepted. */
  lemma Test13()
    ensures Accepts(Text13)
  {
    Text13Step1();
    Text13Step2();
    Text13Step3();
    Text13Step4();
    assert Rule(Text13, 10) == Some(15);
    assert Rules(Text13, 10);
    assert Rules(Text13, 1);
  }

  /** The grammar text of test_14, line 351 of the test file. */
  const Text14: seq<Token> := [BlockEnd, Nonterminal("GQL-program"), Defines, Nonterminal("program activity"), LBrack, Nonterminal("session close command"), RBrack, Bar, Nonterminal("session close command"), BlockEnd, Nonterminal("program activity"), Defines, Nonterminal("session activity"), Bar, Nonterminal("transaction activity"), BlockEnd]

  lemma Text14Step1()
    ensures SkipBlank(Text14, 0) == 1
    ensures Suffix(Text14, 4) == 4
    ensures Element(Text14, 3) == Some(4)
    ensures Suffix(Text14, 6) == 6
    ensures Element(Text14, 5) == Some(6)
    ensures Items(Text14, 6) == Some(6)
    ensures Alternative(Text14, 5) == Some(6)
    ensures SkipBlank(Text14, 6) == 6
    ensures MoreAlternatives(Text14, 6) == Some(6)
    ensures Alternatives(Text14, 5) == Some(6)
  {
    assert SkipBlank(Text14, 0) == 1;
    assert Suffix(Text14, 4) == 4;
    assert Element(Text14, 3) == Some(4);
    assert Suffix(Text14, 6) == 6;
    assert Element(Text14, 5) == Some(6);
    assert Items(Text14, 6) == Some(6);
    assert Alternative(Text14, 5) == Some(6);
    assert SkipBlank(Text14, 6) == 6;
    assert MoreAlternatives(Text14, 6) == Some(6);
    assert Alternatives(Text14, 5) == Some(6);
  }

  lemma Text14Step2()
    ensures Suffix(Text14, 7) == 7
    ensures Element(Text14, 4) == Some(7)
    ensures Items(Text14, 7) == Some(7)
    ensures Items(Text14, 4) == Some(7)
    ensures Alternative(Text14, 3) == Some(7)
    ensures SkipBlank(Text14, 7) == 7
    ensures Suffix(Text14, 9) == 9
    ensures Element(Text14, 8) == Some(9)
    ensures Items(Text14, 9) == Some(9)
    ensures Alternative(Text14, 8) == Some(9)
  {
    Text14Step1();
    assert Suffix(Text14, 7) == 7;
    assert Element(Text14, 4) == Some(7);
    assert Items(Text14, 7) == Some(7);
    assert Items(Text14, 4) == Some(7);
    assert Alternative(Text14, 3) == Some(7);
    assert SkipBlank(Text14, 7) == 7;
    assert Suffix(Text14, 9) == 9;
    assert Element(Text14, 8) == Some(9);
    assert Items(Text14, 9) == Some(9);
    assert Alternative(Text14, 8) == Some(9);
  }

  lemma Text14Step3()
    ensures SkipBlank(Text14, 9) == 10
    ensures MoreAlternatives(Text14, 9) == Some(9)
    ensures MoreAlternatives(Text14, 7) == Some(9)
    ensures Alternatives(Text14, 3) == Some(9)
    ensures RuleBody(Text14, 3) == Some(9)
    ensures Rule(Text14, 1) == Some(9)
    ensures Suffix(Text14, 13) == 13
    ensures Element(Text14, 12) == Some(13)
    ensures Items(Text14, 13) == Some(13)
    ensures Alternative(Text14, 12) == Some(13)
  {
    Text14Step1();
    Text14Step2();
    assert SkipBlank(Text14, 9) == 10;
    assert MoreAlternatives(Text14, 9) == Some(9);
    assert MoreAlternatives(Text14, 7) == Some(9);
    assert Alternatives(Text14, 3) == Some(9);
    assert RuleBody(Text14, 3) == Some(9);
    assert Rule(Text14, 1) == Some(9);
    assert Suffix(Text14, 13) == 13;
    assert Element(Text14, 12) == Some(13);
    assert Items(Text14, 13) == Some(13);
    assert Alternative(Text14, 12) == Some(13);
  }

  lemma Text14Step4()
    ensures SkipBlank(Text14, 13) == 13
    ensures Suffix(Text14, 15) == 15
    ensures Element(Text14, 14) == Some(15)
    ensures Items(Text14, 15) == Some(15)
    ensures Alternative(Text14, 14) == Some(15)
    ensures SkipBlank(Text14, 15) == 16
    ensures MoreAlternatives(Text14, 15) == Some(15)
    ensures MoreAlternatives(Text14, 13) == Some(15)
    ensures Alternatives(Text14, 12) == Some(15)
    ensures RuleBody(Text14, 12) == Some(15)
  {
    Text14Step1();
    Text14Step2();
    Text14Step3();
    assert SkipBlank(Text14, 13) == 13;
    assert Suffix(Text14, 15) == 15;
    assert Element(Text14, 14) == Some(15);
    assert Items(Text14, 15) == Some(15);
    assert Alternative(Text14, 14) == Some(15);
    assert SkipBlank(Text14, 15) == 16;
    assert MoreAlternatives(Text14, 15) == Some(15);
    assert MoreAlternatives(Text14, 13) == Some(15);
    assert Alternatives(Text14, 12) == Some(15);
    assert RuleBody(Text14, 12) == Some(15);
  }

  /** The text of test_14 is accepted. */
  lemma Test14()
    ensures Accepts(Text14)
  {
    Text14Step1();
    Text14Step2();
    Text14Step3();
    Text14Step4();
    assert Rule(Text14, 10) == Some(15);
    assert Rules(Text14, 10);
    assert Rules(Text14, 1);
  }

  /** The grammar text of test_15, line 380 of the test file. */
  const Text15: seq<Token> := [BlockEnd, Nonterminal("implementation-defined access mode"), Defines, Comment("See the Syntax Rules."), BlockEnd]

  /** The text of test_15 is accepted. */
  lemma Test15()
    ensures Accepts(Text15)
  {
    assert SkipBlank(Text15, 0) == 1;
    assert SkipComments(Text15, 3) == 4;
    assert RuleBody(Text15, 3) == Some(4);
    assert Rule(Text15, 1) == Some(4);
    assert SkipBlank(Text15, 4) == 5;
    assert Rules(Text15, 1);
  }

  /** The grammar text of test_16, line 402 of the test file. */
  const Text16: seq<Token> := [BlockEnd, Nonterminal("implementation-defined access mode"), Defines, Comment("See the Syntax Rules."), BlockEnd, Nonterminal("rollback command"), Defines, Terminal("ROLLBACK"), BlockEnd]

  /** The text of test_16 is accepted. */
  lemma Test16()
    ensures Accepts(Text16)
  {
    assert SkipBlank(Text16, 0) == 1;
    assert SkipComments(Text16, 3) == 4;
    assert RuleBody(Text16, 3) == Some(4);
    assert Rule(Text16, 1) == Some(4);
    assert SkipBlank(Text16, 4) == 5;
    assert Suffix(Text16, 8) == 8;
    assert Element(Text16, 7) == Some(8);
    assert Items(Text16, 8) == Some(8);
    assert Alternative(Text16, 7) == Some(8);
    assert SkipBlank(Text16, 8) == 9;
    assert MoreAlternatives(Text16, 8) == Some(8);
    assert Alternatives(Text16, 7) == Some(8);
    assert RuleBody(Text16, 7) == Some(8);
    assert Rule(Text16, 5) == Some(8);
    assert Rules(Text16, 5);
    assert Rules(Text16, 1);
  }

  /** The grammar text of test_17, line 427 of the test file. */
  const Text17: seq<Token> := [BlockEnd, Nonterminal("pre-reserved word"), Defines, Terminal("ABSTRACT"), BlockEnd, Bar, Terminal("AGGREGATE"), BlockEnd, Bar, Terminal("AGGREGATES")]

  /** The text of test_17 is accepted. */
  lemma Test17()
    ensures Accepts(Text17)
  {
    assert SkipBlank(Text17, 0) == 1;
    assert Suffix(Text17, 4) == 4;
    assert Element(Text17, 3) == Some(4);
    assert Items(Text17, 4) == Some(4);
    assert Alternative(Text17, 3) == Some(4);
    assert SkipBlank(Text17, 4) == 5;
    assert Suffix(Text17, 7) == 7;
    assert Element(Text17, 6) == Some(7);
    assert Items(Text17, 7) == Some(7);
    assert Alternative(Text17, 6) == Some(7);
    assert SkipBlank(Text17, 7) == 8;
    assert Suffix(Text17, 10) == 10;
    assert Element(Text17, 9) == Some(10);
    assert Items(Text17, 10) == Some(10);
    assert Alternative(Text17, 9) == Some(10);
    assert SkipBlank(Text17, 10) == 10;
    assert MoreAlternatives(Text17, 10) == Some(10);
    assert MoreAlternatives(Text17, 7) == Some(10);
    assert MoreAlternatives(Text17, 4) == Some(10);
    assert Alternatives(Text17, 3) == Some(10);
    assert RuleBody(Text17, 3) == Some(10);
    assert Rule(Text17, 1) == Some(10);
    assert Rules(Text17, 1);
  }

  /** The grammar text of test_18, line 453 of the test file. */
  const Text18: seq<Token> := [BlockEnd, Nonterminal("space"), Defines, Quoted("\" \"")]

  /** The text of test_18 is accepted. */
  lemma Test18()
    ensures Accepts(Text18)
  {
    assert SkipBlank(Text18, 0) == 1;
    assert Suffix(Text18, 4) == 4;
    assert Element(Text18, 3) == Some(4);
    assert Items(Text18, 4) == Some(4);
    assert Alternative(Text18, 3) == Some(4);
    assert SkipBlank(Text18, 4) == 4;
    assert MoreAlternatives(Text18, 4) == Some(4);
    assert Alternatives(Text18, 3) == Some(4);
    assert RuleBody(Text18, 3) == Some(4);
    assert Rule(Text18, 1) == Some(4);
    assert Rules(Text18, 1);
  }

  /** The grammar text of test_19, line 474 of the test file. */
  const Text19: seq<Token> := [BlockEnd, Nonterminal("right brace"), Defines, Quoted("\"}\"")]

  /** The text of test_19 is accepted. */
  lemma Test19()
    ensures Accepts(Text19)
  {
    assert SkipBlank(Text19, 0) == 1;
    assert Suffix(Text19, 4) == 4;
    assert Element(Text19, 3) == Some(4);
    assert Items(Text19, 4) == Some(4);
    assert Alternative(Text19, 3) == Some(4);
    assert SkipBlank(Text19, 4) == 4;
    assert MoreAlternatives(Text19, 4) == Some(4);
    assert Alternatives(Text19, 3) == Some(4);
    assert RuleBody(Text19, 3) == Some(4);
    assert Rule(Text19, 1) == Some(4);
    assert Rules(Text19, 1);
  }

  /** The grammar text of test_20, line 495 of the test file. */
  const Text20: seq<Token> := [BlockEnd, Nonterminal("reverse solidus"), Defines, Quoted("\"\\\\\""), BlockEnd, Nonterminal("right brace"), Defines, Quoted("\"}\"")]

  /** The text of test_20 is accepted. */
  lemma Test20()
    ensures Accepts(Text20)
  {
    assert SkipBlank(Text20, 0) == 1;
    assert Suffix(Text20, 4) == 4;
    assert Element(Text20, 3) == Some(4);
    assert Items(Text20, 4) == Some(4);
    assert Alternative(Text20, 3) == Some(4);
    assert SkipBlank(Text20, 4) == 5;
    assert MoreAlternatives(Text20, 4) == Some(4);
    assert Alternatives(Text20, 3) == Some(4);
    assert RuleBody(Text20, 3) == Some(4);
    assert Rule(Text20, 1) == Some(4);
    assert Suffix(Text20, 8) == 8;
    assert Element(Text20, 7) == Some(8);
    assert Items(Text20, 8) == Some(8);
    assert Alternative(Text20, 7) == Some(8);
    assert SkipBlank(Text20, 8) == 8;
    assert MoreAlternatives(Text20, 8) == Some(8);
    assert Alternatives(Text20, 7) == Some(8);
    assert RuleBody(Text20, 7) == Some(8);
    assert Rule(Text20, 5) == Some(8);
    assert Rules(Text20, 5);
    assert Rules(Text20, 1);
  }

  /** The grammar text of test_21, line 519 of the test file. */
  const Text21: seq<Token> := [Nonterminal("a"), Terminal(":="), Terminal("b")]

  /** The text of test_21 is rejected. */
  lemma Test21()
    ensures !Accepts(Text21)
  {
    assert SkipBlank(Text21, 0) == 0;
    assert Rule(Text21, 0) == None;
    assert !Rules(Text21, 0);
  }

  // Texts that no test covers.  The grammar files are not part of this
  // model, so the verdicts below are the model's own reading of the grammar.

  /** A comment before the first element makes the body comment-only, and
      the element after it is left over: rejected. */
  lemma CommentBeforeFirstElementRejected()
    ensures !Accepts([Nonterminal("x"), Defines, Comment("c"), Terminal("A")])
  {
    var ts := [Nonterminal("x"), Defines, Comment("c"), Terminal("A")];
    assert SkipBlank(ts, 0) == 0;
    assert SkipComments(ts, 3) == 3;
    assert SkipComments(ts, 2) == 3;
    assert RuleBody(ts, 2) == Some(3);
    assert Rule(ts, 0) == Some(3);
    assert SkipBlank(ts, 3) == 3;
  }

  /** An alternative after a bar must start with an element; a comment alone
      is not one: rejected. */
  lemma CommentOnlyAlternativeRejected()
    ensures !Accepts([Nonterminal("x"), Defines, Terminal("A"), Bar, Comment("c")])
  {
    var ts := [Nonterminal("x"), Defines, Terminal("A"), Bar, Comment("c")];
    assert SkipBlank(ts, 0) == 0;
    assert Element(ts, 4) == None;
    assert Alternative(ts, 4) == None;
    assert SkipBlank(ts, 3) == 3;
    assert MoreAlternatives(ts, 3) == None;
    assert Items(ts, 3) == Some(3);
    assert Element(ts, 2) == Some(3);
    assert Alternative(ts, 2) == Some(3);
    assert Alternatives(ts, 2) == None;
    assert Rule(ts, 0) == None;
  }

  /** An empty line right after `::=` ends an empty body, and what follows
      is not a rule: rejected. */
  lemma EmptyLineAfterDefinesRejected()
    ensures !Accepts([Nonterminal("x"), Defines, BlockEnd, Terminal("A")])
  {
    var ts := [Nonterminal("x"), Defines, BlockEnd, Terminal("A")];
    assert SkipBlank(ts, 0) == 0;
    assert SkipComments(ts, 2) == 2;
    assert Rule(ts, 0) == Some(2);
    assert SkipBlank(ts, 3) == 3;
    assert SkipBlank(ts, 2) == 3;
    assert Rule(ts, 3) == None;
  }

  /** A comment line before the first block is not part of any rule: rejected. */
  lemma CommentBeforeFirstBlockRejected()
    ensures !Accepts([Comment("c"), Nonterminal("x"), Defines, Terminal("A")])
  {
    var ts := [Comment("c"), Nonterminal("x"), Defines, Terminal("A")];
    assert SkipBlank(ts, 0) == 0;
    assert Rule(ts, 0) == None;
  }

  /** A comment line after the empty line that ends a block starts no rule: rejected. */
  lemma CommentBetweenBlocksRejected()
    ensures !Accepts([Nonterminal("x"), Defines, Terminal("A"), BlockEnd, Comment("c")])
  {
    var ts := [Nonterminal("x"), Defines, Terminal("A"), BlockEnd, Comment("c")];
    assert SkipBlank(ts, 0) == 0;
    assert Element(ts, 2) == Some(3);
    assert Items(ts, 3) == Some(3);
    assert Alternative(ts, 2) == Some(3);
    assert SkipBlank(ts, 4) == 4;
    assert SkipBlank(ts, 3) == 4;
    assert MoreAlternatives(ts, 3) == Some(3);
    assert Alternatives(ts, 2) == Some(3);
    assert Rule(ts, 0) == Some(3);
    assert Rule(ts, 4) == None;
  }

  /** Two blocks with no empty line between them: the second name is read as
      an element of the first body, and its `::=` is left over: rejected. */
  lemma BlocksWithoutEmptyLineRejected()
    ensures !Accepts([Nonterminal("x"), Defines, Terminal("A"), Nonterminal("y"), Defines, Terminal("B")])
  {
    var ts := [Nonterminal("x"), Defines, Terminal("A"), Nonterminal("y"), Defines, Terminal("B")];
    assert SkipBlank(ts, 0) == 0;
    assert Element(ts, 2) == Some(3);
    assert Element(ts, 3) == Some(4);
    assert Items(ts, 4) == Some(4);
    assert Items(ts, 3) == Some(4);
    assert Alternative(ts, 2) == Some(4);
    assert SkipBlank(ts, 4) == 4;
    assert MoreAlternatives(ts, 4) == Some(4);
    assert Alternatives(ts, 2) == Some(4);
    assert Rule(ts, 0) == Some(4);
  }

  /** An empty line inside an alternative that no bar follows ends the block,
      and the rest starts no rule: rejected. */
  lemma EmptyLineInsideAlternativeRejected()
    ensures !Accepts([Nonterminal("x"), Defines, Terminal("A"), BlockEnd, Terminal("B")])
  {
    var ts := [Nonterminal("x"), Defines, Terminal("A"), BlockEnd, Terminal("B")];
    assert SkipBlank(ts, 0) == 0;
    assert Element(ts, 2) == Some(3);
    assert Items(ts, 3) == Some(3);
    assert Alternative(ts, 2) == Some(3);
    assert SkipBlank(ts, 4) == 4;
    assert SkipBlank(ts, 3) == 4;
    assert MoreAlternatives(ts, 3) == Some(3);
    assert Alternatives(ts, 2) == Some(3);
    assert Rule(ts, 0) == Some(3);
    assert Rule(ts, 4) == None;
  }
}
