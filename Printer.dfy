/**
 * The rule structure written back as tokens.  The converting parser reads a
 * printed rule sequence back unchanged, and every rule sequence it builds is
 * well formed, so the well-formed rule sequences are exactly what the parser
 * can yield and the parser loses nothing of them.
 */
module BnfPrinter {

  import opened Wrappers
  import opened Tokens
  import opened Syntax
  import opened BnfToBisonParser

  // ---------------------------------------------------------------------------
  // What the parser can build
  // ---------------------------------------------------------------------------

  /** Groups have at least one alternative, and a suffix is never repeated. */
  predicate WfElement(e: Element) {
    match e
    case Sym(_) => true
    case Opt(body) => body != [] && WfBody(body)
    case Group(body) => body != [] && WfBody(body)
    case Repeat(u) => !u.Repeat? && WfElement(u)
  }

  predicate WfItems(es: seq<Element>) {
    es == [] || (WfElement(es[0]) && WfItems(es[1..]))
  }

  /** An alternative holds at least one element. */
  predicate WfAlternative(a: Alternative) {
    a.elements != [] && WfItems(a.elements)
  }

  predicate WfBody(body: seq<Alternative>) {
    body == [] || (WfAlternative(body[0]) && WfBody(body[1..]))
  }

  predicate WfRules(rules: seq<Rule>) {
    rules == [] || (WfBody(rules[0].body) && WfRules(rules[1..]))
  }

  // ---------------------------------------------------------------------------
  // Printing
  // ---------------------------------------------------------------------------

  function SymbolToken(s: Symbol): (t: Token)
    ensures IsSymbol(t) && SymbolOf(t) == s
  {
    match s
    case Nonterminal(n) => Token.Nonterminal(n)
    case Terminal(w) => Token.Terminal(w)
  }

  function PrintElement(e: Element): (r: seq<Token>)
    ensures r != [] && StartsElement(r[0])
  {
    match e
    case Sym(s) => [SymbolToken(s)]
    case Opt(body) => [LBrack] + PrintBody(body) + [RBrack]
    case Group(body) => [LBrace] + PrintBody(body) + [RBrace]
    case Repeat(u) => PrintElement(u) + [Ellipsis]
  }

  function PrintItems(es: seq<Element>): (r: seq<Token>)
    ensures r == [] <==> es == []
    ensures r != [] ==> StartsElement(r[0])
  {
    if es == [] then [] else PrintElement(es[0]) + PrintItems(es[1..])
  }

  /** Alternatives separated by bars; no alternatives print as nothing. */
  function PrintBody(body: seq<Alternative>): (r: seq<Token>)
    ensures body != [] && body[0].elements != [] ==> r != [] && StartsElement(r[0])
  {
    if body == [] then []
    else
      var first := PrintItems(body[0].elements);
      assert first != [] ==> (first + PrintMore(body[1..]))[0] == first[0];
      first + PrintMore(body[1..])
  }

  /** Each alternative after the first, preceded by its bar. */
  function PrintMore(more: seq<Alternative>): (r: seq<Token>)
    ensures r == [] <==> more == []
    ensures r != [] ==> r[0] == Bar
  {
    if more == [] then [] else [Bar] + PrintItems(more[0].elements) + PrintMore(more[1..])
  }

  function PrintRule(rule: Rule): (r: seq<Token>)
    ensures |r| >= 2 && r[0] == Token.Nonterminal(rule.lhs) && r[1] == Defines
  {
    [Token.Nonterminal(rule.lhs), Defines] + PrintBody(rule.body)
  }

  /** Rule blocks separated by one empty line each. */
  function PrintRules(rules: seq<Rule>): (r: seq<Token>)
    ensures r == [] <==> rules == []
    ensures r != [] ==> r[0] == Token.Nonterminal(rules[0].lhs)
  {
    if rules == [] then []
    else if |rules| == 1 then PrintRule(rules[0])
    else PrintRule(rules[0]) + [BlockEnd] + PrintRules(rules[1..])
  }

  // ---------------------------------------------------------------------------
  // Reading a printed text back
  // ---------------------------------------------------------------------------

  /** The tokens of `s`, one by one, from position `i` of `ts` on. */
  predicate Matches(ts: seq<Token>, i: nat, s: seq<Token>)
    decreases |s|
  {
    s == [] || (i < |ts| && ts[i] == s[0] && Matches(ts, i + 1, s[1..]))
  }

  /** `s` stands in `ts` from position `i` on. */
  predicate At(ts: seq<Token>, i: nat, s: seq<Token>) {
    i + |s| <= |ts| && Matches(ts, i, s)
  }

  lemma {:induction false} MatchesSplit(ts: seq<Token>, i: nat, s: seq<Token>, t: seq<Token>)
    requires Matches(ts, i, s + t)
    ensures Matches(ts, i, s) && Matches(ts, i + |s|, t)
    decreases |s|
  {
    if s != [] {
      assert (s + t)[0] == s[0];
      assert (s + t)[1..] == s[1..] + t;
      MatchesSplit(ts, i + 1, s[1..], t);
    } else {
      assert s + t == t;
    }
  }

  lemma {:induction false} AtSplit(ts: seq<Token>, i: nat, s: seq<Token>, t: seq<Token>)
    requires At(ts, i, s + t)
    ensures At(ts, i, s) && At(ts, i + |s|, t)
  {
    MatchesSplit(ts, i, s, t);
  }

  lemma {:induction false} AtFirst(ts: seq<Token>, i: nat, s: seq<Token>)
    requires At(ts, i, s) && s != []
    ensures i < |ts| && ts[i] == s[0]
  {
  }

  /** Every text stands in itself. */
  lemma {:induction false} MatchesSelf(ts: seq<Token>, i: nat)
    requires i <= |ts|
    ensures Matches(ts, i, ts[i..])
    decreases |ts| - i
  {
    if i < |ts| {
      assert ts[i..][1..] == ts[i + 1..];
      MatchesSelf(ts, i + 1);
    }
  }

  /** Nothing at `n` extends the items before it: no element, comment or `...`. */
  predicate ItemsEnd(ts: seq<Token>, n: nat)
    requires n <= |ts|
  {
    n == |ts| || !(StartsElement(ts[n]) || ts[n].Comment? || ts[n].Ellipsis?)
  }

  /** Nothing at `n` extends the alternatives before it: not even a bar after empty lines. */
  predicate AlternativesEnd(ts: seq<Token>, n: nat)
    requires n <= |ts|
  {
    ItemsEnd(ts, n) && (SkipBlank(ts, n) == |ts| || !ts[SkipBlank(ts, n)].Bar?)
  }

  /** A token that closes a group, or a bar, ends the alternatives before it. */
  lemma {:induction false} CloserEnds(ts: seq<Token>, n: nat)
    requires n < |ts| && (ts[n].RBrack? || ts[n].RBrace? || ts[n].Bar?)
    ensures ItemsEnd(ts, n)
    ensures !ts[n].Bar? ==> AlternativesEnd(ts, n)
  {
  }

  /** A group is read up to its optional suffix. */
  lemma {:induction false} ReadGroup(ts: seq<Token>, i: nat, e: Element)
    requires WfElement(e) && !e.Repeat? && At(ts, i, PrintElement(e))
    ensures ParseElement(ts, i) == WithSuffix(ts, e, i + |PrintElement(e)|)
    decreases |PrintElement(e)|, 0
  {
    AtFirst(ts, i, PrintElement(e));
    match e
    case Sym(s) =>
    case Opt(body) =>
      GroupLayout(ts, i, e);
      ReadBracketed(ts, i, body, RBrack, true);
    case Group(body) =>
      GroupLayout(ts, i, e);
      ReadBracketed(ts, i, body, RBrace, false);
  }

  /** Where the body and the closing bracket of a printed group stand. */
  lemma {:induction false} GroupLayout(ts: seq<Token>, i: nat, e: Element)
    requires (e.Opt? || e.Group?) && At(ts, i, PrintElement(e))
    ensures |PrintElement(e)| == |PrintBody(e.body)| + 2
    ensures At(ts, i + 1, PrintBody(e.body))
    ensures i + 1 + |PrintBody(e.body)| < |ts|
    ensures ts[i + 1 + |PrintBody(e.body)|] == (if e.Opt? then RBrack else RBrace)
  {
    var open, close := if e.Opt? then LBrack else LBrace, if e.Opt? then RBrack else RBrace;
    assert PrintElement(e) == [open] + PrintBody(e.body) + [close];
    AtSplit(ts, i, [open] + PrintBody(e.body), [close]);
    AtSplit(ts, i, [open], PrintBody(e.body));
    AtFirst(ts, i + 1 + |PrintBody(e.body)|, [close]);
  }

  /** A printed body followed by its closing bracket makes the group. */
  lemma {:induction false} ReadBracketed(ts: seq<Token>, i: nat, body: seq<Alternative>, close: Token, opt: bool)
    requires body != [] && WfBody(body) && At(ts, i + 1, PrintBody(body))
    requires close == (if opt then RBrack else RBrace)
    requires i + 1 + |PrintBody(body)| < |ts| && ts[i + 1 + |PrintBody(body)|] == close
    ensures ClosedGroup(ts, ParseAlternatives(ts, i + 1), close, opt)
         == WithSuffix(ts, if opt then Opt(body) else Group(body), i + 2 + |PrintBody(body)|)
    decreases |PrintBody(body)| + 1, 0
  {
    CloserEnds(ts, i + 1 + |PrintBody(body)|);
    ReadBody(ts, i + 1, body);
  }

  lemma {:induction false} ReadElement(ts: seq<Token>, i: nat, e: Element)
    requires WfElement(e) && At(ts, i, PrintElement(e))
    requires i + |PrintElement(e)| == |ts| || !ts[i + |PrintElement(e)|].Ellipsis?
    ensures ParseElement(ts, i) == Parsed(e, i + |PrintElement(e)|)
    decreases |PrintElement(e)|, 1
  {
    if e.Repeat? {
      AtSplit(ts, i, PrintElement(e.unit), [Ellipsis]);
      AtFirst(ts, i + |PrintElement(e.unit)|, [Ellipsis]);
      ReadGroup(ts, i, e.unit);
    } else {
      ReadGroup(ts, i, e);
    }
  }

  lemma {:induction false} ReadItems(ts: seq<Token>, i: nat, es: seq<Element>)
    requires WfItems(es) && At(ts, i, PrintItems(es)) && ItemsEnd(ts, i + |PrintItems(es)|)
    ensures ParseItems(ts, i) == Parsed(es, i + |PrintItems(es)|)
    decreases |PrintItems(es)|, 3
  {
    if es != [] {
      var m := i + |PrintElement(es[0])|;
      ReadFirstItem(ts, i, es);
      ReadItems(ts, m, es[1..]);
      assert ParseItems(ts, i) == Parsed([es[0]] + es[1..], m + |PrintItems(es[1..])|);
      assert [es[0]] + es[1..] == es;
    }
  }

  /** The first element of a run of items, and where the rest of the run stands. */
  lemma {:induction false} ReadFirstItem(ts: seq<Token>, i: nat, es: seq<Element>)
    requires es != [] && WfItems(es) && At(ts, i, PrintItems(es)) && ItemsEnd(ts, i + |PrintItems(es)|)
    ensures ts[i] == PrintElement(es[0])[0]
    ensures ParseElement(ts, i) == Parsed(es[0], i + |PrintElement(es[0])|)
    ensures At(ts, i + |PrintElement(es[0])|, PrintItems(es[1..]))
    ensures |PrintItems(es)| == |PrintElement(es[0])| + |PrintItems(es[1..])|
    decreases |PrintItems(es)|, 2
  {
    assert PrintItems(es) == PrintElement(es[0]) + PrintItems(es[1..]);
    var m := i + |PrintElement(es[0])|;
    AtSplit(ts, i, PrintElement(es[0]), PrintItems(es[1..]));
    AtFirst(ts, i, PrintElement(es[0]));
    if es[1..] != [] {
      AtFirst(ts, m, PrintItems(es[1..]));
    }
    ReadElement(ts, i, es[0]);
  }

  lemma {:induction false} ReadAlternative(ts: seq<Token>, i: nat, a: Alternative)
    requires WfAlternative(a) && At(ts, i, PrintItems(a.elements))
    requires ItemsEnd(ts, i + |PrintItems(a.elements)|)
    ensures ParseAlternative(ts, i) == Parsed(a, i + |PrintItems(a.elements)|)
    decreases |PrintItems(a.elements)|, 4
  {
    var es := a.elements;
    var m := i + |PrintElement(es[0])|;
    ReadFirstItem(ts, i, es);
    ReadItems(ts, m, es[1..]);
    assert [es[0]] + es[1..] == es;
    assert ParseAlternative(ts, i) == Parsed(Alternative([es[0]] + es[1..]), m + |PrintItems(es[1..])|);
  }

  lemma {:induction false} ReadMore(ts: seq<Token>, j: nat, more: seq<Alternative>)
    requires WfBody(more) && At(ts, j, PrintMore(more)) && AlternativesEnd(ts, j + |PrintMore(more)|)
    ensures ParseMoreAlternatives(ts, j) == Parsed(more, j + |PrintMore(more)|)
    decreases |PrintMore(more)|, 5
  {
    if more != [] {
      var a, rest := more[0], more[1..];
      var m := j + 1 + |PrintItems(a.elements)|;
      MoreLayout(ts, j, more);
      ReadAlternative(ts, j + 1, a);
      ReadMore(ts, m, rest);
      MoreStep(ts, j, a, m, rest, m + |PrintMore(rest)|);
      assert [a] + rest == more;
    }
  }

  /** Where the bar, the first alternative and the rest of `more` stand. */
  lemma {:induction false} MoreLayout(ts: seq<Token>, j: nat, more: seq<Alternative>)
    requires more != [] && At(ts, j, PrintMore(more)) && AlternativesEnd(ts, j + |PrintMore(more)|)
    ensures var m := j + 1 + |PrintItems(more[0].elements)|;
      j < |ts| && ts[j] == Bar && At(ts, j + 1, PrintItems(more[0].elements)) && ItemsEnd(ts, m)
      && At(ts, m, PrintMore(more[1..])) && m + |PrintMore(more[1..])| == j + |PrintMore(more)|
      && AlternativesEnd(ts, m + |PrintMore(more[1..])|)
  {
    var a, rest := more[0], more[1..];
    assert PrintMore(more) == [Bar] + PrintItems(a.elements) + PrintMore(rest);
    AtSplit(ts, j, [Bar] + PrintItems(a.elements), PrintMore(rest));
    AtSplit(ts, j, [Bar], PrintItems(a.elements));
    AtFirst(ts, j, [Bar]);
    var m := j + 1 + |PrintItems(a.elements)|;
    if rest != [] {
      AtFirst(ts, m, PrintMore(rest));
      CloserEnds(ts, m);
    }
  }

  /** A bar, one alternative, and the alternatives after it. */
  lemma {:induction false} MoreStep(ts: seq<Token>, j: nat, a: Alternative, m: nat, rest: seq<Alternative>, n: nat)
    requires j < m <= |ts| && ts[j] == Bar && ParseAlternative(ts, j + 1) == Parsed(a, m)
    requires ParseMoreAlternatives(ts, m) == Parsed(rest, n)
    ensures ParseMoreAlternatives(ts, j) == Parsed([a] + rest, n)
  {
    assert SkipBlank(ts, j) == j;
  }

  lemma {:induction false} ReadBody(ts: seq<Token>, i: nat, body: seq<Alternative>)
    requires body != [] && WfBody(body) && At(ts, i, PrintBody(body))
    requires AlternativesEnd(ts, i + |PrintBody(body)|)
    ensures ParseAlternatives(ts, i) == Parsed(body, i + |PrintBody(body)|)
    decreases |PrintBody(body)|, 6
  {
    var a, rest := body[0], body[1..];
    var m := i + |PrintItems(a.elements)|;
    BodyLayout(ts, i, body);
    ReadAlternative(ts, i, a);
    ReadMore(ts, m, rest);
    BodyStep(ts, i, a, m, rest, m + |PrintMore(rest)|);
    assert [a] + rest == body;
  }

  /** Where the first alternative and the rest of `body` stand. */
  lemma {:induction false} BodyLayout(ts: seq<Token>, i: nat, body: seq<Alternative>)
    requires body != [] && At(ts, i, PrintBody(body)) && AlternativesEnd(ts, i + |PrintBody(body)|)
    ensures var m := i + |PrintItems(body[0].elements)|;
      At(ts, i, PrintItems(body[0].elements)) && ItemsEnd(ts, m)
      && At(ts, m, PrintMore(body[1..])) && m + |PrintMore(body[1..])| == i + |PrintBody(body)|
      && AlternativesEnd(ts, m + |PrintMore(body[1..])|)
  {
    var a, rest := body[0], body[1..];
    var m := i + |PrintItems(a.elements)|;
    assert PrintBody(body) == PrintItems(a.elements) + PrintMore(rest);
    AtSplit(ts, i, PrintItems(a.elements), PrintMore(rest));
    if rest != [] {
      AtFirst(ts, m, PrintMore(rest));
      CloserEnds(ts, m);
    }
  }

  /** One alternative and the alternatives after it. */
  lemma {:induction false} BodyStep(ts: seq<Token>, i: nat, a: Alternative, m: nat, rest: seq<Alternative>, n: nat)
    requires i < m <= |ts| && ParseAlternative(ts, i) == Parsed(a, m)
    requires ParseMoreAlternatives(ts, m) == Parsed(rest, n)
    ensures ParseAlternatives(ts, i) == Parsed([a] + rest, n)
  {
  }

  lemma {:induction false} ReadRule(ts: seq<Token>, i: nat, rule: Rule)
    requires WfBody(rule.body) && At(ts, i, PrintRule(rule))
    requires AlternativesEnd(ts, i + |PrintRule(rule)|)
    ensures ParseRule(ts, i) == Parsed(rule, i + |PrintRule(rule)|)
  {
    var head: seq<Token> := [Token.Nonterminal(rule.lhs), Defines];
    AtSplit(ts, i, head, PrintBody(rule.body));
    AtSplit(ts, i, [head[0]], [Defines]);
    AtFirst(ts, i, [head[0]]);
    AtFirst(ts, i + 1, [Defines]);
    if rule.body != [] {
      AtFirst(ts, i + 2, PrintBody(rule.body));
      ReadBody(ts, i + 2, rule.body);
    } else {
      assert SkipComments(ts, i + 2) == i + 2;
    }
  }

  lemma {:induction false} ReadRules(ts: seq<Token>, i: nat, rules: seq<Rule>)
    requires rules != [] && WfRules(rules) && At(ts, i, PrintRules(rules)) && i + |PrintRules(rules)| == |ts|
    ensures ParseRules(ts, i) == Some(rules)
    decreases |rules|
  {
    var r, rest := rules[0], rules[1..];
    var n := i + |PrintRule(r)|;
    if rest == [] {
      assert PrintRules(rules) == PrintRule(r);
      ReadRule(ts, i, r);
      assert ParseRules(ts, i) == Some([r]);
      assert rules == [r];
    } else {
      RulesLayout(ts, i, rules);
      ReadRule(ts, i, r);
      ReadRules(ts, n + 1, rest);
      NextRule(ts, i, r, n, rest);
      assert [r] + rest == rules;
    }
  }

  /** Where the first rule, the empty line after it and the other rules stand. */
  lemma {:induction false} RulesLayout(ts: seq<Token>, i: nat, rules: seq<Rule>)
    requires |rules| >= 2 && At(ts, i, PrintRules(rules)) && i + |PrintRules(rules)| == |ts|
    ensures var n := i + |PrintRule(rules[0])|;
      n + 1 < |ts| && At(ts, i, PrintRule(rules[0])) && SkipBlank(ts, n) == n + 1
      && AlternativesEnd(ts, n) && At(ts, n + 1, PrintRules(rules[1..]))
      && n + 1 + |PrintRules(rules[1..])| == |ts|
  {
    var r, rest := rules[0], rules[1..];
    var n := i + |PrintRule(r)|;
    assert PrintRules(rules) == PrintRule(r) + [BlockEnd] + PrintRules(rest);
    AtSplit(ts, i, PrintRule(r) + [BlockEnd], PrintRules(rest));
    AtSplit(ts, i, PrintRule(r), [BlockEnd]);
    AtFirst(ts, n, [BlockEnd]);
    AtFirst(ts, n + 1, PrintRules(rest));
    assert SkipBlank(ts, n) == n + 1;
  }

  /** One rule, one empty line, and the rules after it. */
  lemma {:induction false} NextRule(ts: seq<Token>, i: nat, r: Rule, n: nat, rest: seq<Rule>)
    requires i <= n < |ts| && ParseRule(ts, i) == Parsed(r, n) && SkipBlank(ts, n) == n + 1
    requires ParseRules(ts, n + 1) == Some(rest)
    ensures ParseRules(ts, i) == Some([r] + rest)
  {
  }

  /** Printing and parsing again gives back every well-formed rule sequence. */
  lemma {:induction false} ParsePrinted(rules: seq<Rule>)
    requires WfRules(rules)
    ensures Parse(PrintRules(rules)) == Some(rules)
  {
    var ts := PrintRules(rules);
    if rules != [] {
      MatchesSelf(ts, 0);
      assert ts[0..] == ts;
      ReadRules(ts, 0, rules);
    }
  }

  // ---------------------------------------------------------------------------
  // What the parser builds is well formed
  // ---------------------------------------------------------------------------

  lemma {:induction false} ElementWf(ts: seq<Token>, i: nat)
    requires i <= |ts|
    ensures ParseElement(ts, i).Parsed? ==> WfElement(ParseElement(ts, i).value)
    decreases |ts| - i, 0
  {
    if i < |ts| && (ts[i].LBrack? || ts[i].LBrace?) {
      AlternativesWf(ts, i + 1);
    }
  }

  lemma {:induction false} ItemsWf(ts: seq<Token>, i: nat)
    requires i <= |ts|
    ensures ParseItems(ts, i).Parsed? ==> WfItems(ParseItems(ts, i).value)
    decreases |ts| - i, 1
  {
    if i < |ts| && ts[i].Comment? {
      ItemsWf(ts, i + 1);
    } else if i < |ts| && StartsElement(ts[i]) {
      ElementWf(ts, i);
      if ParseElement(ts, i).Parsed? {
        var e, j := ParseElement(ts, i).value, ParseElement(ts, i).next;
        ItemsWf(ts, j);
        if ParseItems(ts, j).Parsed? {
          var es := ParseItems(ts, j).value;
          assert ([e] + es)[0] == e && ([e] + es)[1..] == es;
        }
      }
    }
  }

  lemma {:induction false} AlternativeWf(ts: seq<Token>, i: nat)
    requires i <= |ts|
    ensures ParseAlternative(ts, i).Parsed? ==> WfAlternative(ParseAlternative(ts, i).value)
    decreases |ts| - i, 2
  {
    ElementWf(ts, i);
    if ParseElement(ts, i).Parsed? {
      var e, j := ParseElement(ts, i).value, ParseElement(ts, i).next;
      ItemsWf(ts, j);
      if ParseItems(ts, j).Parsed? {
        var es := ParseItems(ts, j).value;
        assert ([e] + es)[0] == e && ([e] + es)[1..] == es;
      }
    }
  }

  lemma {:induction false} AlternativesWf(ts: seq<Token>, i: nat)
    requires i <= |ts|
    ensures ParseAlternatives(ts, i).Parsed? ==> ParseAlternatives(ts, i).value != [] && WfBody(ParseAlternatives(ts, i).value)
    decreases |ts| - i, 3
  {
    AlternativeWf(ts, i);
    if ParseAlternative(ts, i).Parsed? {
      var a, j := ParseAlternative(ts, i).value, ParseAlternative(ts, i).next;
      MoreWf(ts, j);
      if ParseMoreAlternatives(ts, j).Parsed? {
        var more := ParseMoreAlternatives(ts, j).value;
        assert ([a] + more)[0] == a && ([a] + more)[1..] == more;
      }
    }
  }

  lemma {:induction false} MoreWf(ts: seq<Token>, j: nat)
    requires j <= |ts|
    ensures ParseMoreAlternatives(ts, j).Parsed? ==> WfBody(ParseMoreAlternatives(ts, j).value)
    decreases |ts| - j, 4
  {
    var k := SkipBlank(ts, j);
    if k < |ts| && ts[k].Bar? {
      AlternativeWf(ts, k + 1);
      if ParseAlternative(ts, k + 1).Parsed? {
        var a, l := ParseAlternative(ts, k + 1).value, ParseAlternative(ts, k + 1).next;
        MoreWf(ts, l);
        if ParseMoreAlternatives(ts, l).Parsed? {
          var more := ParseMoreAlternatives(ts, l).value;
          assert ([a] + more)[0] == a && ([a] + more)[1..] == more;
        }
      }
    }
  }

  lemma {:induction false} RulesWf(ts: seq<Token>, i: nat)
    requires i <= |ts|
    ensures ParseRules(ts, i).Some? ==> WfRules(ParseRules(ts, i).value)
    decreases |ts| - i
  {
    if i + 1 < |ts| && ts[i].Nonterminal? && ts[i + 1].Defines? {
      AlternativesWf(ts, i + 2);
    }
    if ParseRule(ts, i).Parsed? {
      var r, j := ParseRule(ts, i).value, ParseRule(ts, i).next;
      var k := SkipBlank(ts, j);
      if k < |ts| && j < k {
        RulesWf(ts, k);
        if ParseRules(ts, k).Some? {
          var rs := ParseRules(ts, k).value;
          assert ([r] + rs)[0] == r && ([r] + rs)[1..] == rs;
        }
      }
    }
  }

  /** The rule sequences the converting parser can produce are exactly the
      well-formed ones: every result is well formed, and every well-formed
      sequence is the result for its printed text. */
  lemma {:induction false} ParseImage(rules: seq<Rule>)
    ensures (exists ts :: Parse(ts) == Some(rules)) <==> WfRules(rules)
  {
    if exists ts :: Parse(ts) == Some(rules) {
      var ts :| Parse(ts) == Some(rules);
      if SkipBlank(ts, 0) < |ts| {
        RulesWf(ts, SkipBlank(ts, 0));
      }
    }
    if WfRules(rules) {
      ParsePrinted(rules);
    }
  }
}
