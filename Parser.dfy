/**
 * The converting parser (`BnfToBison`): the same grammar as the syntax-only
 * parser, but each construct yields its rule structure.  Comments are
 * recognised and dropped.
 */
module BnfToBisonParser {

  import opened Wrappers
  import opened Tokens
  import opened Syntax
  import BnfParser

  /** A construct and the position after it, or a syntax error. */
  datatype Parsed<+T> = Parsed(value: T, next: nat) | NoParse

  function SymbolOf(t: Token): Symbol
    requires IsSymbol(t)
  {
    match t
    case Nonterminal(n) => Symbol.Nonterminal(n)
    case Terminal(w) => Symbol.Terminal(w)
    case Quoted(q) => Symbol.Terminal(q)
  }

  /** `e` followed, at `j`, by an optional `...`. */
  function WithSuffix(ts: seq<Token>, e: Element, j: nat): (r: Parsed<Element>)
    requires j <= |ts|
    ensures r.Parsed? && j <= r.next <= |ts|
  {
    if j < |ts| && ts[j].Ellipsis? then Parsed(Repeat(e), j + 1) else Parsed(e, j)
  }

  /** A bracketed body `r` closed by `close`: an optional group when `opt`, else a mandatory one. */
  function ClosedGroup(ts: seq<Token>, r: Parsed<seq<Alternative>>, close: Token, opt: bool): (s: Parsed<Element>)
    requires r.Parsed? ==> r.next <= |ts|
    ensures s.Parsed? ==> r.Parsed? && r.next < s.next <= |ts|
  {
    match r
    case NoParse => NoParse
    case Parsed(body, j) =>
      if j < |ts| && ts[j] == close then WithSuffix(ts, if opt then Opt(body) else Group(body), j + 1)
      else NoParse
  }

  function ParseElement(ts: seq<Token>, i: nat): (r: Parsed<Element>)
    requires i <= |ts|
    ensures r.Parsed? ==> i < r.next <= |ts|
    decreases |ts| - i, 0
  {
    if i == |ts| then NoParse
    else if IsSymbol(ts[i]) then WithSuffix(ts, Sym(SymbolOf(ts[i])), i + 1)
    else if ts[i].LBrack? then ClosedGroup(ts, ParseAlternatives(ts, i + 1), RBrack, true)
    else if ts[i].LBrace? then ClosedGroup(ts, ParseAlternatives(ts, i + 1), RBrace, false)
    else NoParse
  }

  /** The elements of a run of elements and comments, comments dropped. */
  function ParseItems(ts: seq<Token>, i: nat): (r: Parsed<seq<Element>>)
    requires i <= |ts|
    ensures r.Parsed? ==> i <= r.next <= |ts|
    decreases |ts| - i, 1
  {
    if i < |ts| && ts[i].Comment? then ParseItems(ts, i + 1)
    else if i < |ts| && StartsElement(ts[i]) then
      match ParseElement(ts, i)
      case NoParse => NoParse
      case Parsed(e, j) =>
        match ParseItems(ts, j)
        case NoParse => NoParse
        case Parsed(es, k) => Parsed([e] + es, k)
    else Parsed([], i)
  }

  function ParseAlternative(ts: seq<Token>, i: nat): (r: Parsed<Alternative>)
    requires i <= |ts|
    ensures r.Parsed? ==> i < r.next <= |ts|
    decreases |ts| - i, 2
  {
    match ParseElement(ts, i)
    case NoParse => NoParse
    case Parsed(e, j) =>
      match ParseItems(ts, j)
      case NoParse => NoParse
      case Parsed(es, k) => Parsed(Alternative([e] + es), k)
  }

  function ParseAlternatives(ts: seq<Token>, i: nat): (r: Parsed<seq<Alternative>>)
    requires i <= |ts|
    ensures r.Parsed? ==> i < r.next <= |ts|
    decreases |ts| - i, 3
  {
    match ParseAlternative(ts, i)
    case NoParse => NoParse
    case Parsed(a, j) =>
      match ParseMoreAlternatives(ts, j)
      case NoParse => NoParse
      case Parsed(more, k) => Parsed([a] + more, k)
  }

  function ParseMoreAlternatives(ts: seq<Token>, j: nat): (r: Parsed<seq<Alternative>>)
    requires j <= |ts|
    ensures r.Parsed? ==> j <= r.next <= |ts|
    decreases |ts| - j, 4
  {
    var k := SkipBlank(ts, j);
    if k < |ts| && ts[k].Bar? then
      match ParseAlternative(ts, k + 1)
      case NoParse => NoParse
      case Parsed(a, l) =>
        match ParseMoreAlternatives(ts, l)
        case NoParse => NoParse
        case Parsed(more, m) => Parsed([a] + more, m)
    else Parsed([], j)
  }

  function ParseRuleBody(ts: seq<Token>, i: nat): (r: Parsed<seq<Alternative>>)
    requires i <= |ts|
    ensures r.Parsed? ==> i <= r.next <= |ts|
  {
    if i < |ts| && StartsElement(ts[i]) then ParseAlternatives(ts, i)
    else Parsed([], SkipComments(ts, i))
  }

  function ParseRule(ts: seq<Token>, i: nat): (r: Parsed<Rule>)
    requires i <= |ts|
    ensures r.Parsed? ==> i + 2 <= r.next <= |ts|
  {
    if i + 1 < |ts| && ts[i].Nonterminal? && ts[i + 1].Defines? then
      match ParseRuleBody(ts, i + 2)
      case NoParse => NoParse
      case Parsed(body, j) => Parsed(Rule(ts[i].name, body), j)
    else NoParse
  }

  function ParseRules(ts: seq<Token>, i: nat): Option<seq<Rule>>
    requires i <= |ts|
    decreases |ts| - i
  {
    match ParseRule(ts, i)
    case NoParse => None
    case Parsed(r, j) =>
      var k := SkipBlank(ts, j);
      if k == |ts| then Some([r])
      else if j < k then
        match ParseRules(ts, k)
        case None => None
        case Some(rs) => Some([r] + rs)
      else None
  }

  /** The rule blocks of a grammar text, in source order. */
  function Parse(ts: seq<Token>): Option<seq<Rule>> {
    var k := SkipBlank(ts, 0);
    if k == |ts| then Some([]) else ParseRules(ts, k)
  }

  // ---------------------------------------------------------------------------
  // Both parsers accept the same texts
  // ---------------------------------------------------------------------------

  /** A parse and a recognition end in the same place, or both fail. */
  predicate Agree<T>(p: Parsed<T>, r: Option<nat>) {
    (p.Parsed? <==> r.Some?) && (p.Parsed? ==> p.next == r.value)
  }

  lemma {:induction false} ElementAgrees(ts: seq<Token>, i: nat)
    requires i <= |ts|
    ensures Agree(ParseElement(ts, i), BnfParser.Element(ts, i))
    decreases |ts| - i, 0
  {
    if i < |ts| && (ts[i].LBrack? || ts[i].LBrace?) {
      AlternativesAgree(ts, i + 1);
    }
  }

  lemma {:induction false} ItemsAgree(ts: seq<Token>, i: nat)
    requires i <= |ts|
    ensures Agree(ParseItems(ts, i), BnfParser.Items(ts, i))
    decreases |ts| - i, 1
  {
    if i < |ts| && ts[i].Comment? {
      ItemsAgree(ts, i + 1);
    } else if i < |ts| && StartsElement(ts[i]) {
      ElementAgrees(ts, i);
      if ParseElement(ts, i).Parsed? {
        ItemsAgree(ts, ParseElement(ts, i).next);
      }
    }
  }

  lemma {:induction false} AlternativeAgrees(ts: seq<Token>, i: nat)
    requires i <= |ts|
    ensures Agree(ParseAlternative(ts, i), BnfParser.Alternative(ts, i))
    decreases |ts| - i, 2
  {
    ElementAgrees(ts, i);
    if ParseElement(ts, i).Parsed? {
      ItemsAgree(ts, ParseElement(ts, i).next);
    }
  }

  lemma {:induction false} AlternativesAgree(ts: seq<Token>, i: nat)
    requires i <= |ts|
    ensures Agree(ParseAlternatives(ts, i), BnfParser.Alternatives(ts, i))
    decreases |ts| - i, 3
  {
    AlternativeAgrees(ts, i);
    if ParseAlternative(ts, i).Parsed? {
      MoreAlternativesAgree(ts, ParseAlternative(ts, i).next);
    }
  }

  lemma {:induction false} MoreAlternativesAgree(ts: seq<Token>, j: nat)
    requires j <= |ts|
    ensures Agree(ParseMoreAlternatives(ts, j), BnfParser.MoreAlternatives(ts, j))
    decreases |ts| - j, 4
  {
    var k := SkipBlank(ts, j);
    if k < |ts| && ts[k].Bar? {
      AlternativeAgrees(ts, k + 1);
      if ParseAlternative(ts, k + 1).Parsed? {
        MoreAlternativesAgree(ts, ParseAlternative(ts, k + 1).next);
      }
    }
  }

  lemma {:induction false} RulesAgree(ts: seq<Token>, i: nat)
    requires i <= |ts|
    ensures ParseRules(ts, i).Some? <==> BnfParser.Rules(ts, i)
    decreases |ts| - i
  {
    if i + 1 < |ts| && ts[i].Nonterminal? && ts[i + 1].Defines? && i + 2 < |ts| && StartsElement(ts[i + 2]) {
      AlternativesAgree(ts, i + 2);
    }
    match ParseRule(ts, i)
    case NoParse =>
    case Parsed(r, j) =>
      var k := SkipBlank(ts, j);
      if k < |ts| && j < k {
        RulesAgree(ts, k);
      }
  }

  /** The converting parser succeeds exactly on the texts the syntax-only
      parser accepts. */
  lemma {:induction false} ParseSucceedsIffAccepted(ts: seq<Token>)
    ensures Parse(ts).Some? <==> BnfParser.Accepts(ts)
  {
    var k := SkipBlank(ts, 0);
    if k < |ts| {
      RulesAgree(ts, k);
    }
  }
}
