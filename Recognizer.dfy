/**
 * The syntax-only parser (`BnfParser` of the no-actions build): it decides
 * whether a token sequence is a well-formed grammar text and builds nothing.
 * Each function recognises one construct starting at position `i` and
 * returns the position just after it, or None on a syntax error.
 *
 *   grammar      ::= BlockEnd* [ rule { BlockEnd+ rule } ] BlockEnd*
 *   rule         ::= NONTERMINAL DEFINES rule-body
 *   rule-body    ::= COMMENT* | alternatives
 *   alternatives ::= alternative { BlockEnd* BAR alternative }
 *   alternative  ::= element { element | COMMENT }
 *   element      ::= ( symbol | '[' alternatives ']' | '{' alternatives '}' ) [ ELLIPSIS ]
 */
module BnfParser {

  import opened Wrappers
  import opened Tokens

  /** Position after an optional `...` suffix at `j`. */
  function Suffix(ts: seq<Token>, j: nat): (k: nat)
    requires j <= |ts|
    ensures j <= k <= |ts|
    ensures k == j + 1 <==> j < |ts| && ts[j].Ellipsis?
  {
    if j < |ts| && ts[j].Ellipsis? then j + 1 else j
  }

  /** A bracketed group: `r` is the end of its contents, `close` the expected closer. */
  function Closed(ts: seq<Token>, r: Option<nat>, close: Token): (s: Option<nat>)
    requires r.Some? ==> r.value <= |ts|
    ensures s.Some? ==> r.Some? && r.value < s.value <= |ts|
    ensures s.Some? <==> r.Some? && r.value < |ts| && ts[r.value] == close
  {
    match r
    case None => None
    case Some(j) => if j < |ts| && ts[j] == close then Some(Suffix(ts, j + 1)) else None
  }

  function Element(ts: seq<Token>, i: nat): (r: Option<nat>)
    requires i <= |ts|
    ensures r.Some? ==> i < r.value <= |ts| && StartsElement(ts[i])
    decreases |ts| - i, 0
  {
    if i == |ts| then None
    else if IsSymbol(ts[i]) then Some(Suffix(ts, i + 1))
    else if ts[i].LBrack? then Closed(ts, Alternatives(ts, i + 1), RBrack)
    else if ts[i].LBrace? then Closed(ts, Alternatives(ts, i + 1), RBrace)
    else None
  }

  /** Zero or more elements and comments, as many as follow. */
  function Items(ts: seq<Token>, i: nat): (r: Option<nat>)
    requires i <= |ts|
    ensures r.Some? ==> i <= r.value <= |ts|
    ensures r.Some? ==> r.value == |ts| || !(StartsElement(ts[r.value]) || ts[r.value].Comment?)
    decreases |ts| - i, 1
  {
    if i < |ts| && ts[i].Comment? then Items(ts, i + 1)
    else if i < |ts| && StartsElement(ts[i]) then
      match Element(ts, i)
      case None => None
      case Some(j) => Items(ts, j)
    else Some(i)
  }

  function Alternative(ts: seq<Token>, i: nat): (r: Option<nat>)
    requires i <= |ts|
    ensures r.Some? ==> i < r.value <= |ts| && StartsElement(ts[i])
    decreases |ts| - i, 2
  {
    match Element(ts, i)
    case None => None
    case Some(j) => Items(ts, j)
  }

  function Alternatives(ts: seq<Token>, i: nat): (r: Option<nat>)
    requires i <= |ts|
    ensures r.Some? ==> i < r.value <= |ts| && StartsElement(ts[i])
    decreases |ts| - i, 3
  {
    match Alternative(ts, i)
    case None => None
    case Some(j) => MoreAlternatives(ts, j)
  }

  /** `{ BlockEnd* BAR alternative }`: empty lines are allowed before each bar. */
  function MoreAlternatives(ts: seq<Token>, j: nat): (r: Option<nat>)
    requires j <= |ts|
    ensures r.Some? ==> j <= r.value <= |ts|
    decreases |ts| - j, 4
  {
    var k := SkipBlank(ts, j);
    if k < |ts| && ts[k].Bar? then
      match Alternative(ts, k + 1)
      case None => None
      case Some(l) => MoreAlternatives(ts, l)
    else Some(j)
  }

  /** A rule body is empty (at most comments) or starts with an element. */
  function RuleBody(ts: seq<Token>, i: nat): (r: Option<nat>)
    requires i <= |ts|
    ensures r.Some? ==> i <= r.value <= |ts|
  {
    if i < |ts| && StartsElement(ts[i]) then Alternatives(ts, i)
    else Some(SkipComments(ts, i))
  }

  function Rule(ts: seq<Token>, i: nat): (r: Option<nat>)
    requires i <= |ts|
    ensures r.Some? ==> i + 2 <= r.value <= |ts| && ts[i].Nonterminal? && ts[i + 1].Defines?
  {
    if i + 1 < |ts| && ts[i].Nonterminal? && ts[i + 1].Defines? then RuleBody(ts, i + 2)
    else None
  }

  /** One or more rules, consecutive rules separated by at least one BlockEnd. */
  predicate Rules(ts: seq<Token>, i: nat)
    requires i <= |ts|
    decreases |ts| - i
  {
    match Rule(ts, i)
    case None => false
    case Some(j) =>
      var k := SkipBlank(ts, j);
      k == |ts| || (j < k && Rules(ts, k))
  }

  /** `parser()` of the syntax-only build returns 0 exactly for these inputs. */
  predicate Accepts(ts: seq<Token>) {
    var k := SkipBlank(ts, 0);
    k == |ts| || Rules(ts, k)
  }

  /** A first rule without `::=` after its name is a syntax error; `:=` is
      not a token of its own, so `<a> := b` ends up here. */
  lemma {:induction false} MissingDefinesRejected(ts: seq<Token>)
    requires SkipBlank(ts, 0) < |ts|
    requires SkipBlank(ts, 0) + 1 == |ts| || !ts[SkipBlank(ts, 0) + 1].Defines?
    ensures !Accepts(ts)
  {
  }

  /** A rule body that opens with `|` is a syntax error, wherever the rule stands. */
  lemma {:induction false} LeadingBarRejected(ts: seq<Token>, i: nat)
    requires i + 2 < |ts| && ts[i].Nonterminal? && ts[i + 1].Defines? && ts[i + 2].Bar?
    ensures !Rules(ts, i)
    ensures i == SkipBlank(ts, 0) ==> !Accepts(ts)
  {
  }

  /** In accepted rules, a block that is not the last is followed by at
      least one empty line and by nothing but empty lines up to the next block. */
  lemma {:induction false} BlocksSeparated(ts: seq<Token>, i: nat)
    requires i <= |ts| && Rules(ts, i)
    ensures Rule(ts, i).Some?
    ensures var j := Rule(ts, i).value;
      j < |ts| ==> j < SkipBlank(ts, j) && forall k | j <= k < SkipBlank(ts, j) :: ts[k].BlockEnd?
  {
    SkipBlankSkipsBlank(ts, Rule(ts, i).value);
  }

  /** A body that does not start with an element holds comments only: the
      rule ends after the run of comments, and that run is all it covers. */
  lemma {:induction false} CommentOnlyBody(ts: seq<Token>, i: nat)
    requires i + 1 < |ts| && ts[i].Nonterminal? && ts[i + 1].Defines?
    requires i + 2 == |ts| || !StartsElement(ts[i + 2])
    ensures Rule(ts, i) == Some(SkipComments(ts, i + 2))
    ensures forall k | i + 2 <= k < SkipComments(ts, i + 2) :: ts[k].Comment?
  {
    SkipCommentsSkipsComments(ts, i + 2);
  }

  /** A result position moved `n` places to the right. */
  function Shift(r: Option<nat>, n: nat): (s: Option<nat>)
    ensures s.Some? <==> r.Some?
    ensures s.Some? ==> s.value == r.value + n
  {
    match r
    case None => None
    case Some(j) => Some(j + n)
  }

  // The parser only looks forward: what precedes a position does not change
  // how the text from that position on is read.

  lemma {:induction false} SkipBlankShift(p: seq<Token>, ts: seq<Token>, i: nat)
    requires i <= |ts|
    ensures SkipBlank(p + ts, |p| + i) == |p| + SkipBlank(ts, i)
    decreases |ts| - i
  {
    if i < |ts| {
      assert (p + ts)[|p| + i] == ts[i];
      if ts[i].BlockEnd? {
        SkipBlankShift(p, ts, i + 1);
      }
    }
  }

  lemma {:induction false} SkipCommentsShift(p: seq<Token>, ts: seq<Token>, i: nat)
    requires i <= |ts|
    ensures SkipComments(p + ts, |p| + i) == |p| + SkipComments(ts, i)
    decreases |ts| - i
  {
    if i < |ts| {
      assert (p + ts)[|p| + i] == ts[i];
      if ts[i].Comment? {
        SkipCommentsShift(p, ts, i + 1);
      }
    }
  }

  lemma {:induction false} ClosedShift(p: seq<Token>, ts: seq<Token>, r: Option<nat>, close: Token)
    requires r.Some? ==> r.value <= |ts|
    ensures Closed(p + ts, Shift(r, |p|), close) == Shift(Closed(ts, r, close), |p|)
  {
    if r.Some? && r.value < |ts| {
      assert (p + ts)[|p| + r.value] == ts[r.value];
      if r.value + 1 < |ts| {
        assert (p + ts)[|p| + r.value + 1] == ts[r.value + 1];
      }
    }
  }

  lemma {:induction false} ElementShift(p: seq<Token>, ts: seq<Token>, i: nat)
    requires i <= |ts|
    ensures Element(p + ts, |p| + i) == Shift(Element(ts, i), |p|)
    decreases |ts| - i, 0
  {
    if i < |ts| {
      assert (p + ts)[|p| + i] == ts[i];
      if i + 1 < |ts| {
        assert (p + ts)[|p| + i + 1] == ts[i + 1];
      }
      if ts[i].LBrack? || ts[i].LBrace? {
        AlternativesShift(p, ts, i + 1);
        ClosedShift(p, ts, Alternatives(ts, i + 1), if ts[i].LBrack? then RBrack else RBrace);
      }
    }
  }

  lemma {:induction false} ItemsShift(p: seq<Token>, ts: seq<Token>, i: nat)
    requires i <= |ts|
    ensures Items(p + ts, |p| + i) == Shift(Items(ts, i), |p|)
    decreases |ts| - i, 1
  {
    if i < |ts| {
      assert (p + ts)[|p| + i] == ts[i];
      if ts[i].Comment? {
        ItemsShift(p, ts, i + 1);
      } else if StartsElement(ts[i]) {
        ElementShift(p, ts, i);
        if Element(ts, i).Some? {
          ItemsShift(p, ts, Element(ts, i).value);
        }
      }
    }
  }

  lemma {:induction false} AlternativeShift(p: seq<Token>, ts: seq<Token>, i: nat)
    requires i <= |ts|
    ensures Alternative(p + ts, |p| + i) == Shift(Alternative(ts, i), |p|)
    decreases |ts| - i, 2
  {
    ElementShift(p, ts, i);
    if Element(ts, i).Some? {
      ItemsShift(p, ts, Element(ts, i).value);
    }
  }

  lemma {:induction false} AlternativesShift(p: seq<Token>, ts: seq<Token>, i: nat)
    requires i <= |ts|
    ensures Alternatives(p + ts, |p| + i) == Shift(Alternatives(ts, i), |p|)
    decreases |ts| - i, 3
  {
    AlternativeShift(p, ts, i);
    if Alternative(ts, i).Some? {
      MoreAlternativesShift(p, ts, Alternative(ts, i).value);
    }
  }

  lemma {:induction false} MoreAlternativesShift(p: seq<Token>, ts: seq<Token>, j: nat)
    requires j <= |ts|
    ensures MoreAlternatives(p + ts, |p| + j) == Shift(MoreAlternatives(ts, j), |p|)
    decreases |ts| - j, 5
  {
    SkipBlankShift(p, ts, j);
    var k := SkipBlank(ts, j);
    if k < |ts| {
      assert (p + ts)[|p| + k] == ts[k];
    }
    if k < |ts| && ts[k].Bar? {
      BarShift(p, ts, j);
    } else {
      LastAlternative(ts, j);
      LastAlternative(p + ts, |p| + j);
    }
  }

  /** MoreAlternativesShift where a bar follows the empty lines after `j`. */
  lemma {:induction false} BarShift(p: seq<Token>, ts: seq<Token>, j: nat)
    requires j <= |ts|
    requires SkipBlank(ts, j) < |ts| && ts[SkipBlank(ts, j)].Bar?
    ensures MoreAlternatives(p + ts, |p| + j) == Shift(MoreAlternatives(ts, j), |p|)
    decreases |ts| - j, 4
  {
    SkipBlankShift(p, ts, j);
    var q, k := p + ts, SkipBlank(ts, j);
    assert q[|p| + k] == ts[k];
    AlternativeShift(p, ts, k + 1);
    match Alternative(ts, k + 1)
    case None =>
    case Some(l) =>
      MoreAlternativesShift(p, ts, l);
  }

  /** Without a bar after the empty lines the alternatives end at `j`. */
  lemma {:induction false} LastAlternative(ts: seq<Token>, j: nat)
    requires j <= |ts|
    requires !(SkipBlank(ts, j) < |ts| && ts[SkipBlank(ts, j)].Bar?)
    ensures MoreAlternatives(ts, j) == Some(j)
  {
  }

  lemma {:induction false} RuleShift(p: seq<Token>, ts: seq<Token>, i: nat)
    requires i <= |ts|
    ensures Rule(p + ts, |p| + i) == Shift(Rule(ts, i), |p|)
  {
    if i + 1 < |ts| {
      assert (p + ts)[|p| + i] == ts[i];
      assert (p + ts)[|p| + i + 1] == ts[i + 1];
      if ts[i].Nonterminal? && ts[i + 1].Defines? {
        var b := i + 2;
        if b < |ts| {
          assert (p + ts)[|p| + b] == ts[b];
        }
        if b < |ts| && StartsElement(ts[b]) {
          AlternativesShift(p, ts, b);
        } else {
          SkipCommentsShift(p, ts, b);
        }
      }
    }
  }

  lemma {:induction false} RulesShift(p: seq<Token>, ts: seq<Token>, i: nat)
    requires i <= |ts|
    ensures Rules(p + ts, |p| + i) <==> Rules(ts, i)
    decreases |ts| - i
  {
    RuleShift(p, ts, i);
    if Rule(ts, i).Some? {
      var j := Rule(ts, i).value;
      SkipBlankShift(p, ts, j);
      var k := SkipBlank(ts, j);
      if k < |ts| && j < k {
        RulesShift(p, ts, k);
      }
    }
  }

  /** Empty lines before the first rule do not change the verdict. */
  lemma {:induction false} LeadingBlankLines(ts: seq<Token>)
    ensures Accepts([BlockEnd] + ts) <==> Accepts(ts)
  {
    var p := [BlockEnd];
    SkipBlankShift(p, ts, 0);
    assert SkipBlank(p + ts, 0) == SkipBlank(p + ts, 1);
    var k := SkipBlank(ts, 0);
    if k < |ts| {
      RulesShift(p, ts, k);
    }
  }

  // One more run of empty lines at the end changes nothing before it either.

  lemma {:induction false} SkipBlankExtend(ts: seq<Token>, i: nat)
    requires i <= |ts|
    ensures SkipBlank(ts + [BlockEnd], i) == if SkipBlank(ts, i) < |ts| then SkipBlank(ts, i) else |ts| + 1
    decreases |ts| - i
  {
    var e := ts + [BlockEnd];
    assert e[i] == if i < |ts| then ts[i] else BlockEnd;
    if i < |ts| && ts[i].BlockEnd? {
      SkipBlankExtend(ts, i + 1);
    }
  }

  lemma {:induction false} SkipCommentsExtend(ts: seq<Token>, i: nat)
    requires i <= |ts|
    ensures SkipComments(ts + [BlockEnd], i) == SkipComments(ts, i)
    decreases |ts| - i
  {
    var e := ts + [BlockEnd];
    assert e[i] == if i < |ts| then ts[i] else BlockEnd;
    if i < |ts| && ts[i].Comment? {
      SkipCommentsExtend(ts, i + 1);
    }
  }

  lemma {:induction false} ClosedExtend(ts: seq<Token>, r: Option<nat>, close: Token)
    requires r.Some? ==> r.value <= |ts|
    requires close != BlockEnd
    ensures Closed(ts + [BlockEnd], r, close) == Closed(ts, r, close)
  {
    var e := ts + [BlockEnd];
    if r.Some? {
      assert e[r.value] == if r.value < |ts| then ts[r.value] else BlockEnd;
      if r.value < |ts| {
        assert e[r.value + 1] == if r.value + 1 < |ts| then ts[r.value + 1] else BlockEnd;
      }
    }
  }

  lemma {:induction false} ElementExtend(ts: seq<Token>, i: nat)
    requires i <= |ts|
    ensures Element(ts + [BlockEnd], i) == Element(ts, i)
    decreases |ts| - i, 0
  {
    var e := ts + [BlockEnd];
    assert e[i] == if i < |ts| then ts[i] else BlockEnd;
    if i < |ts| {
      assert e[i + 1] == if i + 1 < |ts| then ts[i + 1] else BlockEnd;
      if ts[i].LBrack? || ts[i].LBrace? {
        AlternativesExtend(ts, i + 1);
        ClosedExtend(ts, Alternatives(ts, i + 1), if ts[i].LBrack? then RBrack else RBrace);
      }
    }
  }

  lemma {:induction false} ItemsExtend(ts: seq<Token>, i: nat)
    requires i <= |ts|
    ensures Items(ts + [BlockEnd], i) == Items(ts, i)
    decreases |ts| - i, 1
  {
    var e := ts + [BlockEnd];
    assert e[i] == if i < |ts| then ts[i] else BlockEnd;
    if i < |ts| && ts[i].Comment? {
      ItemsExtend(ts, i + 1);
    } else if i < |ts| && StartsElement(ts[i]) {
      ElementExtend(ts, i);
      if Element(ts, i).Some? {
        ItemsExtend(ts, Element(ts, i).value);
      }
    }
  }

  lemma {:induction false} AlternativeExtend(ts: seq<Token>, i: nat)
    requires i <= |ts|
    ensures Alternative(ts + [BlockEnd], i) == Alternative(ts, i)
    decreases |ts| - i, 2
  {
    ElementExtend(ts, i);
    if Element(ts, i).Some? {
      ItemsExtend(ts, Element(ts, i).value);
    }
  }

  lemma {:induction false} AlternativesExtend(ts: seq<Token>, i: nat)
    requires i <= |ts|
    ensures Alternatives(ts + [BlockEnd], i) == Alternatives(ts, i)
    decreases |ts| - i, 3
  {
    AlternativeExtend(ts, i);
    if Alternative(ts, i).Some? {
      MoreAlternativesExtend(ts, Alternative(ts, i).value);
    }
  }

  lemma {:induction false} MoreAlternativesExtend(ts: seq<Token>, j: nat)
    requires j <= |ts|
    ensures MoreAlternatives(ts + [BlockEnd], j) == MoreAlternatives(ts, j)
    decreases |ts| - j, 5
  {
    SkipBlankExtend(ts, j);
    var k := SkipBlank(ts, j);
    if k < |ts| {
      assert (ts + [BlockEnd])[k] == ts[k];
    }
    if k < |ts| && ts[k].Bar? {
      BarExtend(ts, j);
    } else {
      LastAlternative(ts, j);
      LastAlternative(ts + [BlockEnd], j);
    }
  }

  /** MoreAlternativesExtend where a bar follows the empty lines after `j`. */
  lemma {:induction false} BarExtend(ts: seq<Token>, j: nat)
    requires j <= |ts|
    requires SkipBlank(ts, j) < |ts| && ts[SkipBlank(ts, j)].Bar?
    ensures MoreAlternatives(ts + [BlockEnd], j) == MoreAlternatives(ts, j)
    decreases |ts| - j, 4
  {
    SkipBlankExtend(ts, j);
    var k := SkipBlank(ts, j);
    assert (ts + [BlockEnd])[k] == ts[k];
    AlternativeExtend(ts, k + 1);
    match Alternative(ts, k + 1)
    case None =>
    case Some(l) =>
      MoreAlternativesExtend(ts, l);
  }

  lemma {:induction false} RuleExtend(ts: seq<Token>, i: nat)
    requires i <= |ts|
    ensures Rule(ts + [BlockEnd], i) == Rule(ts, i)
  {
    var e := ts + [BlockEnd];
    assert e[i] == if i < |ts| then ts[i] else BlockEnd;
    if i + 1 <= |ts| {
      assert e[i + 1] == if i + 1 < |ts| then ts[i + 1] else BlockEnd;
    }
    if i + 1 < |ts| && ts[i].Nonterminal? && ts[i + 1].Defines? {
      var b := i + 2;
      assert e[b] == if b < |ts| then ts[b] else BlockEnd;
      if b < |ts| && StartsElement(ts[b]) {
        AlternativesExtend(ts, b);
      } else {
        SkipCommentsExtend(ts, b);
      }
    }
  }

  lemma {:induction false} RulesExtend(ts: seq<Token>, i: nat)
    requires i <= |ts|
    ensures Rules(ts + [BlockEnd], i) <==> Rules(ts, i)
    decreases |ts| - i
  {
    RuleExtend(ts, i);
    if Rule(ts, i).Some? {
      var j := Rule(ts, i).value;
      SkipBlankExtend(ts, j);
      var k := SkipBlank(ts, j);
      if k < |ts| && j < k {
        RulesExtend(ts, k);
      }
    }
  }

  /** Empty lines after the last rule do not change the verdict. */
  lemma {:induction false} TrailingBlankLines(ts: seq<Token>)
    ensures Accepts(ts + [BlockEnd]) <==> Accepts(ts)
  {
    SkipBlankExtend(ts, 0);
    var k := SkipBlank(ts, 0);
    if k < |ts| {
      RulesExtend(ts, k);
    }
  }
}
