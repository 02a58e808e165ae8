/**
 * The tokens the upstream flex scanner hands to both parsers.
 * Character-level scanning is not modelled: a grammar text is given as its
 * token sequence.  A run of empty lines is one BlockEnd token; a line holding
 * only blanks is whitespace and produces nothing.
 */
module Tokens {

  datatype Token =
    | Nonterminal(name: string)   // `<name>`; the spelling between the angle brackets
    | Terminal(word: string)      // a bare word such as `CREATE`
    | Quoted(literal: string)     // a quoted literal, quotes and escapes included
    | Defines                     // `::=`
    | Bar                         // `|`
    | LBrack | RBrack             // `[` `]`
    | LBrace | RBrace             // `{` `}`
    | Ellipsis                    // `...`
    | Comment(text: string)       // `!!` up to the end of the line
    | BlockEnd                    // one or more empty lines

  /** Tokens that stand for a grammar symbol on a right-hand side. */
  predicate IsSymbol(t: Token) {
    t.Nonterminal? || t.Terminal? || t.Quoted?
  }

  /** Tokens that can begin an element of an alternative. */
  predicate StartsElement(t: Token) {
    IsSymbol(t) || t.LBrack? || t.LBrace?
  }

  /** The first position at or after `i` that is not an empty-line token. */
  function SkipBlank(ts: seq<Token>, i: nat): (j: nat)
    requires i <= |ts|
    ensures i <= j <= |ts|
    ensures j == |ts| || !ts[j].BlockEnd?
    decreases |ts| - i
  {
    if i < |ts| && ts[i].BlockEnd? then SkipBlank(ts, i + 1) else i
  }

  /** The first position at or after `i` that is not a comment token. */
  function SkipComments(ts: seq<Token>, i: nat): (j: nat)
    requires i <= |ts|
    ensures i <= j <= |ts|
    ensures j == |ts| || !ts[j].Comment?
    decreases |ts| - i
  {
    if i < |ts| && ts[i].Comment? then SkipComments(ts, i + 1) else i
  }

  /** Everything SkipBlank passes over is an empty-line token. */
  lemma {:induction false} SkipBlankSkipsBlank(ts: seq<Token>, i: nat)
    requires i <= |ts|
    ensures forall k | i <= k < SkipBlank(ts, i) :: ts[k].BlockEnd?
    decreases |ts| - i
  {
    if i < |ts| && ts[i].BlockEnd? {
      SkipBlankSkipsBlank(ts, i + 1);
    }
  }

  /** Everything SkipComments passes over is a comment token. */
  lemma {:induction false} SkipCommentsSkipsComments(ts: seq<Token>, i: nat)
    requires i <= |ts|
    ensures forall k | i <= k < SkipComments(ts, i) :: ts[k].Comment?
    decreases |ts| - i
  {
    if i < |ts| && ts[i].Comment? {
      SkipCommentsSkipsComments(ts, i + 1);
    }
  }
}
