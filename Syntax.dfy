/**
 * The rule structure the converting parser (`BnfToBison`) reduces: what one
 * rule block of the grammar text says, before expansion.
 */
module Syntax {

  /** A grammar symbol: a nonterminal by its source spelling, or a terminal
      (bare word or quoted literal) by its exact spelling. */
  datatype Symbol = Nonterminal(name: string) | Terminal(spelling: string)

  datatype Element =
    | Sym(symbol: Symbol)
    | Opt(body: seq<Alternative>)       // `[ a | b ]`
    | Group(body: seq<Alternative>)     // `{ a | b }`
    | Repeat(unit: Element)             // `e...`

  /** One `|`-separated choice: its elements in source order. */
  datatype Alternative = Alternative(elements: seq<Element>)

  /** One block `<lhs> ::= body`; an empty body is a rule with no alternatives. */
  datatype Rule = Rule(lhs: string, body: seq<Alternative>)
}
