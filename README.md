# bnfparser in Dafny

bnfparser reads grammars written in the BNF notation of the GQL standard and
turns them into a canonical grammar for bison. The canonical grammar is a map
from each nonterminal name to a set of plain symbol sequences. The notation
has these constructs:

- `<name> ::= body` rule blocks, separated by empty lines;
- `|` alternatives;
- `[ ... ]` optional groups and `{ ... }` mandatory groups;
- a `...` repetition suffix;
- `!!` comments;
- bare and quoted terminals.

The program has two parsers, and this project models both of them.

- **The syntax-only parser** (`BnfParser`, the no-actions build) only
  answers whether a text is well formed. It is modelled as a recursive
  recognizer over a token sequence (module `BnfParser`, `Recognizer.dfy`).
- **The converting parser** (`BnfToBison`) fills `BisonParam.result` while
  it reduces the text. It is modelled in three parts:
  - a recursive parser that builds the rule structure (`BnfToBisonParser`,
    `Parser.dfy`, over the datatypes of `Syntax.dfy`);
  - the expansion algebra (`Expansion.dfy`);
  - the grammar-map accumulator (`GrammarMap.dfy`).

  `BnfToBison.BisonParam` (`Converter.dfy`) is a class whose `result` map
  field is updated in place, one rule block at a time.

A printer (`BnfPrinter`, `Printer.dfy`) writes rule blocks back as tokens.
It is not part of the program; it is the inverse against which the
converting parser is checked. Reading a printed list of blocks gives the
same blocks back, for every list the notation can express: no empty group,
no empty alternative, and no repetition of a repetition. These lists are
exactly the results the converting parser can produce.

The expansion algebra gives every construct a set of productions:

- nonterminal names are normalised, so each space and `-` becomes `_`;
- terminals keep their spelling, quotes and escapes included;
- consecutive elements combine by cross product, in source order;
- alternatives combine by union;
- an optional group adds the empty production;
- a mandatory group is its alternatives.

A repeated unit `u...` stands for one reference to the synthetic
nonterminal `L = join(u, "_") + "_list"`, and `L ::= u | L u` is merged into
the map.

The behaviour is the one the repository's unit tests pin down:

- `src/bnftobison/parser/bnftobison_parser.gtest.cpp` gives the exact
  expected maps;
- `src/bnfparser.no_actions/parser/bnfparser.bison.gtest.cpp` gives the
  accept/reject verdicts.

Every test is restated as a lemma about its grammar text, written as the
token sequence the scanner produces for it:

- `ConverterExamples.dfy` covers all the converter tests;
- `RecognizerExamples.dfy` covers all the recognizer tests.

The bison grammar files and the flex scanner are not part of this model.
The recognizer follows the grammar the tests show. Where no test decides a
case, the model makes a choice. "Left out" lists the notable ones; any other
text no test covers gets whatever verdict the recognizer as modelled gives.

Token convention (the scanner is not modelled):

- a run of empty lines is one `BlockEnd` token;
- a line holding only blanks produces nothing;
- `::=` is `Defines`;
- the malformed `:=` is an ordinary terminal word;
- a quoted literal is one `Quoted` token, even when it holds `}` or `\\`.

## Model

| member | source | states |
|---|---|---|
| BnfParser.BlocksSeparated | src/bnfparser.no_actions/parser/bnfparser.bison.gtest.cpp:325-349 | in an accepted text, a block that is not the last is followed by at least one empty line, and only by empty lines up to the next block |
| BnfParser.CommentOnlyBody | src/bnfparser.no_actions/parser/bnfparser.bison.gtest.cpp:380-400 | a body that does not start with an element is a run of comments, and the rule ends right after it |
| BnfParser.LeadingBlankLines | src/bnfparser.no_actions/parser/bnfparser.bison.gtest.cpp:351-378 | empty lines before the first rule never change the verdict: accepted with them iff accepted without |
| BnfParser.TrailingBlankLines | src/bnfparser.no_actions/parser/bnfparser.bison.gtest.cpp:351-378 | empty lines after the last rule never change the verdict: accepted with them iff accepted without |
| BnfParser.RulesShift | src/bnfparser.no_actions/parser/bnfparser.bison.gtest.cpp:325-349 | the parser only looks forward: the rules from a position on are accepted whatever tokens precede them |
| BnfParser.MissingDefinesRejected | src/bnfparser.no_actions/parser/bnfparser.bison.gtest.cpp:519-535 | a first rule whose name is not followed by `::=` (as in `<a> := b`) makes `parser()` fail |
| BnfParser.LeadingBarRejected | src/bnftobison/parser/bnftobison_parser.gtest.cpp:1130-1157 | a rule body that starts with a bar is a syntax error, for the first rule and for any later one |
| BnfToBisonParser.ParseSucceedsIffAccepted | src/bnfparser.no_actions/parser/bnfparser.bison.gtest.cpp:41-535 | the converting parser yields rule blocks exactly for the texts the syntax-only parser accepts |
| BnfPrinter.ParsePrinted | src/bnftobison/parser/bnftobison_parser.gtest.cpp:42-1287 | the converting parser reads back every well-formed list of rule blocks from its printed token form: `Parse(PrintRules(rules)) == Some(rules)`, so it keeps each block's name, its alternatives and the order of its elements |
| BnfPrinter.ParseImage | src/bnftobison/parser/bnftobison_parser.gtest.cpp:42-1287 | a list of rule blocks is the result of parsing some text iff it is well formed: no empty group or alternative, and no repetition of a repetition |
| Expansion.NormalizeIdempotent | src/bnftobison/parser/bnftobison_parser.gtest.cpp:116-151 | a normalised name holds no space or hyphen, and normalising it again changes nothing (`GQL-program` becomes `GQL_program`) |
| Expansion.ConcatUnit | src/bnftobison/parser/bnftobison_parser.gtest.cpp:116-151 | the empty production is the unit of the cross product on both sides |
| Expansion.ConcatAssociative | src/bnftobison/parser/bnftobison_parser.gtest.cpp:773-807 | grouping does not matter when elements are combined in source order |
| Expansion.ConcatSize | src/bnftobison/parser/bnftobison_parser.gtest.cpp:498-536 | a cross product has at most as many productions as the product of the two set sizes |
| Expansion.ConcatCollapse | src/bnftobison/parser/bnftobison_parser.gtest.cpp:498-536 | the bound can be missed: `a` or `a b`, then `b` or nothing, gives three productions, not four, because `a b` arises twice |
| Expansion.PrefixSize | src/bnftobison/parser/bnftobison_parser.gtest.cpp:463-496 | one production followed by each of `n` productions gives exactly `n` productions |
| Expansion.SuffixSize | src/bnftobison/parser/bnftobison_parser.gtest.cpp:538-577 | each of `n` productions followed by one production gives exactly `n` productions |
| Expansion.ConcatSizeExact | src/bnftobison/parser/bnftobison_parser.gtest.cpp:579-627 | when no production of the left side is a proper prefix of another, or none of the right side a proper suffix of another, the cross product has exactly the product of the two sizes |
| Expansion.OptionalThenConcat | src/bnftobison/parser/bnftobison_parser.gtest.cpp:696-730 | an optional group followed or preceded by `b` gives its alternatives combined with `b`, plus `b` on its own |
| Expansion.ExpandBodyMembers | src/bnftobison/parser/bnftobison_parser.gtest.cpp:65-91 | a production belongs to a body iff one of its alternatives yields it |
| Expansion.DuplicateAlternative | src/bnftobison/parser/bnftobison_parser.gtest.cpp:498-536 | writing an alternative a second time adds no production |
| Expansion.PlainSequence | src/bnftobison/parser/bnftobison_parser.gtest.cpp:93-114 | an alternative of plain symbols yields exactly one production: the symbol names in source order |
| Expansion.RepeatSingle | src/bnftobison/parser/bnftobison_parser.gtest.cpp:153-192 | repeating a single-production unit yields one reference to its `_list` name, and the unit is registered for a list |
| GrammarMap.OneList | src/bnftobison/parser/bnftobison_parser.gtest.cpp:153-192 | one repeated unit on its own defines exactly the two right-hand sides `u` and `L u` under `L` |
| GrammarMap.DefineOneMore | src/bnftobison/parser/bnftobison_parser.gtest.cpp:194-243 | defining the list of one more unit is the same as defining the lists of the enlarged set of units |
| GrammarMap.WithListsTwice | src/bnftobison/parser/bnftobison_parser.gtest.cpp:295-345 | defining the lists of `a` and then of `b` gives the lists of `a + b` |
| GrammarMap.WithListsIdempotent | src/bnftobison/parser/bnftobison_parser.gtest.cpp:295-345 | defining the same lists again changes nothing: a unit repeated twice gets one list entry |
| GrammarMap.MergeAt | src/bnftobison/parser/bnftobison_parser.gtest.cpp:1016-1046 | merging creates the entry even for an empty body, and adds exactly the merged right-hand sides to it |
| GrammarMap.ApplyRulesAt | src/bnftobison/parser/bnftobison_parser.gtest.cpp:917-963 | an entry is in the map iff a block or a repeated unit names it, and it holds exactly what those contribute |
| GrammarMap.CanonicalKeys | src/bnftobison/parser/bnftobison_parser.gtest.cpp:917-963 | the map's keys are the normalised block names and the list names, and nothing else |
| GrammarMap.OrderIndependent | src/bnftobison/parser/bnftobison_parser.gtest.cpp:1048-1088 | reordering or repeating blocks does not change the map |
| GrammarMap.BlockEntry | src/bnftobison/parser/bnftobison_parser.gtest.cpp:1048-1088 | a block whose name nothing else uses maps to exactly its expansion, possibly empty |
| GrammarMap.ListEntry | src/bnftobison/parser/bnftobison_parser.gtest.cpp:245-293 | a repeated unit maps its list name to exactly its two right-hand sides, however often it is repeated |
| BnfToBison.ConvertSucceedsIffAccepted | src/bnftobison/parser/bnftobison_parser.gtest.cpp:1268-1287 | conversion fails exactly on the texts the syntax-only parser rejects |
| BnfToBison.BisonParam.constructor | src/bnftobison/parser/bnftobison_parser.gtest.cpp:48 | a fresh `BisonParam` holds an empty map |
| BnfToBison.BisonParam.DefineList | src/bnftobison/parser/bnftobison_parser.gtest.cpp:153-192 | returns the `_list` name of the unit and merges the right-hand sides `u` and `L u` under that name |
| BnfToBison.BisonParam.DefineLists | src/bnftobison/parser/bnftobison_parser.gtest.cpp:194-243 | the loop over the units leaves the map with every unit's list merged in, whatever order the units are taken in |
| BnfToBison.BisonParam.AddRule | src/bnftobison/parser/bnftobison_parser.gtest.cpp:917-963 | one block: its lists are merged, then its expansion under its normalised name |
| BnfToBison.BisonParam.Run | src/bnftobison/parser/bnftobison_parser.gtest.cpp:1130-1157 | `parser()` returns 0 iff the text is accepted; on success every block is merged in order, on failure the map is empty, as test_27 shows; for failures no test covers this is the model's choice |
| BnfToBison.RunParser | src/bnftobison/parser/bnftobison_parser.gtest.cpp:42-63 | a fresh parameter and one `parser()` call: status 0 with the converted map, or nonzero with an empty map |
| BnfToBisonExamples.Test0 | src/bnftobison/parser/bnftobison_parser.gtest.cpp:42-63 | `true literal` becomes the single entry `true_literal ↦ {[TRUE]}` |
| BnfToBisonExamples.Test1 | src/bnftobison/parser/bnftobison_parser.gtest.cpp:65-91 | three bar-separated alternatives give three one-symbol productions |
| BnfToBisonExamples.Test2 | src/bnftobison/parser/bnftobison_parser.gtest.cpp:93-114 | a sequence of nonterminals gives one production of normalised names in order |
| BnfToBisonExamples.Test3 | src/bnftobison/parser/bnftobison_parser.gtest.cpp:116-151 | `A [ B ]` or `B` gives `{[A], [A, B], [B]}` under `GQL_program` |
| BnfToBisonExamples.Test4 | src/bnftobison/parser/bnftobison_parser.gtest.cpp:153-192 | a repeated nonterminal becomes a reference to its list, and the list is defined |
| BnfToBisonExamples.Test5 | src/bnftobison/parser/bnftobison_parser.gtest.cpp:194-243 | two repeated units in two alternatives give two lists and three entries |
| BnfToBisonExamples.Test6 | src/bnftobison/parser/bnftobison_parser.gtest.cpp:245-293 | a repetition inside an optional group still defines its list |
| BnfToBisonExamples.Test7 | src/bnftobison/parser/bnftobison_parser.gtest.cpp:295-345 | a unit repeated in two places gets one list entry: three entries, not four |
| BnfToBisonExamples.Test8 | src/bnftobison/parser/bnftobison_parser.gtest.cpp:347-378 | a mandatory group contributes its sequence, with no empty choice |
| BnfToBisonExamples.Test9 | src/bnftobison/parser/bnftobison_parser.gtest.cpp:380-419 | a repeated group gets the list `comma_transaction_mode_2_list` |
| BnfToBisonExamples.Test10 | src/bnftobison/parser/bnftobison_parser.gtest.cpp:421-461 | a repeated group inside an optional group defines its list, and the optional adds the production without it |
| BnfToBisonExamples.Test11 | src/bnftobison/parser/bnftobison_parser.gtest.cpp:463-496 | a mandatory group of two alternatives after `CREATE` gives exactly two productions |
| BnfToBisonExamples.Test12 | src/bnftobison/parser/bnftobison_parser.gtest.cpp:498-536 | the duplicate production collapses: six distinct productions, not seven |
| BnfToBisonExamples.Test13 | src/bnftobison/parser/bnftobison_parser.gtest.cpp:538-577 | two optional groups in one alternative and one in the other give six distinct productions; the test lists one of them twice |
| BnfToBisonExamples.Test14 | src/bnftobison/parser/bnftobison_parser.gtest.cpp:579-627 | a second mandatory group of two alternatives doubles the six productions to twelve |
| BnfToBisonExamples.Test15 | src/bnftobison/parser/bnftobison_parser.gtest.cpp:629-694 | a trailing optional group keeps the twelve productions and adds twelve more that end in `graph_source`: twenty-four |
| BnfToBisonExamples.Test16 | src/bnftobison/parser/bnftobison_parser.gtest.cpp:696-730 | an optional choice of `DETACH` or `NODETACH` before `DELETE <x>` gives exactly three productions |
| BnfToBisonExamples.Test17 | src/bnftobison/parser/bnftobison_parser.gtest.cpp:732-771 | `EXISTS` followed by a mandatory group of five alternatives gives five productions |
| BnfToBisonExamples.Test18 | src/bnftobison/parser/bnftobison_parser.gtest.cpp:773-807 | nested optionals give `{[S], [S, P], [S, P, E]}` and not `[S, E]` |
| BnfToBisonExamples.Test19 | src/bnftobison/parser/bnftobison_parser.gtest.cpp:809-846 | `SESSION SET` followed by a mandatory group of four alternatives gives four productions |
| BnfToBisonExamples.Test20 | src/bnftobison/parser/bnftobison_parser.gtest.cpp:848-881 | a trailing comment after an element is dropped |
| BnfToBisonExamples.Test21 | src/bnftobison/parser/bnftobison_parser.gtest.cpp:883-915 | a comment line after the alternative is dropped |
| BnfToBisonExamples.Test22 | src/bnftobison/parser/bnftobison_parser.gtest.cpp:917-963 | two blocks separated by an empty line give two entries |
| BnfToBisonExamples.Test23 | src/bnftobison/parser/bnftobison_parser.gtest.cpp:965-1014 | leading and trailing empty lines change nothing in the map |
| BnfToBisonExamples.Test24 | src/bnftobison/parser/bnftobison_parser.gtest.cpp:1016-1046 | a comment-only body gives its nonterminal with an empty set |
| BnfToBisonExamples.Test25 | src/bnftobison/parser/bnftobison_parser.gtest.cpp:1048-1088 | a comment-only block and a plain block give two separate entries |
| BnfToBisonExamples.Test26 | src/bnftobison/parser/bnftobison_parser.gtest.cpp:1090-1128 | empty and blank-only lines between bar-separated alternatives are allowed: three productions |
| BnfToBisonExamples.Test27 | src/bnftobison/parser/bnftobison_parser.gtest.cpp:1130-1157 | a body starting with a bar fails, and no map is produced |
| BnfToBisonExamples.Test27Run | src/bnftobison/parser/bnftobison_parser.gtest.cpp:1130-1157 | through a fresh `BisonParam`, `parser()` returns nonzero and `result.size()` is 0 |
| BnfToBisonExamples.Test28 | src/bnftobison/parser/bnftobison_parser.gtest.cpp:1159-1190 | the quoted literal `" "` is kept with its quotes |
| BnfToBisonExamples.Test29 | src/bnftobison/parser/bnftobison_parser.gtest.cpp:1192-1223 | the quoted literal `"}"` is a terminal and closes no group |
| BnfToBisonExamples.Test30 | src/bnftobison/parser/bnftobison_parser.gtest.cpp:1225-1266 | `"\\"` is kept verbatim, escapes included, next to a second block |
| BnfToBisonExamples.Test31 | src/bnftobison/parser/bnftobison_parser.gtest.cpp:1268-1287 | `<a> := b` fails, and no map is produced |
| BnfToBisonExamples.Test31Run | src/bnftobison/parser/bnftobison_parser.gtest.cpp:1268-1287 | through a fresh `BisonParam`, `parser()` returns nonzero and `result.size()` is 0 |
| BnfParserExamples.Test0 | src/bnfparser.no_actions/parser/bnfparser.bison.gtest.cpp:41-56 | a one-line rule is accepted |
| BnfParserExamples.Test1 | src/bnfparser.no_actions/parser/bnfparser.bison.gtest.cpp:58-78 | a multi-line bar-separated list of alternatives is accepted |
| BnfParserExamples.Test2 | src/bnfparser.no_actions/parser/bnfparser.bison.gtest.cpp:80-96 | a sequence of nonterminals is accepted |
| BnfParserExamples.Test3 | src/bnfparser.no_actions/parser/bnfparser.bison.gtest.cpp:98-118 | an optional group is accepted |
| BnfParserExamples.Test4 | src/bnfparser.no_actions/parser/bnfparser.bison.gtest.cpp:120-140 | `...` on nonterminals, inside an optional group, is accepted |
| BnfParserExamples.Test5 | src/bnfparser.no_actions/parser/bnfparser.bison.gtest.cpp:142-161 | `...` on a mandatory group nested in an optional group is accepted |
| BnfParserExamples.Test6 | src/bnfparser.no_actions/parser/bnfparser.bison.gtest.cpp:163-186 | several mandatory and optional groups, nested, are accepted |
| BnfParserExamples.Test7 | src/bnfparser.no_actions/parser/bnfparser.bison.gtest.cpp:188-208 | alternatives inside an optional group are accepted |
| BnfParserExamples.Test8 | src/bnfparser.no_actions/parser/bnfparser.bison.gtest.cpp:210-233 | a mandatory group of five alternatives is accepted |
| BnfParserExamples.Test9 | src/bnfparser.no_actions/parser/bnfparser.bison.gtest.cpp:235-255 | nested optional groups are accepted |
| BnfParserExamples.Test10 | src/bnfparser.no_actions/parser/bnfparser.bison.gtest.cpp:257-279 | a mandatory group of four alternatives after two terminals is accepted |
| BnfParserExamples.Test11 | src/bnfparser.no_actions/parser/bnfparser.bison.gtest.cpp:281-301 | a comment right after an element is accepted |
| BnfParserExamples.Test12 | src/bnfparser.no_actions/parser/bnfparser.bison.gtest.cpp:303-323 | a comment on its own line after the alternative is accepted |
| BnfParserExamples.Test13 | src/bnfparser.no_actions/parser/bnfparser.bison.gtest.cpp:325-349 | two blocks separated by an empty line are accepted |
| BnfParserExamples.Test14 | src/bnfparser.no_actions/parser/bnfparser.bison.gtest.cpp:351-378 | two blocks with leading and trailing empty lines are accepted |
| BnfParserExamples.Test15 | src/bnfparser.no_actions/parser/bnfparser.bison.gtest.cpp:380-400 | a comment-only body is accepted |
| BnfParserExamples.Test16 | src/bnfparser.no_actions/parser/bnfparser.bison.gtest.cpp:402-425 | a comment-only block followed by another block is accepted |
| BnfParserExamples.Test17 | src/bnfparser.no_actions/parser/bnfparser.bison.gtest.cpp:427-451 | empty lines before bar-separated alternatives are accepted |
| BnfParserExamples.Test18 | src/bnfparser.no_actions/parser/bnfparser.bison.gtest.cpp:453-472 | the quoted literal `" "` is one terminal |
| BnfParserExamples.Test19 | src/bnfparser.no_actions/parser/bnfparser.bison.gtest.cpp:474-493 | the quoted literal `"}"` is one terminal and closes no group |
| BnfParserExamples.Test20 | src/bnfparser.no_actions/parser/bnfparser.bison.gtest.cpp:495-517 | `"\\"` and `"}"` blocks are accepted |
| BnfParserExamples.Test21 | src/bnfparser.no_actions/parser/bnfparser.bison.gtest.cpp:519-535 | `<a> := b` is rejected |

## Left out

- Character-level scanning (the flex scanners behind `bnftobison_lexer.h` and `bnfparser_lexer.h`) is not modelled. Texts are given as token sequences under the convention above, and source locations are not tracked.
- The bison LALR tables and the generated driver are not modelled. Each parser is a recursive function over the token sequence. The tests observe only the status of `parser()` and the final map. The model gives both exactly as each covered test expects; texts no test covers follow the model's reading of the grammar (next line).
- The semantic actions run during the parse. The model parses the whole text into rule blocks first and merges them afterwards. On success the final map is the same. On failure the tests show an empty `result` only for texts whose error comes before any element is reduced (test_27 and test_31, stated by `BnfToBisonExamples.Test27Run` and `Test31Run`).
- BnfToBison.BisonParam.Run: empties the map on every failure. This is the model's choice, and no test decides it. A failure after a complete block, or after a repeated element has defined its list (as in `<a> ::= b... | ]`), may leave earlier entries in the source's `result`.
- Rendering the map as bison production text is not modelled, because it belongs to a downstream consumer.
- An empty text (no rule at all) is accepted, with an empty map. No test covers it.
- These choices of the recognizer are not covered by any test, so they are the model's reading of the grammar, not behaviour the tests confirm:
  - a comment before the first element of a body is rejected (`BnfParserExamples.CommentBeforeFirstElementRejected`);
  - an alternative after a bar that holds only a comment is rejected (`BnfParserExamples.CommentOnlyAlternativeRejected`);
  - an empty line right after `::=` is rejected when more tokens follow (`BnfParserExamples.EmptyLineAfterDefinesRejected`);
  - a comment line before the first block is rejected (`BnfParserExamples.CommentBeforeFirstBlockRejected`);
  - a comment line between blocks, after the separating empty line, is rejected (`BnfParserExamples.CommentBetweenBlocksRejected`);
  - two blocks with no empty line between them are rejected (`BnfParserExamples.BlocksWithoutEmptyLineRejected`);
  - an empty line inside an alternative that no bar follows is rejected (`BnfParserExamples.EmptyLineInsideAlternativeRejected`).
- Two unrelated blocks with the same name, and a list name that clashes with a block name, merge by union. No test covers either case, and nothing beyond union is proved about them.
- Expansion.RepeatSingle: covers a repeated unit with one production only. A repeated multi-alternative group is named from each of its productions, and no test covers that case.
- The scanner-only test `src/ebnfparser.no_actions/lexer/ebnfparser_lexer.gtest.cpp` is not part of this model, because it exercises a scanner only.
