/**
 * The converter run: `BisonParam.result` is filled block by block while the
 * converting parser reduces the text, and is empty after a syntax error.
 */
module BnfToBison {

  import opened Wrappers
  import opened Tokens
  import opened Syntax
  import opened Expansion
  import opened GrammarMap
  import opened BnfToBisonParser
  import BnfParser

  /** What a fresh converter holds after reading `ts`; None on a syntax error. */
  function Convert(ts: seq<Token>): Option<Grammar> {
    match Parse(ts)
    case None => None
    case Some(rules) => Some(Canonical(rules))
  }

  /** The converter fails exactly on the texts the syntax-only parser rejects. */
  lemma {:induction false} ConvertSucceedsIffAccepted(ts: seq<Token>)
    ensures Convert(ts).Some? <==> BnfParser.Accepts(ts)
  {
    ParseSucceedsIffAccepted(ts);
  }

  /** The state shared by the converter's actions: the grammar map built so far. */
  class BisonParam {

    var result: Grammar

    constructor ()
      ensures result == map[]
    {
      result := map[];
    }

    /** Defines the list nonterminal of `unit` (again: a second definition adds nothing). */
    method DefineList(unit: Production) returns (name: string)
      modifies this
      ensures name == ListName(unit)
      ensures result == Merge(old(result), name, ListRule(unit))
    {
      name := ListName(unit);
      var left := [name] + unit;
      result := Merge(result, name, {unit, left});
    }

    /** Defines the list nonterminal of every unit in `units`, one at a time. */
    method DefineLists(units: Alternatives)
      modifies this
      ensures result == WithLists(old(result), units)
    {
      ghost var g := result;
      var todo := units;
      ghost var done: Alternatives := {};
      WithNoLists(g);
      while todo != {}
        invariant done + todo == units
        invariant result == WithLists(g, done)
        decreases todo
      {
        var u :| u in todo;
        var _ := DefineList(u);
        DefineOneMore(g, done, u);
        done := done + {u};
        todo := todo - {u};
      }
    }

    /** One rule block: the lists of its repetitions, then its own alternatives. */
    method AddRule(rule: Rule)
      modifies this
      ensures result == ApplyRule(old(result), rule)
    {
      DefineLists(BodyUnits(rule.body));
      result := Merge(result, Normalize(rule.lhs), ExpandBody(rule.body));
    }

    /** `parser()`: 0 and every block merged on success; nonzero and an empty map on a syntax error. */
    method Run(ts: seq<Token>) returns (status: int)
      modifies this
      ensures status == 0 <==> BnfParser.Accepts(ts)
      ensures status == 0 ==> Parse(ts).Some? && result == ApplyRules(old(result), Parse(ts).value)
      ensures status != 0 ==> result == map[]
    {
      ParseSucceedsIffAccepted(ts);
      var parsed := Parse(ts);
      if parsed.None? {
        result := map[];
        return 1;
      }
      var rules := parsed.value;
      var i := 0;
      while i < |rules|
        invariant i <= |rules|
        invariant result == ApplyRules(old(result), rules[..i])
      {
        AddRule(rules[i]);
        ApplyRulesPrefix(old(result), rules, i);
        i := i + 1;
      }
      assert rules[..|rules|] == rules;
      status := 0;
    }
  }

  /** One conversion as the tests drive it: a fresh BisonParam, one `parser()` call. */
  method RunParser(ts: seq<Token>) returns (status: int, result: Grammar)
    ensures status == 0 <==> BnfParser.Accepts(ts)
    ensures status == 0 ==> Convert(ts) == Some(result)
    ensures status != 0 ==> Convert(ts) == None && result == map[]
  {
    ConvertSucceedsIffAccepted(ts);
    var param := new BisonParam();
    status := param.Run(ts);
    result := param.result;
  }
}
