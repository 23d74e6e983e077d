/**
Matching the selections of a Sigma rule against one event, with the evidence it collects.

Text folding, globbing, regular expressions and address tests are the parameter `scalar` of
`Matching`; `render` is the JSON text of an expected value.
*/
module SigmaSelections {
  import opened Results
  import Lexer = SigmaLexer

  datatype Scalar = Text(text: string) | Number(n: int) | Flag(b: bool) | Null

  datatype Value = One(scalar: Scalar) | Many(scalars: seq<Scalar>)

  datatype Criterion = Criterion(expression: string, expected: Value)

  datatype Branch = Mapping(criteria: seq<Criterion>) | NotMapping

  /** The selections of a rule, with the order in which the rule lists them. */
  datatype Selections = Selections(order: seq<string>, branches: map<string, seq<Branch>>)

  datatype Event = Event(direct: map<string, string>, attributes: map<string, Value>)

  datatype Matching = Matching(
    selections: Selections,
    event: Event,
    scalar: (Scalar, Scalar, string) -> bool,
    glob: (string, string) -> bool,
    render: Value -> string)

  datatype EvalError =
    | UnknownSelection(name: string)
    | MalformedSelection(name: string)
    | UnsupportedModifier(operator: string)
    | Syntax
    | Lexical

  datatype Verdict = Verdict(matched: bool, reasons: seq<string>)

  type Outcome = Result<Verdict, EvalError>

  const NO: Verdict := Verdict(false, [])

  const OPERATORS: set<string> := {"contains", "startswith", "endswith", "re", "cidr"}

  // ---------------------------------------------------------------- one criterion

  function Bar(s: string): (i: nat)
    ensures i <= |s|
    ensures forall k :: 0 <= k < i ==> s[k] != '|'
    ensures i < |s| ==> s[i] == '|'
  {
    if s == "" || s[0] == '|' then 0 else 1 + Bar(s[1..])
  }

  /** `_parse_expression`: the field and the operator. */
  function ParseExpression(expression: string): Result<(string, string), EvalError> {
    var i := Bar(expression);
    if i == |expression| then Ok((expression, "equals"))
    else if expression[i + 1..] !in OPERATORS then Err(UnsupportedModifier(expression[i + 1..]))
    else Ok((expression[..i], expression[i + 1..]))
  }

  function FieldValue(e: Event, field: string): Value {
    if field in e.direct then One(Text(e.direct[field]))
    else if field in e.attributes then e.attributes[field]
    else One(Text(""))
  }

  function Scalars(v: Value): seq<Scalar> { if v.One? then [v.scalar] else v.scalars }

  predicate MatchValue(m: Matching, actual: Value, expected: Value, operator: string) {
    exists a, x :: a in Scalars(actual) && x in Scalars(expected) && m.scalar(a, x, operator)
  }

  /** The criterion is well formed and holds of the event. */
  predicate CriterionHolds(m: Matching, c: Criterion) {
    var p := ParseExpression(c.expression);
    p.Ok? && MatchValue(m, FieldValue(m.event, p.value.0), c.expected, p.value.1)
  }

  /** The evidence that cites a criterion, with the expected value shortened to 80 characters. */
  function Cite(m: Matching, c: Criterion): string {
    var text := m.render(c.expected);
    c.expression + " matched " + if |text| <= 80 then text else text[..77] + "..."
  }

  function Citations(m: Matching, cs: seq<Criterion>): seq<string> {
    seq(|cs|, i requires 0 <= i < |cs| => Cite(m, cs[i]))
  }

  // ---------------------------------------------------------------- one selection

  /** The first criterion that is malformed or fails decides; otherwise all of them are cited. */
  function EvalCriteria(m: Matching, cs: seq<Criterion>): Outcome {
    if cs == [] then Ok(Verdict(true, [])) else
    var p := ParseExpression(cs[0].expression);
    if p.Err? then Err(p.error)
    else if !CriterionHolds(m, cs[0]) then Ok(NO) else
    var rest := EvalCriteria(m, cs[1..]);
    if rest.Ok? && rest.value.matched then Ok(Verdict(true, [Cite(m, cs[0])] + rest.value.reasons)) else rest
  }

  function EvalBranches(m: Matching, name: string, bs: seq<Branch>): Outcome {
    if bs == [] then Ok(NO)
    else if bs[0].NotMapping? then Err(MalformedSelection(name)) else
    var r := EvalCriteria(m, bs[0].criteria);
    if r.Err? || r.value.matched then r else EvalBranches(m, name, bs[1..])
  }

  function EvalNamed(m: Matching, name: string): Outcome {
    if name !in m.selections.branches then Err(UnknownSelection(name))
    else EvalBranches(m, name, m.selections.branches[name])
  }

  predicate BranchHolds(m: Matching, b: Branch): (holds: bool)
    ensures holds ==> b.Mapping?
  {
    b.Mapping? && forall i :: 0 <= i < |b.criteria| ==> CriterionHolds(m, b.criteria[i])
  }

  /** What a selection means: one of its branches has only criteria that hold. */
  predicate SelectionHolds(m: Matching, name: string) {
    name in m.selections.branches &&
    exists i :: 0 <= i < |m.selections.branches[name]| && BranchHolds(m, m.selections.branches[name][i])
  }

  /** `reason` cites a criterion that holds, in a satisfied branch of selection `name`. */
  predicate Supported(m: Matching, name: string, reason: string) {
    name in m.selections.branches &&
    exists i, k ::
      && 0 <= i < |m.selections.branches[name]|
      && BranchHolds(m, m.selections.branches[name][i])
      && 0 <= k < |m.selections.branches[name][i].criteria|
      && reason == Cite(m, m.selections.branches[name][i].criteria[k])
  }

  // ---------------------------------------------------------------- loops of the original

  method MatchMapping(m: Matching, criteria: seq<Criterion>) returns (r: Outcome)
    ensures r == EvalCriteria(m, criteria)
  {
    hide CriterionHolds, Cite, ParseExpression;
    var reasons: seq<string> := [];
    assert criteria[0..] == criteria;
    ghost var whole := EvalCriteria(m, criteria);
    assert whole.Ok? ==> [] + whole.value.reasons == whole.value.reasons;
    for i := 0 to |criteria|
      invariant var rest := EvalCriteria(m, criteria[i..]);
        EvalCriteria(m, criteria) ==
          if rest.Ok? && rest.value.matched then Ok(Verdict(true, reasons + rest.value.reasons)) else rest
    {
      var p := ParseExpression(criteria[i].expression);
      assert criteria[i..][1..] == criteria[i + 1..];
      if p.Err? {
        return Err(p.error);
      }
      if !CriterionHolds(m, criteria[i]) {
        return Ok(NO);
      }
      ghost var rest := EvalCriteria(m, criteria[i + 1..]);
      if rest.Ok? && rest.value.matched {
        assert reasons + ([Cite(m, criteria[i])] + rest.value.reasons) ==
          reasons + [Cite(m, criteria[i])] + rest.value.reasons;
      }
      reasons := reasons + [Cite(m, criteria[i])];
    }
    assert reasons + [] == reasons;
    return Ok(Verdict(true, reasons));
  }

  method EvaluateNamed(m: Matching, name: string) returns (r: Outcome)
    ensures r == EvalNamed(m, name)
  {
    if name !in m.selections.branches {
      return Err(UnknownSelection(name));
    }
    var bs := m.selections.branches[name];
    assert bs[0..] == bs;
    for i := 0 to |bs|
      invariant EvalBranches(m, name, bs) == EvalBranches(m, name, bs[i..])
    {
      assert bs[i..][1..] == bs[i + 1..];
      if bs[i].NotMapping? {
        return Err(MalformedSelection(name));
      }
      var v := MatchMapping(m, bs[i].criteria);
      if v.Err? || v.value.matched {
        return v;
      }
    }
    return Ok(NO);
  }

  function EvalAny(m: Matching, names: seq<string>): Outcome {
    if names == [] then Ok(NO) else
    var r := EvalNamed(m, Lexer.Strip(names[0]));
    if r.Err? || r.value.matched then r else EvalAny(m, names[1..])
  }

  function EvalAll(m: Matching, names: seq<string>): Outcome {
    if names == [] then Ok(Verdict(true, [])) else
    var r := EvalNamed(m, Lexer.Strip(names[0]));
    if r.Err? then r
    else if !r.value.matched then Ok(NO) else
    var rest := EvalAll(m, names[1..]);
    if rest.Ok? && rest.value.matched then Ok(Verdict(true, r.value.reasons + rest.value.reasons)) else rest
  }

  method EvaluateAny(m: Matching, names: seq<string>) returns (r: Outcome)
    ensures r == EvalAny(m, names)
  {
    assert names[0..] == names;
    for i := 0 to |names|
      invariant EvalAny(m, names) == EvalAny(m, names[i..])
    {
      hide EvalNamed;
      assert names[i..][1..] == names[i + 1..];
      var v := EvaluateNamed(m, Lexer.Strip(names[i]));
      if v.Err? || v.value.matched {
        return v;
      }
    }
    return Ok(NO);
  }

  /** `_evaluate_all`: no name at all is no match. */
  method EvaluateAll(m: Matching, names: seq<string>) returns (r: Outcome)
    ensures r == if names == [] then Ok(NO) else EvalAll(m, names)
  {
    var reasons: seq<string> := [];
    assert names[0..] == names;
    ghost var whole := EvalAll(m, names);
    assert whole.Ok? ==> [] + whole.value.reasons == whole.value.reasons;
    for i := 0 to |names|
      invariant var rest := EvalAll(m, names[i..]);
        EvalAll(m, names) ==
          if rest.Ok? && rest.value.matched then Ok(Verdict(true, reasons + rest.value.reasons)) else rest
      invariant i == 0 ==> reasons == []
    {
      hide EvalNamed;
      assert names[i..][1..] == names[i + 1..];
      var v := EvaluateNamed(m, Lexer.Strip(names[i]));
      if v.Err? {
        return v;
      }
      if !v.value.matched {
        return Ok(NO);
      }
      ghost var rest := EvalAll(m, names[i + 1..]);
      if rest.Ok? && rest.value.matched {
        assert reasons + (v.value.reasons + rest.value.reasons) == reasons + v.value.reasons + rest.value.reasons;
      }
      reasons := reasons + v.value.reasons;
    }
    assert reasons + [] == reasons;
    return Ok(Verdict(names != [], reasons));
  }

  // ---------------------------------------------------------------- what the outcomes mean

  lemma {:induction false} CriteriaMeaning(m: Matching, cs: seq<Criterion>)
    requires EvalCriteria(m, cs).Ok?
    ensures var v := EvalCriteria(m, cs).value;
      && v.matched == BranchHolds(m, Mapping(cs))
      && v.reasons == if v.matched then Citations(m, cs) else []
  {
    hide Cite, ParseExpression, MatchValue;
    if cs != [] && CriterionHolds(m, cs[0]) {
      CriteriaMeaning(m, cs[1..]);
      assert cs == [cs[0]] + cs[1..];
      if EvalCriteria(m, cs[1..]).value.matched {
        assert forall i :: 1 <= i < |cs| ==> cs[i] == cs[1..][i - 1];
      } else {
        var i :| 0 <= i < |cs[1..]| && !CriterionHolds(m, cs[1..][i]);
        assert !CriterionHolds(m, cs[i + 1]);
      }
    }
  }

  lemma {:induction false} BranchesMeaning(m: Matching, name: string, bs: seq<Branch>)
    requires EvalBranches(m, name, bs).Ok?
    ensures var v := EvalBranches(m, name, bs).value;
      && (v.matched <==> exists i :: 0 <= i < |bs| && BranchHolds(m, bs[i]))
      && (v.matched ==> exists i :: 0 <= i < |bs| && BranchHolds(m, bs[i]) && v.reasons == Citations(m, bs[i].criteria))
      && (!v.matched ==> v.reasons == [])
  {
    hide EvalCriteria, BranchHolds, Citations;
    if bs != [] {
      assert bs[0].Mapping?;
      CriteriaMeaning(m, bs[0].criteria);
      assert bs[0] == Mapping(bs[0].criteria);
      if !EvalCriteria(m, bs[0].criteria).value.matched {
        BranchesMeaning(m, name, bs[1..]);
        assert forall i :: 1 <= i < |bs| ==> bs[i] == bs[1..][i - 1];
        var v := EvalBranches(m, name, bs).value;
        if v.matched {
          var i :| 0 <= i < |bs[1..]| && BranchHolds(m, bs[1..][i]) && v.reasons == Citations(m, bs[1..][i].criteria);
          assert BranchHolds(m, bs[i + 1]);
        }
      }
    }
  }

  /** A named selection matches exactly when it holds, and every reason cites a criterion that holds. */
  lemma {:induction false} NamedMeaning(m: Matching, name: string)
    requires EvalNamed(m, name).Ok?
    ensures var v := EvalNamed(m, name).value;
      && v.matched == SelectionHolds(m, name)
      && (!v.matched ==> v.reasons == [])
      && forall r :: r in v.reasons ==> Supported(m, name, r)
  {
    hide EvalBranches, BranchHolds, Cite;
    var bs := m.selections.branches[name];
    var v := EvalNamed(m, name).value;
    BranchesMeaning(m, name, bs);
    if v.matched {
      var i :| 0 <= i < |bs| && BranchHolds(m, bs[i]) && v.reasons == Citations(m, bs[i].criteria);
      forall r | r in v.reasons ensures Supported(m, name, r) {
        var k :| 0 <= k < |v.reasons| && v.reasons[k] == r;
        assert r == Cite(m, bs[i].criteria[k]);
      }
    }
  }

  lemma {:induction false} AnyMeaning(m: Matching, names: seq<string>)
    requires EvalAny(m, names).Ok?
    ensures var v := EvalAny(m, names).value;
      && (v.matched <==> exists n :: n in names && SelectionHolds(m, Lexer.Strip(n)))
      && (!v.matched ==> v.reasons == [])
      && forall r :: r in v.reasons ==> exists n :: n in names && Supported(m, Lexer.Strip(n), r)
  {
    hide EvalNamed, SelectionHolds, Supported;
    if names != [] {
      NamedMeaning(m, Lexer.Strip(names[0]));
      if !EvalNamed(m, Lexer.Strip(names[0])).value.matched {
        AnyMeaning(m, names[1..]);
        assert names == [names[0]] + names[1..];
      }
    }
  }

  lemma {:induction false} AllMeaning(m: Matching, names: seq<string>)
    requires EvalAll(m, names).Ok?
    ensures var v := EvalAll(m, names).value;
      && (v.matched <==> forall n :: n in names ==> SelectionHolds(m, Lexer.Strip(n)))
      && (!v.matched ==> v.reasons == [])
      && forall r :: r in v.reasons ==> exists n :: n in names && Supported(m, Lexer.Strip(n), r)
  {
    hide EvalNamed, SelectionHolds, Supported;
    if names != [] {
      NamedMeaning(m, Lexer.Strip(names[0]));
      if EvalNamed(m, Lexer.Strip(names[0])).value.matched {
        AllMeaning(m, names[1..]);
        assert names == [names[0]] + names[1..];
      }
    }
  }

  // ---------------------------------------------------------------- when nothing raises

  predicate WellFormedCriteria(cs: seq<Criterion>) {
    forall i :: 0 <= i < |cs| ==> ParseExpression(cs[i].expression).Ok?
  }

  /** Every branch is a mapping whose modifiers are supported. */
  predicate WellFormedBranches(bs: seq<Branch>) {
    forall i :: 0 <= i < |bs| ==> bs[i].Mapping? && WellFormedCriteria(bs[i].criteria)
  }

  predicate Defined(m: Matching, name: string) {
    name in m.selections.branches && WellFormedBranches(m.selections.branches[name])
  }

  lemma {:induction false} CriteriaSucceed(m: Matching, cs: seq<Criterion>)
    requires WellFormedCriteria(cs)
    ensures EvalCriteria(m, cs).Ok?
  {
    hide CriterionHolds, Cite, ParseExpression;
    if cs != [] {
      CriteriaSucceed(m, cs[1..]);
    }
  }

  lemma {:induction false} BranchesSucceed(m: Matching, name: string, bs: seq<Branch>)
    requires WellFormedBranches(bs)
    ensures EvalBranches(m, name, bs).Ok?
  {
    hide EvalCriteria;
    if bs != [] {
      CriteriaSucceed(m, bs[0].criteria);
      BranchesSucceed(m, name, bs[1..]);
    }
  }

  lemma {:induction false} NamesSucceed(m: Matching, names: seq<string>)
    requires forall n :: n in names ==> Defined(m, Lexer.Strip(n))
    ensures EvalAny(m, names).Ok? && EvalAll(m, names).Ok?
  {
    hide EvalBranches;
    if names != [] {
      var n := Lexer.Strip(names[0]);
      assert names[0] in names;
      BranchesSucceed(m, n, m.selections.branches[n]);
      NamesSucceed(m, names[1..]);
    }
  }

  // ---------------------------------------------------------------- what one criterion asks

  lemma {:induction false} BarOfPlain(field: string, rest: string)
    requires '|' !in field
    ensures Bar(field + rest) == |field| + Bar(rest)
  {
    if field != "" {
      assert (field + rest)[1..] == field[1..] + rest && (field + rest)[0] == field[0];
      BarOfPlain(field[1..], rest);
    } else {
      assert field + rest == rest;
    }
  }

  /** A field and a modifier are told apart at the first bar; a field alone is compared for equality. */
  lemma {:induction false} ExpressionsSplit(field: string, modifier: string)
    requires '|' !in field
    ensures ParseExpression(field) == Ok((field, "equals"))
    ensures modifier in {"contains", "startswith", "endswith", "re", "cidr"} ==>
      ParseExpression(field + "|" + modifier) == Ok((field, modifier))
    ensures modifier !in {"contains", "startswith", "endswith", "re", "cidr"} ==>
      ParseExpression(field + "|" + modifier) == Err(UnsupportedModifier(modifier))
  {
    assert field + "" == field;
    BarOfPlain(field, "");
    var expression := field + "|" + modifier;
    assert expression == field + ("|" + modifier);
    BarOfPlain(field, "|" + modifier);
    assert expression[..|field|] == field && expression[|field| + 1..] == modifier;
  }

  /** What a rule's author sees in a field: a direct field wins over an attribute, and a missing one is empty. */
  predicate Shows(e: Event, field: string, x: Scalar) {
    if field in e.direct then x == Text(e.direct[field])
    else if field !in e.attributes then x == Text("")
    else match e.attributes[field]
      case One(y) => x == y
      case Many(ys) => x in ys
  }

  /** `x` is one of the expected values. */
  predicate Expects(v: Value, x: Scalar) {
    match v
    case One(y) => x == y
    case Many(ys) => x in ys
  }

  /**
  A criterion without a modifier, or with one of the five, matches exactly if some value of its field
  compares with some expected value under that operator; it is then cited.
  */
  lemma {:induction false} CriterionMatches(m: Matching, field: string, modifier: string, expected: Value)
    requires '|' !in field && modifier in {"", "contains", "startswith", "endswith", "re", "cidr"}
    ensures var c := Criterion(if modifier == "" then field else field + "|" + modifier, expected);
      var operator := if modifier == "" then "equals" else modifier;
      && EvalCriteria(m, [c]).Ok?
      && (EvalCriteria(m, [c]).value.matched <==>
            exists x, y :: Shows(m.event, field, x) && Expects(expected, y) && m.scalar(x, y, operator))
      && EvalCriteria(m, [c]).value.reasons == if EvalCriteria(m, [c]).value.matched then [Cite(m, c)] else []
  {
    var c := Criterion(if modifier == "" then field else field + "|" + modifier, expected);
    ExpressionsSplit(field, modifier);
    assert [c][1..] == [];
    assert [Cite(m, c)] + [] == [Cite(m, c)];
    var actual := FieldValue(m.event, field);
    assert forall x :: x in Scalars(actual) <==> Shows(m.event, field, x);
    assert forall y :: y in Scalars(expected) <==> Expects(expected, y);
    hide ParseExpression;
  }

  /** A reason names the expression and shows at most 80 characters of what was expected. */
  lemma {:induction false} CitationsAreShort(m: Matching, c: Criterion)
    ensures c.expression + " matched " <= Cite(m, c) && |Cite(m, c)| <= |c.expression| + 9 + 80
    ensures |m.render(c.expected)| <= 80 ==> Cite(m, c) == c.expression + " matched " + m.render(c.expected)
    ensures |m.render(c.expected)| > 80 ==>
      Cite(m, c) == c.expression + " matched " + m.render(c.expected)[..77] + "..."
  {
  }

  /** The first branch that holds gives a selection's reasons, the first name that holds those of `1 of`. */
  lemma {:induction false} FirstReasons(m: Matching, name: string, bs: seq<Branch>, names: seq<string>, n: string)
    requires WellFormedBranches(bs)
    ensures bs != [] && BranchHolds(m, bs[0]) ==>
      EvalBranches(m, name, bs) == Ok(Verdict(true, Citations(m, bs[0].criteria)))
    ensures bs != [] && !BranchHolds(m, bs[0]) ==> EvalBranches(m, name, bs) == EvalBranches(m, name, bs[1..])
    ensures EvalNamed(m, Lexer.Strip(n)).Ok? && SelectionHolds(m, Lexer.Strip(n)) ==>
      EvalAny(m, [n] + names) == EvalNamed(m, Lexer.Strip(n))
    ensures EvalNamed(m, Lexer.Strip(n)).Ok? && !SelectionHolds(m, Lexer.Strip(n)) ==>
      EvalAny(m, [n] + names) == EvalAny(m, names)
  {
    hide EvalCriteria, EvalNamed, BranchHolds, SelectionHolds;
    if bs != [] {
      CriteriaSucceed(m, bs[0].criteria);
      CriteriaMeaning(m, bs[0].criteria);
    }
    assert ([n] + names)[0] == n && ([n] + names)[1..] == names;
    if EvalNamed(m, Lexer.Strip(n)).Ok? {
      NamedMeaning(m, Lexer.Strip(n));
    }
  }

  /** `all of` collects the reasons of its selections one after the other. */
  lemma {:induction false} AllReasons(m: Matching, n: string, names: seq<string>)
    requires EvalNamed(m, Lexer.Strip(n)).Ok? && EvalAll(m, names).Ok?
    ensures SelectionHolds(m, Lexer.Strip(n)) && EvalAll(m, names).value.matched ==>
      EvalAll(m, [n] + names) == Ok(Verdict(true, EvalNamed(m, Lexer.Strip(n)).value.reasons +
        EvalAll(m, names).value.reasons))
    ensures EvalAll(m, []) == Ok(Verdict(true, []))
  {
    hide EvalNamed, SelectionHolds;
    assert ([n] + names)[0] == n && ([n] + names)[1..] == names;
    NamedMeaning(m, Lexer.Strip(n));
  }
}
