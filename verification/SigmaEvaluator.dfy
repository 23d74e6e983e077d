/**
The evaluator of Sigma conditions: a recursive-descent parser that evaluates while it reads,
never short-circuits `and` and `or`, and carries the evidence of what matched.

Its partner is the meaning of the derivation tree: boolean algebra over the selections.
*/
module SigmaEvaluator {
  import opened Results
  import opened SigmaGrammar
  import opened SigmaSelections
  import Lexer = SigmaLexer

  // ---------------------------------------------------------------- atoms

  predicate IsPattern(s: string) {
    s != "" && forall i :: 0 <= i < |s| ==> Lexer.IsAsciiWord(s[i]) || Lexer.IsGlobChar(s[i])
  }

  /** `re.fullmatch(prefix + "([a-zA-Z0-9_*?-]+)", symbol)`: quantifiers are read case-sensitively. */
  predicate IsQuantifier(symbol: string, prefix: string) {
    |prefix| <= |symbol| && symbol[..|prefix|] == prefix && IsPattern(symbol[|prefix|..])
  }

  const ONE_OF := "1 of "
  const ALL_OF := "all of "

  function Filter(m: Matching, names: seq<string>, pattern: string): (r: seq<string>)
    ensures forall n :: n in r <==> n in names && m.glob(n, pattern)
  {
    if names == [] then []
    else (if m.glob(names[0], pattern) then [names[0]] else []) + Filter(m, names[1..], pattern)
  }

  function Candidates(m: Matching, pattern: string): seq<string> { Filter(m, m.selections.order, pattern) }

  function EvalAtom(m: Matching, symbol: string): Outcome {
    if IsQuantifier(symbol, ONE_OF) then EvalAny(m, Candidates(m, symbol[|ONE_OF|..]))
    else if IsQuantifier(symbol, ALL_OF) then
      var names := Candidates(m, symbol[|ALL_OF|..]);
      if names == [] then Ok(NO) else EvalAll(m, names)
    else EvalNamed(m, symbol)
  }

  /** What an atom means. */
  predicate AtomHolds(m: Matching, symbol: string) {
    if IsQuantifier(symbol, ONE_OF) then
      exists n :: n in m.selections.order && m.glob(n, symbol[|ONE_OF|..]) && SelectionHolds(m, Lexer.Strip(n))
    else if IsQuantifier(symbol, ALL_OF) then
      var pattern := symbol[|ALL_OF|..];
      && (exists n :: n in m.selections.order && m.glob(n, pattern))
      && (forall n :: n in m.selections.order && m.glob(n, pattern) ==> SelectionHolds(m, Lexer.Strip(n)))
    else SelectionHolds(m, symbol)
  }

  /** The selections that an atom consults. */
  predicate Consults(m: Matching, symbol: string, name: string) {
    if IsQuantifier(symbol, ONE_OF) then
      exists n :: n in m.selections.order && m.glob(n, symbol[|ONE_OF|..]) && name == Lexer.Strip(n)
    else if IsQuantifier(symbol, ALL_OF) then
      exists n :: n in m.selections.order && m.glob(n, symbol[|ALL_OF|..]) && name == Lexer.Strip(n)
    else name == symbol
  }

  ghost predicate AtomSupports(m: Matching, symbol: string, reason: string) {
    exists name :: Consults(m, symbol, name) && Supported(m, name, reason)
  }

  lemma {:induction false} AtomMeaning(m: Matching, symbol: string)
    requires EvalAtom(m, symbol).Ok?
    ensures var v := EvalAtom(m, symbol).value;
      && v.matched == AtomHolds(m, symbol)
      && (!v.matched ==> v.reasons == [])
      && forall r :: r in v.reasons ==> AtomSupports(m, symbol, r)
  {
    hide EvalAny, EvalAll, EvalNamed, SelectionHolds, Supported, Filter, IsPattern;
    if IsQuantifier(symbol, ONE_OF) {
      AnyMeaning(m, Candidates(m, symbol[|ONE_OF|..]));
    } else if IsQuantifier(symbol, ALL_OF) {
      var names := Candidates(m, symbol[|ALL_OF|..]);
      if names != [] {
        assert names[0] in names;
        AllMeaning(m, names);
      }
    } else {
      NamedMeaning(m, symbol);
    }
  }

  /** The quantifiers by name: `1 of` needs one matching selection, `all of` all of them and at least one. */
  lemma {:induction false} QuantifiersByName(m: Matching, pattern: string)
    requires pattern != "" && forall i :: 0 <= i < |pattern| ==> PatternChar(pattern[i])
    ensures AtomHolds(m, "1 of " + pattern) <==>
      exists n :: n in m.selections.order && m.glob(n, pattern) && SelectionHolds(m, Lexer.Strip(n))
    ensures AtomHolds(m, "all of " + pattern) <==>
      && (exists n :: n in m.selections.order && m.glob(n, pattern))
      && (forall n :: n in m.selections.order && m.glob(n, pattern) ==> SelectionHolds(m, Lexer.Strip(n)))
    ensures AtomHolds(m, pattern) <==> SelectionHolds(m, pattern)
  {
    hide SelectionHolds, IsPattern;
    PatternsAreRead(pattern);
    assert ("1 of " + pattern)[5..] == pattern && ("all of " + pattern)[7..] == pattern;
  }

  predicate PatternChar(c: char) {
    'a' <= c <= 'z' || 'A' <= c <= 'Z' || '0' <= c <= '9' || c == '_' || c == '*' || c == '?' || c == '-'
  }

  lemma {:induction false} PatternsAreRead(pattern: string)
    requires pattern != "" && forall i :: 0 <= i < |pattern| ==> PatternChar(pattern[i])
    ensures IsQuantifier("1 of " + pattern, ONE_OF)
    ensures IsQuantifier("all of " + pattern, ALL_OF) && !IsQuantifier("all of " + pattern, ONE_OF)
    ensures !IsQuantifier(pattern, ONE_OF) && !IsQuantifier(pattern, ALL_OF)
  {
    var one, all := "1 of " + pattern, "all of " + pattern;
    assert one[..5] == "1 of " && one[5..] == pattern;
    assert all[..7] == "all of " && all[7..] == pattern;
    assert all[..5][0] == 'a' && ONE_OF[0] == '1';
    assert |pattern| >= 5 ==> pattern[..5][1] == pattern[1] && PatternChar(pattern[1]) && ONE_OF[1] == ' ';
    assert |pattern| >= 7 ==> pattern[..7][3] == pattern[3] && PatternChar(pattern[3]) && ALL_OF[3] == ' ';
  }

  // ---------------------------------------------------------------- trees

  function Conjoin(l: Verdict, r: Verdict): Verdict {
    if l.matched && r.matched then Verdict(true, l.reasons + r.reasons) else NO
  }

  function Disjoin(l: Verdict, r: Verdict): Verdict {
    if !l.matched && r.matched then Verdict(true, r.reasons) else l
  }

  /** The outcome of a derivation tree: every leaf is evaluated, the first exception wins. */
  function Eval(m: Matching, t: Tree): Outcome {
    match t
    case Atom(s) => EvalAtom(m, s)
    case Group(u) => Eval(m, u)
    case Not(u) =>
      var r := Eval(m, u);
      if r.Err? then r else Ok(Verdict(!r.value.matched, []))
    case And(l, r) =>
      var a, b := Eval(m, l), Eval(m, r);
      if a.Err? then a else if b.Err? then b else Ok(Conjoin(a.value, b.value))
    case Or(l, r) =>
      var a, b := Eval(m, l), Eval(m, r);
      if a.Err? then a else if b.Err? then b else Ok(Disjoin(a.value, b.value))
  }

  /** The boolean meaning of a condition. */
  predicate Holds(m: Matching, c: Condition) {
    match c
    case Name(s) => AtomHolds(m, s)
    case Negation(a) => !Holds(m, a)
    case Conjunction(l, r) => Holds(m, l) && Holds(m, r)
    case Disjunction(l, r) => Holds(m, l) || Holds(m, r)
  }

  /** The atoms of a condition outside every negation. */
  function Asserted(c: Condition): set<string> {
    match c
    case Name(s) => {s}
    case Negation(_) => {}
    case Conjunction(l, r) => Asserted(l) + Asserted(r)
    case Disjunction(l, r) => Asserted(l) + Asserted(r)
  }

  ghost predicate Evidence(m: Matching, c: Condition, reason: string) {
    exists s :: s in Asserted(c) && AtomSupports(m, s, reason)
  }

  /**
  The verdict is the boolean meaning of the condition without its parentheses; a condition that
  does not match carries no reasons; and every reason cites a criterion that holds of the event,
  found through an atom outside every negation.
  */
  lemma {:induction false} EvalMeaning(m: Matching, t: Tree)
    requires Eval(m, t).Ok?
    ensures var v := Eval(m, t).value;
      && v.matched == Holds(m, Erase(t))
      && (!v.matched ==> v.reasons == [])
      && forall r :: r in v.reasons ==> Evidence(m, Erase(t), r)
  {
    hide EvalAtom, AtomHolds, AtomSupports;
    match t
    case Atom(s) => AtomMeaning(m, s);
    case Group(u) => EvalMeaning(m, u);
    case Not(u) => EvalMeaning(m, u);
    case And(l, r) => EvalMeaning(m, l); EvalMeaning(m, r);
    case Or(l, r) => EvalMeaning(m, l); EvalMeaning(m, r);
  }

  /** Whose reasons count: both of a conjunction, in order; the first that holds of a disjunction; no negation's. */
  lemma {:induction false} ReasonsByName(m: Matching, l: Tree, r: Tree)
    requires Eval(m, l).Ok? && Eval(m, r).Ok?
    ensures Eval(m, Not(l)).Ok? && Eval(m, Not(l)).value.reasons == []
    ensures Holds(m, Erase(l)) && Holds(m, Erase(r)) ==>
      Eval(m, And(l, r)) == Ok(Verdict(true, Eval(m, l).value.reasons + Eval(m, r).value.reasons))
    ensures Holds(m, Erase(l)) ==> Eval(m, Or(l, r)) == Eval(m, l)
    ensures !Holds(m, Erase(l)) ==> Eval(m, Or(l, r)) == Eval(m, r)
  {
    EvalMeaning(m, l);
    EvalMeaning(m, r);
    hide EvalAtom, AtomHolds;
  }

  /** Every selection that an atom of the condition consults is defined and well formed. */
  ghost predicate Resolvable(m: Matching, c: Condition) {
    forall s, name :: s in Symbols(c) && Consults(m, s, name) ==> Defined(m, name)
  }

  lemma {:induction false} AtomSucceeds(m: Matching, symbol: string)
    requires forall name :: Consults(m, symbol, name) ==> Defined(m, name)
    ensures EvalAtom(m, symbol).Ok?
  {
    hide EvalAny, EvalAll, Defined, Filter, IsPattern;
    if IsQuantifier(symbol, ONE_OF) {
      NamesSucceed(m, Candidates(m, symbol[|ONE_OF|..]));
    } else if IsQuantifier(symbol, ALL_OF) {
      NamesSucceed(m, Candidates(m, symbol[|ALL_OF|..]));
    } else {
      assert Consults(m, symbol, symbol);
      NamedSucceeds(m, symbol);
    }
  }

  lemma {:induction false} NamedSucceeds(m: Matching, name: string)
    requires Defined(m, name)
    ensures EvalNamed(m, name).Ok?
  {
    BranchesSucceed(m, name, m.selections.branches[name]);
  }

  lemma {:induction false} EvalSucceeds(m: Matching, t: Tree)
    requires Resolvable(m, Erase(t))
    ensures Eval(m, t).Ok?
  {
    hide EvalAtom, Consults, Defined;
    match t
    case Atom(s) => AtomSucceeds(m, s);
    case Group(u) => EvalSucceeds(m, u);
    case Not(u) => EvalSucceeds(m, u);
    case And(l, r) => EvalSucceeds(m, l); EvalSucceeds(m, r);
    case Or(l, r) => EvalSucceeds(m, l); EvalSucceeds(m, r);
  }

  // ---------------------------------------------------------------- the fused evaluator

  /**
  What evaluating while parsing must deliver, given what parsing alone would find: the outcome of
  the tree, with the position behind it, or some exception if parsing or evaluation fails.
  */
  predicate Fused(m: Matching, parse: Parse, r: Outcome, position: nat) {
    match parse
    case Fail => r.Err?
    case Done(t, next) => if Eval(m, t).Ok? then r == Eval(m, t) && position == next else r.Err?
  }

  /** An exception in the left operand is not healed by reading on. */
  lemma {:induction false} AndTailKeepsError(m: Matching, ts: seq<string>, left: Tree, p: nat)
    requires p <= |ts| && Eval(m, left).Err?
    ensures var r := AndTail(ts, left, p); r.Done? ==> Eval(m, r.tree).Err?
    decreases |ts| - p
  {
    hide EvalAtom;
    if Sees(ts, p, "and") && NotAt(ts, p + 1).Done? {
      var r := NotAt(ts, p + 1);
      AndTailKeepsError(m, ts, And(left, r.tree), r.next);
    }
  }

  lemma {:induction false} OrTailKeepsError(m: Matching, ts: seq<string>, left: Tree, p: nat)
    requires p <= |ts| && Eval(m, left).Err?
    ensures var r := OrTail(ts, left, p); r.Done? ==> Eval(m, r.tree).Err?
    decreases |ts| - p
  {
    hide EvalAtom;
    if Sees(ts, p, "or") && AndAt(ts, p + 1).Done? {
      var r := AndAt(ts, p + 1);
      OrTailKeepsError(m, ts, Or(left, r.tree), r.next);
    }
  }

  class ConditionEvaluator {
    const tokens: seq<string>
    const m: Matching
    var position: nat

    constructor (tokens: seq<string>, m: Matching)
      ensures this.tokens == tokens && this.m == m && position == 0
    {
      this.tokens := tokens;
      this.m := m;
      position := 0;
    }

    method ParsePrimary() returns (r: Outcome)
      requires position <= |tokens|
      modifies this
      ensures old(position) <= position <= |tokens|
      ensures Fused(m, PrimaryAt(tokens, old(position)), r, position)
      decreases |tokens| - position, 0
    {
      hide EvalAtom;
      if position == |tokens| {
        return Err(Syntax);
      }
      var symbol := tokens[position];
      if symbol == "(" {
        position := position + 1;
        r := ParseOr();
        if r.Err? {
          return;
        }
        if position == |tokens| || tokens[position] != ")" {
          return Err(Syntax);
        }
        position := position + 1;
        return;
      }
      if symbol == ")" {
        return Err(Syntax);
      }
      position := position + 1;
      r := EvaluateAtom(symbol);
    }

    method EvaluateAtom(symbol: string) returns (r: Outcome)
      ensures r == EvalAtom(m, symbol)
    {
      hide EvalAny, EvalAll, EvalNamed, Filter, IsPattern;
      if IsQuantifier(symbol, ONE_OF) {
        r := EvaluateAny(m, Candidates(m, symbol[|ONE_OF|..]));
      } else if IsQuantifier(symbol, ALL_OF) {
        r := EvaluateAll(m, Candidates(m, symbol[|ALL_OF|..]));
      } else {
        r := EvaluateNamed(m, symbol);
      }
    }

    method ParseNot() returns (r: Outcome)
      requires position <= |tokens|
      modifies this
      ensures old(position) <= position <= |tokens|
      ensures Fused(m, NotAt(tokens, old(position)), r, position)
      decreases |tokens| - position, 1
    {
      hide EvalAtom;
      if position < |tokens| && tokens[position] == "not" {
        position := position + 1;
        r := ParseNot();
        if r.Ok? {
          r := Ok(Verdict(!r.value.matched, []));
        }
      } else {
        r := ParsePrimary();
      }
    }

    method ParseAnd() returns (r: Outcome)
      requires position <= |tokens|
      modifies this
      ensures old(position) <= position <= |tokens|
      ensures Fused(m, AndAt(tokens, old(position)), r, position)
      decreases |tokens| - position, 2
    {
      hide EvalAtom;
      ghost var parsed := NotAt(tokens, position);
      r := ParseNot();
      if r.Err? {
        if parsed.Done? {
          AndTailKeepsError(m, tokens, parsed.tree, parsed.next);
        }
        return;
      }
      ghost var tree := parsed.tree;
      while position < |tokens| && tokens[position] == "and"
        invariant old(position) <= position <= |tokens|
        invariant r.Ok? && Eval(m, tree) == r
        invariant AndAt(tokens, old(position)) == AndTail(tokens, tree, position)
        decreases |tokens| - position
      {
        position := position + 1;
        parsed := NotAt(tokens, position);
        var right := ParseNot();
        if right.Err? {
          if parsed.Done? {
            AndTailKeepsError(m, tokens, And(tree, parsed.tree), parsed.next);
          }
          return right;
        }
        tree := And(tree, parsed.tree);
        r := Ok(Conjoin(r.value, right.value));
      }
    }

    method ParseOr() returns (r: Outcome)
      requires position <= |tokens|
      modifies this
      ensures old(position) <= position <= |tokens|
      ensures Fused(m, OrAt(tokens, old(position)), r, position)
      decreases |tokens| - position, 3
    {
      hide EvalAtom;
      ghost var parsed := AndAt(tokens, position);
      r := ParseAnd();
      if r.Err? {
        if parsed.Done? {
          OrTailKeepsError(m, tokens, parsed.tree, parsed.next);
        }
        return;
      }
      ghost var tree := parsed.tree;
      while position < |tokens| && tokens[position] == "or"
        invariant old(position) <= position <= |tokens|
        invariant r.Ok? && Eval(m, tree) == r
        invariant OrAt(tokens, old(position)) == OrTail(tokens, tree, position)
        decreases |tokens| - position
      {
        position := position + 1;
        parsed := AndAt(tokens, position);
        var right := ParseAnd();
        if right.Err? {
          if parsed.Done? {
            OrTailKeepsError(m, tokens, Or(tree, parsed.tree), parsed.next);
          }
          return right;
        }
        tree := Or(tree, parsed.tree);
        r := Ok(Disjoin(r.value, right.value));
      }
    }
  }

  /** `_evaluate_condition` succeeds exactly on texts of the grammar whose tree evaluates. */
  method EvaluateCondition(m: Matching, condition: string) returns (r: Outcome)
    ensures match ParseText(condition)
      case None => r.Err?
      case Some(t) => if Eval(m, t).Ok? then r == Eval(m, t) else r.Err?
  {
    hide EvalAtom, Lexer.Tokens, OrAt;
    var lexed := Lexer.Tokenize(condition);
    if lexed.Err? {
      return Err(Lexical);
    }
    var parser := new ConditionEvaluator(lexed.value, m);
    r := parser.ParseOr();
    if r.Ok? && parser.position != |parser.tokens| {
      return Err(Syntax);
    }
  }

  /**
  The whole promise, for every condition text whose selections are defined and well formed: the
  condition evaluates exactly when its tokens are derivable, and then to its boolean meaning.
  */
  lemma {:induction false} ConditionMeaning(m: Matching, condition: string, t: Tree)
    requires Lexer.Tokens(condition).Ok? && Resolvable(m, Erase(t))
    requires InOr(t) && Yield(t) == Lexer.Tokens(condition).value
    ensures ParseText(condition) == Some(t) && Eval(m, t).Ok?
    ensures Eval(m, t).value.matched == Holds(m, Erase(t))
    ensures !Eval(m, t).value.matched ==> Eval(m, t).value.reasons == []
    ensures forall r :: r in Eval(m, t).value.reasons ==> Evidence(m, Erase(t), r)
  {
    hide EvalAtom, Lexer.Tokens;
    ParsesExactly(Yield(t), t);
    EvalSucceeds(m, t);
    EvalMeaning(m, t);
  }
}
