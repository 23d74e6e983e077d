/**
The grammar of Sigma conditions, its recursive-descent parser without evaluation, and printing.

    or      ::= and ("or" and)*          and     ::= not ("and" not)*
    not     ::= "not" not | primary      primary ::= "(" or ")" | symbol

A symbol is any token except the parentheses and `not`; in primary position even `and` and
`or` are taken as selection names, as the original does.
*/
module SigmaGrammar {
  import opened Results
  import opened SigmaLexer

  // ---------------------------------------------------------------- derivation trees

  datatype Tree =
    | Atom(symbol: string)
    | Group(inner: Tree)
    | Not(arg: Tree)
    | And(left: Tree, right: Tree)
    | Or(left: Tree, right: Tree)

  predicate IsSymbol(s: string) { s !in {"(", ")", "not"} }

  predicate InPrimary(t: Tree)
    decreases t, 0
  {
    match t
    case Atom(s) => IsSymbol(s)
    case Group(u) => InOr(u)
    case _ => false
  }

  predicate InNot(t: Tree)
    decreases t, 1
  {
    if t.Not? then InNot(t.arg) else InPrimary(t)
  }

  predicate InAnd(t: Tree)
    decreases t, 2
  {
    if t.And? then InAnd(t.left) && InNot(t.right) else InNot(t)
  }

  predicate InOr(t: Tree)
    decreases t, 3
  {
    if t.Or? then InOr(t.left) && InAnd(t.right) else InAnd(t)
  }

  /** Each level of the grammar contains the tighter ones. */
  lemma {:induction false} Levels(t: Tree)
    ensures InPrimary(t) ==> InNot(t)
    ensures InNot(t) ==> InAnd(t)
    ensures InAnd(t) ==> InOr(t)
  {
    assert t.And? || t.Or? ==> !InPrimary(t);
    assert t.Or? ==> !InNot(t);
  }

  /** The token list that a derivation tree derives. */
  function Yield(t: Tree): (ts: seq<string>)
    ensures ts != []
  {
    match t
    case Atom(s) => [s]
    case Group(u) => ["("] + Yield(u) + [")"]
    case Not(u) => ["not"] + Yield(u)
    case And(l, r) => Yield(l) + ["and"] + Yield(r)
    case Or(l, r) => Yield(l) + ["or"] + Yield(r)
  }

  // ---------------------------------------------------------------- the parser

  datatype Parse = Fail | Done(tree: Tree, next: nat)

  predicate Sees(ts: seq<string>, p: nat, token: string) { p < |ts| && ts[p] == token }

  function PrimaryAt(ts: seq<string>, p: nat): (r: Parse)
    ensures r.Done? ==> p < r.next <= |ts|
    decreases |ts| - p, 0
  {
    if p >= |ts| then Fail
    else if ts[p] == "(" then
      var r := OrAt(ts, p + 1);
      if r.Done? && Sees(ts, r.next, ")") then Done(Group(r.tree), r.next + 1) else Fail
    else if ts[p] == ")" then Fail
    else Done(Atom(ts[p]), p + 1)
  }

  function NotAt(ts: seq<string>, p: nat): (r: Parse)
    ensures r.Done? ==> p < r.next <= |ts|
    decreases |ts| - p, 1
  {
    if Sees(ts, p, "not") then
      var r := NotAt(ts, p + 1);
      if r.Done? then Done(Not(r.tree), r.next) else Fail
    else PrimaryAt(ts, p)
  }

  function AndTail(ts: seq<string>, left: Tree, p: nat): (r: Parse)
    requires p <= |ts|
    ensures r.Done? ==> p <= r.next <= |ts|
    decreases |ts| - p, 2
  {
    if Sees(ts, p, "and") then
      var r := NotAt(ts, p + 1);
      if r.Done? then AndTail(ts, And(left, r.tree), r.next) else Fail
    else Done(left, p)
  }

  function AndAt(ts: seq<string>, p: nat): (r: Parse)
    ensures r.Done? ==> p < r.next <= |ts|
    decreases |ts| - p, 3
  {
    var r := NotAt(ts, p);
    if r.Done? then AndTail(ts, r.tree, r.next) else Fail
  }

  function OrTail(ts: seq<string>, left: Tree, p: nat): (r: Parse)
    requires p <= |ts|
    ensures r.Done? ==> p <= r.next <= |ts|
    decreases |ts| - p, 4
  {
    if Sees(ts, p, "or") then
      var r := AndAt(ts, p + 1);
      if r.Done? then OrTail(ts, Or(left, r.tree), r.next) else Fail
    else Done(left, p)
  }

  function OrAt(ts: seq<string>, p: nat): (r: Parse)
    ensures r.Done? ==> p < r.next <= |ts|
    decreases |ts| - p, 5
  {
    var r := AndAt(ts, p);
    if r.Done? then OrTail(ts, r.tree, r.next) else Fail
  }

  /** The derivation tree of a whole token list. */
  function ParseTokens(ts: seq<string>): Option<Tree> {
    var r := OrAt(ts, 0);
    if r.Done? && r.next == |ts| then Some(r.tree) else None
  }

  // ---------------------------------------------------------------- soundness

  lemma {:induction false} PrimarySound(ts: seq<string>, p: nat)
    ensures var r := PrimaryAt(ts, p);
      r.Done? && !Sees(ts, p, "not") ==> InPrimary(r.tree) && Yield(r.tree) == ts[p..r.next]
    decreases |ts| - p, 0
  {
    if Sees(ts, p, "(") {
      OrSound(ts, p + 1);
    }
  }

  lemma {:induction false} NotSound(ts: seq<string>, p: nat)
    ensures var r := NotAt(ts, p); r.Done? ==> InNot(r.tree) && Yield(r.tree) == ts[p..r.next]
    decreases |ts| - p, 1
  {
    if Sees(ts, p, "not") {
      NotSound(ts, p + 1);
    } else {
      PrimarySound(ts, p);
    }
  }

  lemma {:induction false} AndTailSound(ts: seq<string>, left: Tree, q: nat, p: nat)
    requires q <= p <= |ts| && InAnd(left) && Yield(left) == ts[q..p]
    ensures var r := AndTail(ts, left, p); r.Done? ==> InAnd(r.tree) && Yield(r.tree) == ts[q..r.next]
    decreases |ts| - p, 2
  {
    if Sees(ts, p, "and") {
      NotSound(ts, p + 1);
      var r := NotAt(ts, p + 1);
      if r.Done? {
        assert Yield(And(left, r.tree)) == ts[q..r.next];
        AndTailSound(ts, And(left, r.tree), q, r.next);
      }
    }
  }

  lemma {:induction false} AndSound(ts: seq<string>, p: nat)
    ensures var r := AndAt(ts, p); r.Done? ==> InAnd(r.tree) && Yield(r.tree) == ts[p..r.next]
    decreases |ts| - p, 3
  {
    NotSound(ts, p);
    var r := NotAt(ts, p);
    if r.Done? {
      Levels(r.tree);
      AndTailSound(ts, r.tree, p, r.next);
    }
  }

  lemma {:induction false} OrTailSound(ts: seq<string>, left: Tree, q: nat, p: nat)
    requires q <= p <= |ts| && InOr(left) && Yield(left) == ts[q..p]
    ensures var r := OrTail(ts, left, p); r.Done? ==> InOr(r.tree) && Yield(r.tree) == ts[q..r.next]
    decreases |ts| - p, 4
  {
    if Sees(ts, p, "or") {
      AndSound(ts, p + 1);
      var r := AndAt(ts, p + 1);
      if r.Done? {
        assert Yield(Or(left, r.tree)) == ts[q..r.next];
        OrTailSound(ts, Or(left, r.tree), q, r.next);
      }
    }
  }

  lemma {:induction false} OrSound(ts: seq<string>, p: nat)
    ensures var r := OrAt(ts, p); r.Done? ==> InOr(r.tree) && Yield(r.tree) == ts[p..r.next]
    decreases |ts| - p, 5
  {
    AndSound(ts, p);
    var r := AndAt(ts, p);
    if r.Done? {
      Levels(r.tree);
      OrTailSound(ts, r.tree, p, r.next);
    }
  }

  // ---------------------------------------------------------------- completeness

  /** `t` derives the tokens from `p` to `q`. */
  ghost predicate Spans(ts: seq<string>, t: Tree, p: nat, q: nat) {
    p <= q <= |ts| && Yield(t) == ts[p..q]
  }

  /** How the span of a binary node splits at its operator. */
  lemma {:induction false} SplitSpan(ts: seq<string>, l: Tree, op: string, r: Tree, p: nat, q: nat) returns (m: nat)
    requires p <= q <= |ts| && Yield(l) + [op] + Yield(r) == ts[p..q]
    ensures p < m < q && Sees(ts, m, op) && Spans(ts, l, p, m) && Spans(ts, r, m + 1, q)
  {
    var n := |Yield(l)|;
    m := p + n;
    assert ts[p..q][..n] == Yield(l);
    assert ts[p..q][n] == op;
    assert ts[p..q][n + 1..] == Yield(r);
  }

  lemma {:induction false} InnerSpan(ts: seq<string>, p: nat, q: nat)
    requires p + 2 <= q <= |ts|
    ensures ts[p..q][1..q - p - 1] == ts[p + 1..q - 1]
  {
    var inner := ts[p..q][1..q - p - 1];
    assert forall i :: 0 <= i < q - p - 2 ==> inner[i] == ts[p + 1 + i];
  }

  lemma {:induction false} PrimaryComplete(ts: seq<string>, t: Tree, p: nat, q: nat)
    requires InPrimary(t) && Spans(ts, t, p, q)
    ensures PrimaryAt(ts, p) == Done(t, q) && !Sees(ts, p, "not")
    decreases t, 0
  {
    assert ts[p..q][0] == ts[p];
    match t
    case Atom(s) =>
    case Group(u) =>
      assert |Yield(t)| == q - p == |Yield(u)| + 2;
      assert Yield(u) == Yield(t)[1..q - p - 1];
      InnerSpan(ts, p, q);
      assert ts[p..q][q - p - 1] == ts[q - 1] == ")";
      OrComplete(ts, u, p + 1, q - 1);
  }

  lemma {:induction false} NotComplete(ts: seq<string>, t: Tree, p: nat, q: nat)
    requires InNot(t) && Spans(ts, t, p, q)
    ensures NotAt(ts, p) == Done(t, q)
    decreases t, 1
  {
    if t.Not? {
      assert ts[p..q][0] == ts[p];
      assert ts[p..q][1..] == ts[p + 1..q];
      NotComplete(ts, t.arg, p + 1, q);
    } else {
      PrimaryComplete(ts, t, p, q);
    }
  }

  lemma {:induction false} AndComplete(ts: seq<string>, t: Tree, p: nat, q: nat)
    requires InAnd(t) && Spans(ts, t, p, q)
    ensures AndAt(ts, p) == AndTail(ts, t, q)
    decreases t, 2
  {
    if t.And? {
      var m := SplitSpan(ts, t.left, "and", t.right, p, q);
      AndComplete(ts, t.left, p, m);
      NotComplete(ts, t.right, m + 1, q);
    } else {
      NotComplete(ts, t, p, q);
    }
  }

  lemma {:induction false} OrComplete(ts: seq<string>, t: Tree, p: nat, q: nat)
    requires InOr(t) && Spans(ts, t, p, q) && !Sees(ts, q, "and")
    ensures OrAt(ts, p) == OrTail(ts, t, q)
    decreases t, 3
  {
    if t.Or? {
      var m := SplitSpan(ts, t.left, "or", t.right, p, q);
      OrComplete(ts, t.left, p, m);
      AndComplete(ts, t.right, m + 1, q);
    } else {
      AndComplete(ts, t, p, q);
    }
  }

  /** The parser accepts exactly the language of the grammar, and the grammar is unambiguous. */
  lemma {:induction false} ParsesExactly(ts: seq<string>, t: Tree)
    ensures ParseTokens(ts) == Some(t) <==> InOr(t) && Yield(t) == ts
  {
    assert ts[0..|ts|] == ts;
    OrSound(ts, 0);
    if InOr(t) && Yield(t) == ts {
      OrComplete(ts, t, 0, |ts|);
    }
  }

  lemma {:induction false} AtomsAnywhere(a: string)
    requires a !in {"(", ")", "not"}
    ensures InPrimary(Atom(a)) && InNot(Atom(a)) && InAnd(Atom(a)) && InOr(Atom(a)) && Yield(Atom(a)) == [a]
  {
  }

  /** The connectives by name: `not` binds tighter than `and`, which binds tighter than `or`. */
  lemma {:induction false} PrecedenceByName(a: string, b: string, c: string)
    requires a !in {"(", ")", "not"} && b !in {"(", ")", "not"} && c !in {"(", ")", "not"}
    ensures ParseTokens([a, "or", b, "and", "not", c]) == Some(Or(Atom(a), And(Atom(b), Not(Atom(c)))))
    ensures ParseTokens([a, "and", b, "or", c]) == Some(Or(And(Atom(a), Atom(b)), Atom(c)))
    ensures ParseTokens(["(", a, "or", b, ")", "and", c]) == Some(And(Group(Or(Atom(a), Atom(b))), Atom(c)))
  {
    AtomsAnywhere(a);
    AtomsAnywhere(b);
    AtomsAnywhere(c);
    hide ParseTokens;
    var not := Not(Atom(c));
    var bound := And(Atom(b), not);
    assert InNot(not) && InAnd(bound) && InOr(Or(Atom(a), bound));
    assert Yield(not) == ["not", c] && Yield(bound) == [b, "and", "not", c];
    ParsesExactly([a, "or", b, "and", "not", c], Or(Atom(a), bound));
    var both := And(Atom(a), Atom(b));
    assert InAnd(both) && InOr(both) && Yield(both) == [a, "and", b];
    ParsesExactly([a, "and", b, "or", c], Or(both, Atom(c)));
    var either := Or(Atom(a), Atom(b));
    var group := Group(either);
    assert InOr(either) && InPrimary(group) && InNot(group) && InAnd(group);
    assert Yield(either) == [a, "or", b] && Yield(group) == ["(", a, "or", b, ")"];
    var all := And(group, Atom(c));
    assert InAnd(all) && InOr(all) && Yield(all) == Yield(group) + ["and"] + [c];
    assert Yield(all) == ["(", a, "or", b, ")", "and", c];
    ParsesExactly(["(", a, "or", b, ")", "and", c], all);
  }

  /** Both connectives associate to the left. */
  lemma {:induction false} ConnectivesAssociateLeft(a: string, b: string, c: string)
    requires a !in {"(", ")", "not"} && b !in {"(", ")", "not"} && c !in {"(", ")", "not"}
    ensures ParseTokens([a, "or", b, "or", c]) == Some(Or(Or(Atom(a), Atom(b)), Atom(c)))
    ensures ParseTokens([a, "and", b, "and", c]) == Some(And(And(Atom(a), Atom(b)), Atom(c)))
  {
    AtomsAnywhere(a);
    AtomsAnywhere(b);
    AtomsAnywhere(c);
    hide ParseTokens;
    var either, both := Or(Atom(a), Atom(b)), And(Atom(a), Atom(b));
    assert InOr(either) && Yield(either) == [a, "or", b];
    ParsesExactly([a, "or", b, "or", c], Or(either, Atom(c)));
    assert InAnd(both) && Yield(both) == [a, "and", b];
    assert InAnd(And(both, Atom(c))) && InOr(And(both, Atom(c)));
    ParsesExactly([a, "and", b, "and", c], And(both, Atom(c)));
  }

  // ---------------------------------------------------------------- printing with few parentheses

  /** A condition as its author means it, without parentheses. */
  datatype Condition =
    | Name(symbol: string)
    | Negation(arg: Condition)
    | Conjunction(left: Condition, right: Condition)
    | Disjunction(left: Condition, right: Condition)

  function Erase(t: Tree): Condition {
    match t
    case Atom(s) => Name(s)
    case Group(u) => Erase(u)
    case Not(u) => Negation(Erase(u))
    case And(l, r) => Conjunction(Erase(l), Erase(r))
    case Or(l, r) => Disjunction(Erase(l), Erase(r))
  }

  function AsPrimary(c: Condition): Tree
    decreases c, 0
  {
    match c
    case Name(s) => Atom(s)
    case Negation(a) => Group(Not(AsNot(a)))
    case Conjunction(l, r) => Group(And(AsAnd(l), AsNot(r)))
    case Disjunction(l, r) => Group(Or(AsOr(l), AsAnd(r)))
  }

  function AsNot(c: Condition): Tree
    decreases c, 1
  {
    if c.Negation? then Not(AsNot(c.arg)) else AsPrimary(c)
  }

  function AsAnd(c: Condition): Tree
    decreases c, 2
  {
    if c.Conjunction? then And(AsAnd(c.left), AsNot(c.right)) else AsNot(c)
  }

  function AsOr(c: Condition): Tree
    decreases c, 3
  {
    if c.Disjunction? then Or(AsOr(c.left), AsAnd(c.right)) else AsAnd(c)
  }

  function Symbols(c: Condition): set<string> {
    match c
    case Name(s) => {s}
    case Negation(a) => Symbols(a)
    case Conjunction(l, r) => Symbols(l) + Symbols(r)
    case Disjunction(l, r) => Symbols(l) + Symbols(r)
  }

  lemma {:induction false} PrintedTree(c: Condition)
    requires forall s :: s in Symbols(c) ==> IsSymbol(s)
    ensures InPrimary(AsPrimary(c)) && InNot(AsNot(c)) && InAnd(AsAnd(c)) && InOr(AsOr(c))
    ensures Erase(AsPrimary(c)) == Erase(AsNot(c)) == Erase(AsAnd(c)) == Erase(AsOr(c)) == c
  {
    match c {
      case Name(s) =>
        Levels(Atom(s));
      case Negation(a) =>
        PrintedTree(a);
        Levels(Not(AsNot(a)));
      case Conjunction(l, r) =>
        PrintedTree(l);
        PrintedTree(r);
        Levels(And(AsAnd(l), AsNot(r)));
      case Disjunction(l, r) =>
        PrintedTree(l);
        PrintedTree(r);
    }
    Levels(AsPrimary(c));
  }

  function Groups(t: Tree): nat {
    match t
    case Atom(_) => 0
    case Group(u) => 1 + Groups(u)
    case Not(u) => Groups(u)
    case And(l, r) => Groups(l) + Groups(r)
    case Or(l, r) => Groups(l) + Groups(r)
  }

  lemma {:induction false} WeakerContextsAreCheaper(c: Condition)
    ensures Groups(AsOr(c)) <= Groups(AsAnd(c)) <= Groups(AsNot(c)) <= Groups(AsPrimary(c)) <= 1 + Groups(AsOr(c))
  {
  }

  /** No derivation of the same condition has fewer parentheses, in any context. */
  lemma {:induction false} FewestParentheses(t: Tree)
    ensures InPrimary(t) ==> Groups(AsPrimary(Erase(t))) <= Groups(t)
    ensures InNot(t) ==> Groups(AsNot(Erase(t))) <= Groups(t)
    ensures InAnd(t) ==> Groups(AsAnd(Erase(t))) <= Groups(t)
    ensures InOr(t) ==> Groups(AsOr(Erase(t))) <= Groups(t)
  {
    WeakerContextsAreCheaper(Erase(t));
    match t
    case Atom(s) =>
    case Group(u) => FewestParentheses(u);
    case Not(u) => FewestParentheses(u);
    case And(l, r) => FewestParentheses(l); FewestParentheses(r);
    case Or(l, r) => FewestParentheses(l); FewestParentheses(r);
  }

  // ---------------------------------------------------------------- print, tokenize, parse

  function PrintCondition(c: Condition): string { Spaced(Yield(AsOr(c))) }

  function ParseText(text: string): Option<Tree> {
    var ts := Tokens(text);
    if ts.Ok? then ParseTokens(ts.value) else None
  }

  lemma {:induction false} FixedTokens()
    ensures IsToken("(") && IsToken(")") && IsToken("and") && IsToken("or") && IsToken("not")
    ensures !Starts("and", "of") && !Starts("or", "of") && !Starts(")", "of")
    ensures forall w :: w in {"(", ")", "and", "or", "not"} ==> !IsQuantifierWord(w)
  {
    hide IsToken;
    FixedToken("(");
    FixedToken(")");
    FixedToken("and");
    FixedToken("or");
    FixedToken("not");
    assert Lower("or"[..2])[1] == 'r' && Lower("and"[..2])[1] == 'n';
    forall w | w in {"(", ")", "and", "or", "not"} ensures !IsQuantifierWord(w) {
      assert Lower(w)[0] == w[0] && (|w| > 1 ==> Lower(w)[1] == w[1]);
    }
  }

  lemma {:induction false} FixedToken(w: string)
    requires w in {"(", ")", "and", "or", "not"}
    ensures IsToken(w)
  {
    assert Lower(w[..1])[0] == w[0];
    assert Quantified(w, "1").None?;
    if |w| == 1 {
      assert !Starts(w, "and") && !Starts(w, "or") && !Starts(w, "not") && !Starts(w, "all");
      assert Collapse(w[1..]) == "";
    } else {
      FixedWord(w);
    }
  }

  lemma {:induction false} FixedWord(w: string)
    requires w in KEYWORDS
    ensures IsToken(w)
  {
    assert w[..|w|] == w;
    SolidCollapse(w);
    hide Blank, NameRun, Collapse;
    assert Lower(w) == w;
    assert Lower(w[..1])[0] == w[0] && Lower(w[..2])[0] == w[0] && Lower(w[..2])[1] == w[1];
    assert !Starts(w, "1") && !Starts(w, "all");
  }

  lemma {:induction false} SolidCollapse(s: string)
    requires forall i :: 0 <= i < |s| ==> !IsSpace(s[i])
    ensures Collapse(s) == s
  {
    hide IsSpace;
    if s != "" {
      SolidCollapse(s[1..]);
    }
  }

  /** Joining two printable lists at a word that no quantifier word can absorb. */
  lemma {:induction false} PrintableJoin(a: seq<string>, w: string, b: seq<string>)
    requires Printable(a) && Printable(b) && w in {")", "and", "or"}
    ensures Printable(a + [w] + b)
  {
    hide IsToken, Starts, IsQuantifierWord;
    FixedTokens();
    var ts := a + [w] + b;
    forall i | 0 <= i < |ts| - 1 && IsQuantifierWord(ts[i]) ensures !Starts(ts[i + 1], "of") {
      if i < |a| - 1 {
        assert ts[i] == a[i] && ts[i + 1] == a[i + 1];
      } else if i > |a| {
        var j := i - |a| - 1;
        assert ts[i] == b[j] && ts[i + 1] == b[j + 1];
      }
    }
  }

  lemma {:induction false} PrintablePrefix(w: string, b: seq<string>)
    requires Printable(b) && w in {"(", "not"}
    ensures Printable([w] + b)
  {
    hide IsToken, Starts, IsQuantifierWord;
    FixedTokens();
    var ts := [w] + b;
    forall i | 0 <= i < |ts| - 1 && IsQuantifierWord(ts[i]) ensures !Starts(ts[i + 1], "of") {
      assert i > 0 && ts[i] == b[i - 1] && ts[i + 1] == b[i];
    }
  }

  function TreeSymbols(t: Tree): set<string> { Symbols(Erase(t)) }

  lemma {:induction false} YieldIsPrintable(t: Tree)
    requires forall s :: s in TreeSymbols(t) ==> IsToken(s)
    ensures Printable(Yield(t))
  {
    hide IsToken, Starts, IsQuantifierWord;
    match t
    case Atom(s) =>
    case Group(u) =>
      YieldIsPrintable(u);
      PrintablePrefix("(", Yield(u));
      PrintableJoin(["("] + Yield(u), ")", []);
      assert ["("] + Yield(u) + [")"] + [] == Yield(t);
    case Not(u) =>
      YieldIsPrintable(u);
      PrintablePrefix("not", Yield(u));
    case And(l, r) =>
      YieldIsPrintable(l);
      YieldIsPrintable(r);
      PrintableJoin(Yield(l), "and", Yield(r));
    case Or(l, r) =>
      YieldIsPrintable(l);
      YieldIsPrintable(r);
      PrintableJoin(Yield(l), "or", Yield(r));
  }

  /** Printing any condition, tokenizing and parsing the text gives back that condition. */
  lemma {:induction false} PrintParseRoundTrip(c: Condition)
    requires forall s :: s in Symbols(c) ==> IsSymbol(s) && IsToken(s)
    ensures ParseText(PrintCondition(c)) == Some(AsOr(c)) && Erase(AsOr(c)) == c
  {
    hide IsToken, IsSymbol;
    var t := AsOr(c);
    PrintedTree(c);
    YieldIsPrintable(t);
    ScanOfSpaced(Yield(t));
    ParsesExactly(Yield(t), t);
  }
}
