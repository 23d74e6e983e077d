/**
The tokenizer of the Sigma condition language.

The original drives one regular expression over the text.  Its alternatives never need to
backtrack (no alternative starts with white space and every repetition is followed by a
character outside its class), so a match is a deterministic scan.  `\b` after a keyword is
modelled as "the next character would not extend a name by a word character": on the texts
where the two differ, the name alternative produces the same token.
*/
module SigmaLexer {
  import opened Results

  datatype LexError = Unsupported(near: string) | EmptyCondition

  predicate IsSpace(c: char) {
    c in {' ', '\t', '\n', '\r', '\U{0B}', '\U{0C}', '\U{1C}', '\U{1D}', '\U{1E}', '\U{1F}', '\U{85}', '\U{A0}',
          '\U{1680}', '\U{2028}', '\U{2029}', '\U{202F}', '\U{205F}', '\U{3000}'}
    || '\U{2000}' <= c <= '\U{200A}'
  }

  predicate IsAsciiWord(c: char) {
    'a' <= c <= 'z' || 'A' <= c <= 'Z' || '0' <= c <= '9' || c == '_'
  }

  /** The four letters outside ASCII that case-insensitive matching adds to `[a-zA-Z]`. */
  predicate IsCaseVariant(c: char) {
    c in {'\U{0130}', '\U{0131}', '\U{017F}', '\U{212A}'}
  }

  predicate IsWordChar(c: char) { IsAsciiWord(c) || IsCaseVariant(c) }

  predicate IsGlobChar(c: char) { c == '*' || c == '?' || c == '-' }

  predicate IsNameChar(c: char) { IsWordChar(c) || IsGlobChar(c) }

  function LowerChar(c: char): char {
    if 'A' <= c <= 'Z' then (c as int - 'A' as int + 'a' as int) as char else c
  }

  function Lower(s: string): (r: string)
    ensures |r| == |s|
    ensures forall i :: 0 <= i < |s| ==> r[i] == LowerChar(s[i])
  {
    seq(|s|, i requires 0 <= i < |s| => LowerChar(s[i]))
  }

  const KEYWORDS: set<string> := {"and", "or", "not"}

  // ---------------------------------------------------------------- scanning
  // Every scanner works on the text still to be read.

  /** The length of the white space that `s` starts with. */
  function Blank(s: string): (n: nat)
    ensures n <= |s|
    ensures forall k :: 0 <= k < n ==> IsSpace(s[k])
    ensures n < |s| ==> !IsSpace(s[n])
  {
    if s != "" && IsSpace(s[0]) then 1 + Blank(s[1..]) else 0
  }

  /** `str.strip()` */
  function Strip(s: string): string {
    TrimEnd(s[Blank(s)..])
  }

  function TrimEnd(s: string): string {
    if s != "" && IsSpace(s[|s| - 1]) then TrimEnd(s[..|s| - 1]) else s
  }

  /** The length of the run of name characters that `s` starts with. */
  function NameRun(s: string): (n: nat)
    ensures n <= |s|
    ensures forall k :: 0 <= k < n ==> IsNameChar(s[k])
    ensures n < |s| ==> !IsNameChar(s[n])
  {
    if s != "" && IsNameChar(s[0]) then 1 + NameRun(s[1..]) else 0
  }

  /** Whether `s` starts with the lower-case `word`, in any case. */
  predicate Starts(s: string, word: string) {
    |word| <= |s| && Lower(s[..|word|]) == word
  }

  /** The length of a match of `\s+ NAME` at the start of `s`. */
  function Pattern(s: string): (r: Option<nat>)
    ensures r.Some? ==> 2 <= r.value <= |s|
  {
    var b := Blank(s);
    var n := NameRun(s[b..]);
    if b == 0 || n == 0 then None else Some(b + n)
  }

  /** The length of a match of `\s+ of \s+ NAME` at the start of `s`. */
  function OfPattern(s: string): (r: Option<nat>)
    ensures r.Some? ==> 5 <= r.value <= |s|
  {
    var a := Blank(s);
    if a == 0 || !Starts(s[a..], "of") then None else
    var p := Pattern(s[a + 2..]);
    if p.None? then None else Some(a + 2 + p.value)
  }

  /** The length of a match of `word \s+ of \s+ NAME` at the start of `s`. */
  function Quantified(s: string, word: string): (r: Option<nat>)
    ensures r.Some? ==> |word| + 5 <= r.value <= |s|
  {
    if !Starts(s, word) then None else
    var p := OfPattern(s[|word|..]);
    if p.None? then None else Some(|word| + p.value)
  }

  predicate Keyword(s: string, word: string) {
    Starts(s, word) && (|word| < |s| ==> !IsWordChar(s[|word|]))
  }

  /** The length of the token that `s` starts with, if it starts with one. */
  function TokenLength(s: string): (r: Option<nat>)
    ensures r.Some? ==> 0 < r.value <= |s|
  {
    if Quantified(s, "1").Some? then Quantified(s, "1")
    else if Quantified(s, "all").Some? then Quantified(s, "all")
    else if Keyword(s, "and") then Some(3)
    else if Keyword(s, "or") then Some(2)
    else if Keyword(s, "not") then Some(3)
    else if s != "" && (s[0] == '(' || s[0] == ')') then Some(1)
    else if NameRun(s) > 0 then Some(NameRun(s))
    else None
  }

  /** `re.sub(r"\s+", " ", s)` */
  function Collapse(s: string): string
    decreases |s|
  {
    if s == "" then ""
    else if IsSpace(s[0]) then " " + Collapse(s[Blank(s)..])
    else [s[0]] + Collapse(s[1..])
  }

  function Normalize(group: string): string {
    var token := Collapse(group);
    if Lower(token) in KEYWORDS then Lower(token) else token
  }

  /** The tokens of a text, which may be blank. */
  function Scan(s: string): Result<seq<string>, LexError>
    decreases |s|
  {
    var text := s[Blank(s)..];
    if text == "" then Ok([]) else
    match TokenLength(text)
    case None => Err(Unsupported(s))
    case Some(n) =>
      var rest := Scan(text[n..]);
      if rest.Err? then rest else Ok([Normalize(text[..n])] + rest.value)
  }

  function Tokens(condition: string): Result<seq<string>, LexError> {
    var r := Scan(condition);
    if r == Ok([]) then Err(EmptyCondition) else r
  }

  /** How one token found at `start` splits the scan of the text from `position` on. */
  lemma {:induction false} ScanSplits(s: string, position: nat, start: nat)
    requires position <= |s| && start == position + Blank(s[position..])
    ensures start == |s| ==> Scan(s[position..]) == Ok([])
    ensures start < |s| && TokenLength(s[start..]).None? ==> Scan(s[position..]) == Err(Unsupported(s[position..]))
    ensures start < |s| && TokenLength(s[start..]).Some? ==>
              var end := start + TokenLength(s[start..]).value;
              var rest := Scan(s[end..]);
              Scan(s[position..]) == if rest.Err? then rest else Ok([Normalize(s[start..end])] + rest.value)
  {
    hide TokenLength, Normalize, Blank;
    assert s[position..][Blank(s[position..])..] == s[start..];
    if start < |s| && TokenLength(s[start..]).Some? {
      var n := TokenLength(s[start..]).value;
      assert s[start..][..n] == s[start..start + n];
      assert s[start..][n..] == s[start + n..];
    }
  }

  /** `_tokenize_condition`. */
  method Tokenize(condition: string) returns (r: Result<seq<string>, LexError>)
    ensures r == Tokens(condition)
  {
    hide TokenLength, Normalize, Scan, Blank;
    var tokens: seq<string> := [];
    var position := 0;
    assert condition[0..] == condition;
    while position < |condition|
      invariant position <= |condition|
      invariant var rest := Scan(condition[position..]);
        if rest.Err? then Scan(condition) == rest
        else Scan(condition).Ok? && Scan(condition).value == tokens + rest.value
      invariant position > 0 ==> tokens != []
    {
      var start := position + Blank(condition[position..]);
      ScanSplits(condition, position, start);
      var matched := TokenLength(condition[start..]);
      if matched.None? {
        if start == |condition| {
          break;
        }
        return Err(Unsupported(condition[position..]));
      }
      var end := start + matched.value;
      tokens := tokens + [Normalize(condition[start..end])];
      position := end;
    }
    ScanSplits(condition, position, |condition|);
    assert tokens + [] == tokens;
    return if tokens == [] then Err(EmptyCondition) else Ok(tokens);
  }

  // ---------------------------------------------------------------- which texts lex

  predicate IsLexable(c: char) { IsSpace(c) || IsNameChar(c) || c == '(' || c == ')' }

  /** A token is found exactly where a name or a parenthesis starts, and only consumes lexable text. */
  lemma {:induction false} TokenShape(s: string)
    requires s != "" && !IsSpace(s[0])
    ensures TokenLength(s).Some? <==> IsLexable(s[0])
    ensures TokenLength(s).Some? ==> forall k :: 0 <= k < TokenLength(s).value ==> IsLexable(s[k])
  {
    ShapeOfWord(s, "1");
    ShapeOfWord(s, "all");
    ShapeOfWord(s, "and");
    ShapeOfWord(s, "or");
    ShapeOfWord(s, "not");
    ShapeOfQuantified(s, "1");
    ShapeOfQuantified(s, "all");
  }

  lemma {:induction false} ShapeOfWord(s: string, word: string)
    requires forall c :: c in word ==> 'a' <= c <= 'z' || '0' <= c <= '9'
    ensures Starts(s, word) ==> forall k :: 0 <= k < |word| ==> IsNameChar(s[k])
  {
    if Starts(s, word) {
      forall k | 0 <= k < |word| ensures IsNameChar(s[k]) {
        assert word[k] in word;
        assert LowerChar(s[..|word|][k]) == word[k];
      }
    }
  }

  lemma {:induction false} ShapeOfPattern(s: string)
    ensures var r := Pattern(s); r.Some? ==> forall k :: 0 <= k < r.value ==> IsLexable(s[k])
  {
    var b := Blank(s);
    assert forall k :: b <= k < |s| ==> s[b..][k - b] == s[k];
  }

  lemma {:induction false} ShapeOfOfPattern(s: string)
    ensures var r := OfPattern(s); r.Some? ==> forall k :: 0 <= k < r.value ==> IsLexable(s[k])
  {
    hide Pattern;
    if OfPattern(s).Some? {
      var a := Blank(s);
      ShapeOfWord(s[a..], "of");
      ShapeOfPattern(s[a + 2..]);
      assert forall k :: a <= k < a + 2 ==> s[a..][k - a] == s[k];
      assert forall k :: a + 2 <= k < |s| ==> s[a + 2..][k - a - 2] == s[k];
    }
  }

  lemma {:induction false} ShapeOfQuantified(s: string, word: string)
    requires forall c :: c in word ==> 'a' <= c <= 'z' || '0' <= c <= '9'
    ensures var r := Quantified(s, word); r.Some? ==> forall k :: 0 <= k < r.value ==> IsLexable(s[k])
  {
    hide OfPattern;
    if Quantified(s, word).Some? {
      ShapeOfWord(s, word);
      ShapeOfOfPattern(s[|word|..]);
      assert forall k :: |word| <= k < |s| ==> s[|word|..][k - |word|] == s[k];
    }
  }

  predicate AllLexable(s: string) { forall i :: 0 <= i < |s| ==> IsLexable(s[i]) }

  lemma {:induction false} LexableParts(a: string, b: string)
    ensures AllLexable(a + b) <==> AllLexable(a) && AllLexable(b)
  {
    if AllLexable(a + b) {
      assert forall i :: 0 <= i < |a| ==> a[i] == (a + b)[i];
      assert forall i :: 0 <= i < |b| ==> b[i] == (a + b)[|a| + i];
    }
  }

  lemma {:induction false} ScansExactly(s: string)
    ensures Scan(s).Ok? <==> AllLexable(s)
    decreases |s|
  {
    hide TokenLength, Normalize, IsLexable, Scan, Blank, AllLexable, IsSpace;
    var b := Blank(s);
    var text := s[b..];
    assert s[0..] == s == s[..b] + text;
    ScanSplits(s, 0, b);
    LexableParts(s[..b], text);
    BlankIsLexable(s[..b]);
    if text != "" {
      TokenShape(text);
      if TokenLength(text).Some? {
        var n := TokenLength(text).value;
        assert text[n..] == s[b + n..];
        ScansExactly(text[n..]);
        TextSplits(text, n);
      } else {
        Unlexable(text);
      }
    } else {
      Empty();
    }
  }

  lemma {:induction false} Empty() ensures AllLexable("") {}

  lemma {:induction false} Unlexable(text: string)
    requires text != "" && !IsLexable(text[0])
    ensures !AllLexable(text)
  {
  }

  lemma {:induction false} TextSplits(text: string, n: nat)
    requires n <= |text| && forall k :: 0 <= k < n ==> IsLexable(text[k])
    ensures AllLexable(text) <==> AllLexable(text[n..])
  {
    assert text == text[..n] + text[n..];
    LexableParts(text[..n], text[n..]);
  }

  lemma {:induction false} BlankIsLexable(s: string)
    requires forall k :: 0 <= k < |s| ==> IsSpace(s[k])
    ensures AllLexable(s)
  {
  }

  /** The tokenizer accepts a text exactly when every character is lexable and one is not blank. */
  lemma {:induction false} LexesExactly(s: string)
    ensures Tokens(s).Ok? <==> AllLexable(s) && exists i :: 0 <= i < |s| && !IsSpace(s[i])
  {
    hide TokenLength, Normalize;
    ScansExactly(s);
    assert Blank(s) < |s| ==> !IsSpace(s[Blank(s)]);
  }

  // ---------------------------------------------------------------- nothing is lost or invented

  /** What a text says once white space and letter case are disregarded. */
  function Ink(s: string): string {
    if s == "" then "" else (if IsSpace(s[0]) then "" else [LowerChar(s[0])]) + Ink(s[1..])
  }

  function Concat(ts: seq<string>): string {
    if ts == [] then "" else ts[0] + Concat(ts[1..])
  }

  lemma {:induction false} InkAppend(a: string, b: string)
    ensures Ink(a + b) == Ink(a) + Ink(b)
  {
    if a == "" {
      assert a + b == b;
    } else {
      assert (a + b)[1..] == a[1..] + b;
      InkAppend(a[1..], b);
    }
  }

  lemma {:induction false} InkOfBlank(s: string)
    requires forall k :: 0 <= k < |s| ==> IsSpace(s[k])
    ensures Ink(s) == ""
  {
    if s != "" {
      InkOfBlank(s[1..]);
    }
  }

  lemma {:induction false} InkOfLower(s: string)
    ensures Ink(Lower(s)) == Ink(s)
  {
    if s != "" {
      assert Lower(s)[1..] == Lower(s[1..]);
      InkOfLower(s[1..]);
    }
  }

  lemma {:induction false} InkOfCollapse(s: string)
    ensures Ink(Collapse(s)) == Ink(s)
    decreases |s|
  {
    if s == "" {
    } else if IsSpace(s[0]) {
      var b := Blank(s);
      assert s == s[..b] + s[b..];
      InkAppend(s[..b], s[b..]);
      InkOfBlank(s[..b]);
      InkOfCollapse(s[b..]);
      InkAppend(" ", Collapse(s[b..]));
      InkOfBlank(" ");
    } else {
      InkOfCollapse(s[1..]);
      assert Collapse(s)[1..] == Collapse(s[1..]);
    }
  }

  lemma {:induction false} InkOfNormalize(group: string)
    ensures Ink(Normalize(group)) == Ink(group)
  {
    InkOfCollapse(group);
    InkOfLower(Collapse(group));
  }

  /** The tokens say what the text says: no character is dropped, added or reordered. */
  lemma {:induction false} ScanConserves(s: string)
    ensures Scan(s).Ok? ==> Ink(Concat(Scan(s).value)) == Ink(s)
    decreases |s|
  {
    hide TokenLength, Normalize, Scan, Blank, Ink;
    var b := Blank(s);
    var text := s[b..];
    assert s[0..] == s == s[..b] + text;
    InkAppend(s[..b], text);
    InkOfBlank(s[..b]);
    ScanSplits(s, 0, b);
    if text != "" && Scan(s).Ok? {
      var n := TokenLength(text).value;
      var group, after := s[b..b + n], s[b + n..];
      ScanConserves(after);
      InkOfNormalize(group);
      assert text == group + after;
      InkAppend(group, after);
      InkAppend(Normalize(group), Concat(Scan(after).value));
      assert Scan(s).value[1..] == Scan(after).value;
    }
  }

  // ---------------------------------------------------------------- token lists survive printing

  /** A text that, on its own, lexes as itself. */
  predicate IsToken(t: string) {
    t != "" && !IsSpace(t[0]) && TokenLength(t) == Some(|t|) && Normalize(t) == t
  }

  /** The words that a following `of` would turn into the head of a quantifier. */
  predicate IsQuantifierWord(t: string) { Lower(t) == "1" || Lower(t) == "all" }

  /** Text that may follow a token without changing it. */
  predicate Separates(t: string, rest: string) {
    rest == "" || (rest[0] == ' ' && (IsQuantifierWord(t) ==> !Starts(rest[Blank(rest)..], "of")))
  }

  lemma {:induction false} BlankPrefix(a: string, b: string)
    requires Blank(a) < |a|
    ensures Blank(a + b) == Blank(a)
  {
    if IsSpace(a[0]) {
      assert (a + b)[1..] == a[1..] + b;
      BlankPrefix(a[1..], b);
    }
  }

  lemma {:induction false} NamePrefix(a: string, b: string)
    requires b != "" ==> !IsNameChar(b[0])
    ensures NameRun(a + b) == NameRun(a)
  {
    if a == "" {
      assert a + b == b;
    } else if IsNameChar(a[0]) {
      assert (a + b)[1..] == a[1..] + b;
      NamePrefix(a[1..], b);
    }
  }

  lemma {:induction false} PatternExtends(t: string, rest: string)
    requires Pattern(t) == Some(|t|) && (rest != "" ==> rest[0] == ' ')
    ensures Pattern(t + rest) == Some(|t|)
  {
    hide Blank, NameRun;
    var b := Blank(t);
    BlankPrefix(t, rest);
    assert (t + rest)[b..] == t[b..] + rest;
    NamePrefix(t[b..], rest);
  }

  lemma {:induction false} OfPatternExtends(t: string, rest: string)
    requires OfPattern(t) == Some(|t|) && (rest != "" ==> rest[0] == ' ')
    ensures OfPattern(t + rest) == Some(|t|)
  {
    hide Blank, Pattern;
    var a := Blank(t);
    BlankPrefix(t, rest);
    assert (t + rest)[a..] == t[a..] + rest;
    assert (t + rest)[a + 2..] == t[a + 2..] + rest;
    StartsWhole(t[a..], rest, "of");
    PatternExtends(t[a + 2..], rest);
  }

  /** A complete quantifier is unchanged by what follows it. */
  lemma {:induction false} QuantifiedExtends(t: string, rest: string, word: string)
    requires Quantified(t, word) == Some(|t|) && (rest != "" ==> rest[0] == ' ')
    ensures Quantified(t + rest, word) == Some(|t|)
  {
    hide OfPattern;
    assert (t + rest)[|word|..] == t[|word|..] + rest;
    StartsWhole(t, rest, word);
    OfPatternExtends(t[|word|..], rest);
  }

  lemma {:induction false} StartsWhole(t: string, rest: string, word: string)
    requires Starts(t, word)
    ensures |word| <= |t| && Starts(t + rest, word)
  {
    assert (t + rest)[..|word|] == t[..|word|];
  }

  /** A word longer than its text does not appear because white space follows. */
  lemma {:induction false} StartsPrefix(t: string, rest: string, word: string)
    requires rest != "" ==> rest[0] == ' '
    requires forall c :: c in word ==> !IsSpace(c)
    ensures Starts(t + rest, word) == Starts(t, word)
  {
    var s := t + rest;
    if |word| <= |t| {
      assert s[..|word|] == t[..|word|];
    } else if rest != "" && |word| <= |s| {
      assert word[|t|] in word && !IsSpace(word[|t|]);
      assert Lower(s[..|word|])[|t|] == ' ' != word[|t|];
    }
  }

  /** A token without white space does not become the head of a quantifier. */
  lemma {:induction false} NotQuantified(t: string, rest: string, word: string)
    requires Separates(t, rest) && word in {"1", "all"}
    requires forall k :: 0 <= k < |t| ==> !IsSpace(t[k])
    ensures Quantified(t + rest, word).None?
  {
    var s := t + rest;
    StartsPrefix(t, rest, word);
    if Starts(t, word) {
      if |word| < |t| {
        assert s[|word|..][0] == t[|word|];
      } else {
        assert t[..|word|] == t;
        assert s[|word|..] == rest;
        if rest != "" {
          var a := |word| + Blank(rest);
          assert s[a..] == rest[Blank(rest)..];
        }
      }
    }
  }

  lemma {:induction false} KeywordPrefix(t: string, rest: string, word: string)
    requires (rest != "" ==> rest[0] == ' ') && word in KEYWORDS
    ensures Keyword(t + rest, word) == Keyword(t, word)
  {
    StartsPrefix(t, rest, word);
  }

  lemma {:induction false} SolidBeforeSeparator(t: string, rest: string)
    requires IsToken(t) && Separates(t, rest) && Quantified(t, "1").None? && Quantified(t, "all").None?
    ensures TokenLength(t + rest) == Some(|t|)
  {
    SolidToken(t);
    SeparatesSimply(t, rest);
    NotQuantified(t, rest, "1");
    NotQuantified(t, rest, "all");
    hide Normalize, Blank, NameRun, Quantified, Starts, IsSpace, TokenLength;
    BeforeSeparator(t, rest);
  }

  lemma {:induction false} SeparatesSimply(t: string, rest: string)
    requires Separates(t, rest)
    ensures rest != "" ==> rest[0] == ' '
  {
  }

  lemma {:induction false} BeforeSeparator(t: string, rest: string)
    requires t != "" && TokenLength(t) == Some(|t|) && (rest != "" ==> rest[0] == ' ')
    requires Quantified(t, "1").None? && Quantified(t, "all").None?
    requires Quantified(t + rest, "1").None? && Quantified(t + rest, "all").None?
    ensures TokenLength(t + rest) == Some(|t|)
  {
    hide Normalize, Blank, NameRun, Quantified, Starts, IsSpace;
    KeywordPrefix(t, rest, "and");
    KeywordPrefix(t, rest, "or");
    KeywordPrefix(t, rest, "not");
    NamePrefix(t, rest);
    assert (t + rest)[0] == t[0];
  }

  /** One-character lookahead is all the tokenizer has, and a separator never changes a token. */
  lemma {:induction false} TokenBeforeSeparator(t: string, rest: string)
    ensures IsToken(t) && Separates(t, rest) ==> TokenLength(t + rest) == Some(|t|)
  {
    if !(IsToken(t) && Separates(t, rest)) {
    } else if Quantified(t, "1").Some? {
      hide Normalize, Quantified, Keyword;
      QuantifiedExtends(t, rest, "1");
    } else if Quantified(t, "all").Some? {
      hide Normalize, Blank, NameRun, Keyword;
      QuantifiedExtends(t, rest, "all");
      assert Lower((t + rest)[..1])[0] == LowerChar(t[0]) == Lower(t[..3])[0] == 'a';
    } else {
      SolidBeforeSeparator(t, rest);
    }
  }

  /** A token that is no quantifier holds no white space. */
  lemma {:induction false} SolidToken(t: string)
    requires IsToken(t) && Quantified(t, "1").None? && Quantified(t, "all").None?
    ensures forall k :: 0 <= k < |t| ==> !IsSpace(t[k])
  {
    hide Normalize;
    ShapeOfWord(t, "and");
    ShapeOfWord(t, "or");
    ShapeOfWord(t, "not");
    assert forall c :: IsNameChar(c) ==> !IsSpace(c);
  }

  function Spaced(ts: seq<string>): string {
    if ts == [] then ""
    else if |ts| == 1 then ts[0]
    else ts[0] + " " + Spaced(ts[1..])
  }

  /** Token lists in which no quantifier word is followed by a token that starts with `of`. */
  predicate Printable(ts: seq<string>) {
    && (forall i :: 0 <= i < |ts| ==> IsToken(ts[i]))
    && (forall i :: 0 <= i < |ts| - 1 && IsQuantifierWord(ts[i]) ==> !Starts(ts[i + 1], "of"))
  }

  lemma {:induction false} SpacedHead(ts: seq<string>, word: string)
    requires Printable(ts) && ts != [] && forall c :: c in word ==> !IsSpace(c)
    ensures Spaced(ts) != "" && !IsSpace(Spaced(ts)[0])
    ensures Starts(Spaced(ts), word) == Starts(ts[0], word)
  {
    hide TokenLength, Normalize;
    if |ts| > 1 {
      StartsPrefix(ts[0], " " + Spaced(ts[1..]), word);
      assert Spaced(ts) == ts[0] + (" " + Spaced(ts[1..]));
    }
  }

  /** Printing a token list with single spaces and lexing it again is the identity. */
  lemma {:induction false} ScanOfSpaced(ts: seq<string>)
    requires Printable(ts)
    ensures Scan(Spaced(ts)) == Ok(ts)
  {
    hide TokenLength, Normalize, Scan, Starts, Blank;
    if ts == [] {
      ScanOfNothing();
    } else {
      var t := ts[0];
      var rest := if |ts| == 1 then "" else " " + Spaced(ts[1..]);
      assert Spaced(ts) == t + rest;
      if |ts| > 1 {
        SpacedHead(ts[1..], "of");
        BlankOfOne(Spaced(ts[1..]));
        assert rest[1..] == Spaced(ts[1..]);
      }
      TokenBeforeSeparator(t, rest);
      ScanOfSpaced(ts[1..]);
      ScanSkipsSpace(Spaced(ts[1..]));
      ScanStep(t, rest);
      assert [t] + ts[1..] == ts;
    }
  }

  lemma {:induction false} ScanOfNothing() ensures Scan("") == Ok([]) {}

  lemma {:induction false} BlankOfOne(s: string)
    requires s != "" && !IsSpace(s[0])
    ensures Blank(" " + s) == 1
  {
    assert (" " + s)[1..] == s;
  }

  lemma {:induction false} ScanStep(t: string, rest: string)
    ensures IsToken(t) && TokenLength(t + rest) == Some(|t|) && Scan(rest).Ok? ==>
      Scan(t + rest) == Ok([t] + Scan(rest).value)
  {
    hide TokenLength, Normalize;
    var s := t + rest;
    if t != "" && !IsSpace(t[0]) {
      assert s[Blank(s)..] == s && s[..|t|] == t && s[|t|..] == rest;
    }
  }

  lemma {:induction false} ScanSkipsSpace(s: string)
    ensures Scan(s).Ok? ==> Scan(" " + s) == Scan(s)
  {
    hide TokenLength, Normalize;
    assert (" " + s)[1..] == s;
    assert (" " + s)[Blank(" " + s)..] == s[Blank(s)..];
  }

  /** Outside `i..j` the text is blank, and inside it starts and ends with something. */
  ghost predicate BlankAround(s: string, i: nat, j: nat)
    requires i <= j <= |s|
  {
    && (forall k :: 0 <= k < i || j <= k < |s| ==> IsSpace(s[k]))
    && (i < j ==> !IsSpace(s[i]) && !IsSpace(s[j - 1]))
  }

  /** Stripping removes the white space at both ends and nothing else. */
  lemma {:induction false} StripsEnds(s: string)
    ensures exists i, j :: 0 <= i <= j <= |s| && Strip(s) == s[i..j] && BlankAround(s, i, j)
  {
    hide IsSpace;
    var i := Blank(s);
    TrimsEnd(s[i..]);
    var n := |TrimEnd(s[i..])|;
    assert Strip(s) == s[i..i + n];
    forall k | 0 <= k < i || i + n <= k < |s| ensures IsSpace(s[k]) {
      if k >= i { assert s[k] == s[i..][k - i]; }
    }
    assert BlankAround(s, i, i + n);
  }

  lemma {:induction false} TrimsEnd(s: string)
    ensures TrimEnd(s) <= s && (forall k :: |TrimEnd(s)| <= k < |s| ==> IsSpace(s[k]))
    ensures TrimEnd(s) != "" ==> !IsSpace(TrimEnd(s)[|TrimEnd(s)| - 1])
  {
    hide IsSpace;
    if s != "" && IsSpace(s[|s| - 1]) {
      TrimsEnd(s[..|s| - 1]);
    }
  }

  // ---------------------------------------------------------------- tokens by name

  /** The characters of a name as the token expression lists them. */
  predicate ListedChar(c: char) {
    'a' <= c <= 'z' || 'A' <= c <= 'Z' || '0' <= c <= '9' || c == '_' || c == '*' || c == '?' || c == '-'
  }

  /** In printable ASCII, exactly the listed characters, parentheses and the space can be lexed. */
  lemma {:induction false} LexableAscii(c: char)
    requires ' ' <= c <= '~'
    ensures IsLexable(c) <==> c == ' ' || c == '(' || c == ')' || ListedChar(c)
  {
  }

  /** The text starts with a keyword, in any case, that ends there or before one of `*`, `?` and `-`. */
  predicate StartsWithKeyword(t: string, word: string) {
    |word| <= |t| && Lower(t[..|word|]) == word && (|t| > |word| ==> t[|word|] in {'*', '?', '-'})
  }

  lemma {:induction false} ListedRun(t: string)
    requires forall i :: 0 <= i < |t| ==> ListedChar(t[i])
    ensures NameRun(t) == |t| && Blank(t) == 0 && Collapse(t) == t
  {
    if t != "" {
      assert ListedChar(t[0]);
      ListedIsSolid(t[0]);
      hide IsSpace, IsNameChar, ListedChar;
      ListedRun(t[1..]);
      assert [t[0]] + t[1..] == t;
    }
  }

  lemma {:induction false} ListedIsSolid(c: char)
    requires ListedChar(c)
    ensures IsNameChar(c) && !IsSpace(c)
  {
  }

  lemma {:induction false} NoQuantifier(t: string, word: string)
    requires (forall i :: 0 <= i < |t| ==> ListedChar(t[i])) && forall c :: c in word ==> !IsSpace(c)
    ensures Quantified(t, word).None?
  {
    if |word| <= |t| {
      ListedRun(t[|word|..]);
    }
  }

  lemma {:induction false} NoQuantifiers(t: string)
    requires forall i :: 0 <= i < |t| ==> ListedChar(t[i])
    ensures Quantified(t, "1").None? && Quantified(t, "all").None?
  {
    hide Quantified;
    NoQuantifier(t, "1");
    NoQuantifier(t, "all");
  }

  /** A keyword in any case is that keyword; every other run of listed characters is a name and keeps its case. */
  lemma {:induction false} WordsLex(t: string)
    requires t != "" && forall i :: 0 <= i < |t| ==> ListedChar(t[i])
    ensures Lower(t) in {"and", "or", "not"} ==> Scan(t) == Ok([Lower(t)])
    ensures !StartsWithKeyword(t, "and") && !StartsWithKeyword(t, "or") && !StartsWithKeyword(t, "not") ==>
      Scan(t) == Ok([t])
  {
    hide TokenLength, Collapse, NameRun, Quantified, Blank, ListedChar, IsSpace, StartsWithKeyword;
    ListedRun(t);
    assert Quantified(t, "1").None? && Quantified(t, "all").None? by { NoQuantifiers(t); }
    WordLength(t);
    ScanOfNothing();
    var text := t[Blank(t)..];
    assert text == t && text[..|t|] == t && text[|t|..] == "";
    assert TokenLength(text) == Some(|t|) ==> Scan(t) == Ok([Normalize(t)] + []);
    assert [Normalize(t)] + [] == [Normalize(t)];
  }

  lemma {:induction false} WordLength(t: string)
    requires t != "" && (forall i :: 0 <= i < |t| ==> ListedChar(t[i])) && NameRun(t) == |t|
    requires Quantified(t, "1").None? && Quantified(t, "all").None?
    ensures Lower(t) in {"and", "or", "not"} ==> TokenLength(t) == Some(|t|)
    ensures !StartsWithKeyword(t, "and") && !StartsWithKeyword(t, "or") && !StartsWithKeyword(t, "not") ==>
      TokenLength(t) == Some(|t|) && Lower(t) !in {"and", "or", "not"}
  {
    hide Quantified, NameRun, Keyword, StartsWithKeyword;
    KeywordLength(t, "and");
    KeywordLength(t, "or");
    KeywordLength(t, "not");
    assert ListedChar(t[0]);
    assert "and" != "or" && "and" != "not" && "or" != "not";
  }

  lemma {:induction false} KeywordLength(t: string, word: string)
    requires (forall i :: 0 <= i < |t| ==> ListedChar(t[i])) && word in {"and", "or", "not"}
    ensures Keyword(t, word) <==> StartsWithKeyword(t, word)
    ensures Lower(t) == word ==> Keyword(t, word) && |t| == |word|
    ensures Lower(t) in {"and", "or", "not"} && Keyword(t, word) ==> Lower(t) == word
  {
    assert t[..|t|] == t;
    assert |t| > |word| ==> ListedChar(t[|word|]);
    if Lower(t) in {"and", "or", "not"} && Keyword(t, word) {
      assert Lower(t)[0] == LowerChar(t[0]) == Lower(t[..|word|])[0] == word[0];
    }
  }
}
