/**
The canonical JSON printer behind rule digests and event identities.

Script values keep the insertion order of their object keys; JSON values do not.  Text is a
sequence of UTF-16 code units, as in the original: keys are sorted by code unit, and
`JSON.stringify` escapes control characters and unpaired surrogates.  Numbers are integers.
*/
module CanonicalJson {
  import opened Results

  type CodeUnit = x: int | 0 <= x < 0x1_0000
  type Text = seq<CodeUnit>

  /** A JSON value: objects are finite maps. */
  datatype Json =
    | Null
    | Bool(b: bool)
    | Num(n: int)
    | Str(s: Text)
    | Arr(items: seq<Json>)
    | Obj(fields: map<Text, Json>)

  /** A value of the script; `Unsupported` covers non-finite numbers and everything that is not data. */
  datatype Script =
    | SNull
    | SBool(b: bool)
    | SNum(n: int)
    | SStr(s: Text)
    | SArr(items: seq<Script>)
    | SObj(keys: seq<Text>, values: map<Text, Script>)
    | Unsupported

  // ---------------------------------------------------------------- scalars

  const QUOTE: CodeUnit := 0x22
  const BACKSLASH: CodeUnit := 0x5C
  const COMMA: CodeUnit := 0x2C
  const COLON: CodeUnit := 0x3A
  const MINUS: CodeUnit := 0x2D
  const ZERO: CodeUnit := 0x30
  const OPEN_ARR: CodeUnit := 0x5B
  const CLOSE_ARR: CodeUnit := 0x5D
  const OPEN_OBJ: CodeUnit := 0x7B
  const CLOSE_OBJ: CodeUnit := 0x7D
  const LETTER_U: CodeUnit := 0x75
  const NULL_TEXT: Text := [0x6E, 0x75, 0x6C, 0x6C]
  const TRUE_TEXT: Text := [0x74, 0x72, 0x75, 0x65]
  const FALSE_TEXT: Text := [0x66, 0x61, 0x6C, 0x73, 0x65]

  predicate IsDigit(c: CodeUnit) { ZERO <= c < ZERO + 10 }

  function Digits(n: nat): (r: Text)
    ensures r != [] && forall i :: 0 <= i < |r| ==> IsDigit(r[i])
  {
    if n < 10 then [ZERO + n] else Digits(n / 10) + [ZERO + n % 10]
  }

  function Decimal(n: int): Text { if n < 0 then [MINUS] + Digits(-n) else Digits(n) }

  function HexDigit(d: nat): CodeUnit
    requires d < 16
  {
    if d < 10 then ZERO + d else 0x61 + d - 10
  }

  function Hex4(c: CodeUnit): Text {
    [HexDigit(c / 16 / 16 / 16), HexDigit(c / 16 / 16 % 16), HexDigit(c / 16 % 16), HexDigit(c % 16)]
  }

  predicate IsLead(c: CodeUnit) { 0xD800 <= c <= 0xDBFF }
  predicate IsTrail(c: CodeUnit) { 0xDC00 <= c <= 0xDFFF }

  /** The second unit of a short escape, where `JSON.stringify` has one. */
  function ShortEscape(c: CodeUnit): Option<CodeUnit> {
    if c == 0x08 then Some(0x62) else if c == 0x09 then Some(0x74) else if c == 0x0A then Some(0x6E)
    else if c == 0x0C then Some(0x66) else if c == 0x0D then Some(0x72)
    else if c == QUOTE then Some(QUOTE) else if c == BACKSLASH then Some(BACKSLASH) else None
  }

  /** How one code unit is written inside a literal, unless it is part of a surrogate pair. */
  function EscapeUnit(c: CodeUnit): Text {
    if ShortEscape(c).Some? then [BACKSLASH, ShortEscape(c).value]
    else if c < 0x20 || IsLead(c) || IsTrail(c) then [BACKSLASH, LETTER_U] + Hex4(c)
    else [c]
  }

  predicate StartsWithPair(s: Text) { |s| > 1 && IsLead(s[0]) && IsTrail(s[1]) }

  /** The body of a JSON string literal. */
  function Escape(s: Text): Text {
    if s == [] then []
    else if StartsWithPair(s) then [s[0], s[1]] + Escape(s[2..])
    else EscapeUnit(s[0]) + Escape(s[1..])
  }

  function Quoted(s: Text): Text { [QUOTE] + Escape(s) + [QUOTE] }

  // ---------------------------------------------------------------- key order

  predicate Less(a: Text, b: Text) {
    b != [] && (a == [] || a[0] < b[0] || (a[0] == b[0] && Less(a[1..], b[1..])))
  }

  predicate Sorted(ks: seq<Text>) { forall i, j :: 0 <= i < j < |ks| ==> Less(ks[i], ks[j]) }

  predicate Distinct(ks: seq<Text>) { forall i, j :: 0 <= i < j < |ks| ==> ks[i] != ks[j] }

  lemma {:induction false} LessTotal(a: Text, b: Text)
    ensures !(Less(a, b) && Less(b, a))
    ensures Less(a, b) || Less(b, a) || a == b
    ensures !Less(a, a)
  {
    if a != [] && b != [] {
      LessTotal(a[1..], b[1..]);
      assert a == [a[0]] + a[1..] && b == [b[0]] + b[1..];
    }
    if a != [] {
      LessIrreflexive(a);
    }
  }

  lemma {:induction false} LessIrreflexive(a: Text)
    ensures !Less(a, a)
  {
    if a != [] {
      LessIrreflexive(a[1..]);
    }
  }

  lemma {:induction false} LessTransitive(a: Text, b: Text, c: Text)
    requires Less(a, b) && Less(b, c)
    ensures Less(a, c)
  {
    if a != [] && a[0] == b[0] == c[0] {
      LessTransitive(a[1..], b[1..], c[1..]);
    }
  }

  function Insert(k: Text, ks: seq<Text>): (r: seq<Text>)
    ensures |r| == |ks| + 1 && forall x :: x in r <==> x == k || x in ks
  {
    if ks == [] || Less(k, ks[0]) then [k] + ks else
    var rest := Insert(k, ks[1..]);
    assert forall x :: x in ks <==> x == ks[0] || x in ks[1..];
    [ks[0]] + rest
  }

  /** `Object.keys(object).sort()` */
  function Sort(ks: seq<Text>): (r: seq<Text>)
    ensures |r| == |ks| && forall x :: x in r <==> x in ks
  {
    if ks == [] then [] else
    assert forall x :: x in ks <==> x == ks[0] || x in ks[1..];
    Insert(ks[0], Sort(ks[1..]))
  }

  lemma {:induction false} InsertKeepsSorted(k: Text, ks: seq<Text>)
    requires Sorted(ks) && k !in ks
    ensures Sorted(Insert(k, ks))
  {
    if ks == [] {
    } else if Less(k, ks[0]) {
      forall j | 0 < j < |ks| ensures Less(k, ks[j]) {
        LessTransitive(k, ks[0], ks[j]);
      }
    } else {
      LessTotal(k, ks[0]);
      assert ks[0] in ks;
      InsertKeepsSorted(k, ks[1..]);
      var rest := Insert(k, ks[1..]);
      forall j | 0 <= j < |rest| ensures Less(ks[0], rest[j]) {
        assert rest[j] in rest;
        if rest[j] != k {
          var i :| 0 <= i < |ks[1..]| && ks[1..][i] == rest[j];
          assert ks[i + 1] == rest[j];
        }
      }
    }
  }

  lemma {:induction false} SortSorts(ks: seq<Text>)
    requires Distinct(ks)
    ensures Sorted(Sort(ks))
  {
    if ks != [] {
      SortSorts(ks[1..]);
      InsertKeepsSorted(ks[0], Sort(ks[1..]));
    }
  }

  lemma {:induction false} SortedHead(a: seq<Text>, b: seq<Text>)
    requires Sorted(a) && Sorted(b) && a != [] && b != [] && forall x :: x in a <==> x in b
    ensures a[0] == b[0]
    ensures forall x :: x in a[1..] <==> x in b[1..]
  {
    assert a[0] in b && b[0] in a;
    var i :| 0 <= i < |b| && b[i] == a[0];
    var j :| 0 <= j < |a| && a[j] == b[0];
    LessTotal(a[0], b[0]);
    SortedTail(a);
    SortedTail(b);
  }

  lemma {:induction false} SortedTail(a: seq<Text>)
    requires Sorted(a) && a != []
    ensures forall x :: x in a[1..] <==> x in a && x != a[0]
  {
    forall x | x in a[1..] ensures x != a[0] {
      var i :| 0 <= i < |a[1..]| && a[1..][i] == x;
      assert Less(a[0], a[i + 1]);
      LessTotal(a[0], x);
    }
    assert a == [a[0]] + a[1..];
  }

  /** Two sorted lists with the same members are the same list. */
  lemma {:induction false} SortedUnique(a: seq<Text>, b: seq<Text>)
    requires Sorted(a) && Sorted(b) && forall x :: x in a <==> x in b
    ensures a == b
  {
    assert a != [] ==> a[0] in b;
    assert b != [] ==> b[0] in a;
    if a != [] {
      SortedHead(a, b);
      SortedUnique(a[1..], b[1..]);
      assert a == [a[0]] + a[1..] && b == [b[0]] + b[1..];
    }
  }

  // ---------------------------------------------------------------- the printer

  /** The keys are the distinct property names, each with its value. */
  ghost predicate Proper(v: Script) {
    match v
    case SArr(items) => forall i :: 0 <= i < |items| ==> Proper(items[i])
    case SObj(keys, values) =>
      Distinct(keys) && (forall k :: k in keys <==> k in values) && forall k :: k in values ==> Proper(values[k])
    case _ => true
  }

  /** No value inside is one that the printer throws on. */
  predicate Printable(v: Script) {
    match v
    case SArr(items) => forall i :: 0 <= i < |items| ==> Printable(items[i])
    case SObj(_, values) => forall k :: k in values ==> Printable(values[k])
    case Unsupported => false
    case _ => true
  }

  function Render(v: Script): Text
    requires Proper(v) && Printable(v)
    decreases v, 1
  {
    match v
    case SNull => NULL_TEXT
    case SBool(b) => if b then TRUE_TEXT else FALSE_TEXT
    case SNum(n) => Decimal(n)
    case SStr(s) => Quoted(s)
    case SArr(items) => [OPEN_ARR] + RenderItems(items) + [CLOSE_ARR]
    case SObj(keys, _) => [OPEN_OBJ] + RenderFields(v, Sort(keys)) + [CLOSE_OBJ]
  }

  function RenderItems(items: seq<Script>): Text
    requires forall i :: 0 <= i < |items| ==> Proper(items[i]) && Printable(items[i])
    decreases items, 0
  {
    if items == [] then []
    else if |items| == 1 then Render(items[0])
    else Render(items[0]) + [COMMA] + RenderItems(items[1..])
  }

  function RenderFields(v: Script, ks: seq<Text>): Text
    requires v.SObj? && Proper(v) && Printable(v) && forall k :: k in ks ==> k in v.values
    decreases v, 0, |ks|
  {
    if ks == [] then [] else
    var field := Quoted(ks[0]) + [COLON] + Render(v.values[ks[0]]);
    if |ks| == 1 then field else field + [COMMA] + RenderFields(v, ks[1..])
  }

  /** `canonicalJson`, which throws on a value it cannot represent. */
  function Canonical(v: Script): Option<Text>
    requires Proper(v)
  {
    if Printable(v) then Some(Render(v)) else None
  }

  /** The JSON value that a script value denotes. */
  ghost function Meaning(v: Script): Json
    requires Proper(v) && Printable(v)
  {
    match v
    case SNull => Null
    case SBool(b) => Bool(b)
    case SNum(n) => Num(n)
    case SStr(s) => Str(s)
    case SArr(items) => Arr(seq(|items|, i requires 0 <= i < |items| => Meaning(items[i])))
    case SObj(_, values) => Obj(map k | k in values :: Meaning(values[k]))
  }

  // ---------------------------------------------------------------- a parser that inverts it

  function HexValue(c: CodeUnit): Option<nat> {
    if IsDigit(c) then Some(c - ZERO) else if 0x61 <= c < 0x67 then Some(c - 0x61 + 10) else None
  }

  function LongEscape(c: CodeUnit): Option<CodeUnit> {
    if c == 0x62 then Some(0x08) else if c == 0x74 then Some(0x09) else if c == 0x6E then Some(0x0A)
    else if c == 0x66 then Some(0x0C) else if c == 0x72 then Some(0x0D)
    else if c == QUOTE then Some(QUOTE) else if c == BACKSLASH then Some(BACKSLASH) else None
  }

  /** Reads the body of a string literal up to its closing quote. */
  function ReadText(s: Text): (r: Option<(Text, Text)>)
    ensures r.Some? ==> |r.value.1| < |s|
  {
    if s == [] then None
    else if s[0] == QUOTE then Some(([], s[1..]))
    else if s[0] != BACKSLASH then Prepend(s[0], ReadText(s[1..]))
    else if |s| < 2 then None
    else if s[1] == LETTER_U then
      if |s| < 6 then None else
      var a, b, c, d := HexValue(s[2]), HexValue(s[3]), HexValue(s[4]), HexValue(s[5]);
      if a.None? || b.None? || c.None? || d.None? then None
      else Prepend(((a.value * 16 + b.value) * 16 + c.value) * 16 + d.value, ReadText(s[6..]))
    else if LongEscape(s[1]).None? then None
    else Prepend(LongEscape(s[1]).value, ReadText(s[2..]))
  }

  function Prepend(c: CodeUnit, r: Option<(Text, Text)>): Option<(Text, Text)> {
    if r.None? then None else Some(([c] + r.value.0, r.value.1))
  }

  function DigitRun(s: Text): (n: nat)
    ensures n <= |s| && forall i :: 0 <= i < n ==> IsDigit(s[i])
  {
    if s != [] && IsDigit(s[0]) then 1 + DigitRun(s[1..]) else 0
  }

  function DigitsValue(s: Text): nat
    requires forall i :: 0 <= i < |s| ==> IsDigit(s[i])
  {
    if s == [] then 0 else
    var d: int := s[|s| - 1];
    assert IsDigit(d);
    DigitsValue(s[..|s| - 1]) * 10 + (d - ZERO)
  }

  function ReadNumber(s: Text): (r: Option<(Json, Text)>)
    ensures r.Some? ==> |r.value.1| < |s|
  {
    var negative := s != [] && s[0] == MINUS;
    var digits := if negative then s[1..] else s;
    var n := DigitRun(digits);
    if n == 0 then None else
    var value: int := DigitsValue(digits[..n]);
    Some((Num(if negative then -value else value), digits[n..]))
  }

  predicate StartsWith(s: Text, word: Text) { |word| <= |s| && s[..|word|] == word }

  function Read(s: Text): (r: Option<(Json, Text)>)
    ensures r.Some? ==> |r.value.1| < |s|
    decreases |s|, 2
  {
    if s == [] then None
    else if StartsWith(s, NULL_TEXT) then Some((Null, s[4..]))
    else if StartsWith(s, TRUE_TEXT) then Some((Bool(true), s[4..]))
    else if StartsWith(s, FALSE_TEXT) then Some((Bool(false), s[5..]))
    else if s[0] == QUOTE then
      var r := ReadText(s[1..]);
      if r.None? then None else Some((Str(r.value.0), r.value.1))
    else if s[0] == OPEN_ARR then
      if |s| > 1 && s[1] == CLOSE_ARR then Some((Arr([]), s[2..])) else
      var r := ReadItems(s[1..]);
      if r.None? then None else Some((Arr(r.value.0), r.value.1))
    else if s[0] == OPEN_OBJ then
      if |s| > 1 && s[1] == CLOSE_OBJ then Some((Obj(map[]), s[2..])) else
      var r := ReadFields(s[1..]);
      if r.None? then None else Some((Obj(r.value.0), r.value.1))
    else ReadNumber(s)
  }

  function ReadItems(s: Text): (r: Option<(seq<Json>, Text)>)
    ensures r.Some? ==> |r.value.1| < |s|
    decreases |s|, 3
  {
    var first := Read(s);
    if first.None? || first.value.1 == [] then None else
    var more := first.value.1;
    if more[0] == CLOSE_ARR then Some(([first.value.0], more[1..]))
    else if more[0] != COMMA then None else
    var rest := ReadItems(more[1..]);
    if rest.None? then None else Some(([first.value.0] + rest.value.0, rest.value.1))
  }

  function ReadFields(s: Text): (r: Option<(map<Text, Json>, Text)>)
    ensures r.Some? ==> |r.value.1| < |s|
    decreases |s|, 3
  {
    if s == [] || s[0] != QUOTE then None else
    var key := ReadText(s[1..]);
    if key.None? || key.value.1 == [] || key.value.1[0] != COLON then None else
    var value := Read(key.value.1[1..]);
    if value.None? || value.value.1 == [] then None else
    var more := value.value.1;
    if more[0] == CLOSE_OBJ then Some((map[key.value.0 := value.value.0], more[1..]))
    else if more[0] != COMMA then None else
    var rest := ReadFields(more[1..]);
    if rest.None? then None else Some((map[key.value.0 := value.value.0] + rest.value.0, rest.value.1))
  }

  // ---------------------------------------------------------------- scalars read back

  lemma {:induction false} HexDigitReadsBack(d: nat)
    requires d < 16
    ensures HexValue(HexDigit(d)) == Some(d)
  {
  }

  lemma {:induction false} HexReadsBack(c: CodeUnit)
    ensures var h := Hex4(c);
      && HexValue(h[0]) == Some(c / 16 / 16 / 16) && HexValue(h[1]) == Some(c / 16 / 16 % 16)
      && HexValue(h[2]) == Some(c / 16 % 16) && HexValue(h[3]) == Some(c % 16)
    ensures ((c / 16 / 16 / 16 * 16 + c / 16 / 16 % 16) * 16 + c / 16 % 16) * 16 + c % 16 == c
  {
    hide HexValue, HexDigit;
    HexDigitReadsBack(c / 16 / 16 / 16);
    HexDigitReadsBack(c / 16 / 16 % 16);
    HexDigitReadsBack(c / 16 % 16);
    HexDigitReadsBack(c % 16);
  }

  /** Every text, unpaired surrogates included, is read back from its literal. */
  lemma {:induction false} TextReadsBack(s: Text, rest: Text)
    ensures ReadText(Escape(s) + [QUOTE] + rest) == Some((s, rest))
    decreases |s|
  {
    hide EscapeUnit, ReadText;
    var tail := [QUOTE] + rest;
    if s == [] {
      assert Escape(s) + [QUOTE] + rest == tail;
      ClosingQuote(rest);
    } else if StartsWithPair(s) {
      TextReadsBack(s[2..], rest);
      var after := Escape(s[2..]) + [QUOTE] + rest;
      assert Escape(s) + [QUOTE] + rest == [s[0]] + ([s[1]] + after);
      RawReadsBack(s[1], after);
      RawReadsBack(s[0], [s[1]] + after);
      assert [s[0]] + ([s[1]] + s[2..]) == s;
    } else {
      TextReadsBack(s[1..], rest);
      var after := Escape(s[1..]) + [QUOTE] + rest;
      assert Escape(s) + [QUOTE] + rest == EscapeUnit(s[0]) + after;
      UnitReadsBack(s[0], after);
      assert [s[0]] + s[1..] == s;
    }
  }

  lemma {:induction false} ClosingQuote(rest: Text)
    ensures ReadText([QUOTE] + rest) == Some(([], rest))
  {
    assert ([QUOTE] + rest)[1..] == rest;
  }

  lemma {:induction false} RawReadsBack(c: CodeUnit, after: Text)
    requires c != QUOTE && c != BACKSLASH
    ensures ReadText([c] + after) == Prepend(c, ReadText(after))
  {
    assert ([c] + after)[1..] == after;
  }

  lemma {:induction false} UnitReadsBack(c: CodeUnit, after: Text)
    ensures ReadText(EscapeUnit(c) + after) == Prepend(c, ReadText(after))
  {
    hide ReadText, Hex4;
    if ShortEscape(c).Some? {
      ShortReadsBack(c, after);
    } else if c < 0x20 || IsLead(c) || IsTrail(c) {
      LongReadsBack(c, after);
    } else {
      RawReadsBack(c, after);
    }
  }

  lemma {:induction false} ShortReadsBack(c: CodeUnit, after: Text)
    requires ShortEscape(c).Some?
    ensures ReadText([BACKSLASH, ShortEscape(c).value] + after) == Prepend(c, ReadText(after))
  {
    assert ([BACKSLASH, ShortEscape(c).value] + after)[2..] == after;
  }

  lemma {:induction false} LongReadsBack(c: CodeUnit, after: Text)
    ensures ReadText([BACKSLASH, LETTER_U] + Hex4(c) + after) == Prepend(c, ReadText(after))
  {
    var whole := [BACKSLASH, LETTER_U] + Hex4(c) + after;
    HexReadsBack(c);
    hide HexDigit, HexValue;
    assert whole[2] == Hex4(c)[0] && whole[3] == Hex4(c)[1] && whole[4] == Hex4(c)[2] && whole[5] == Hex4(c)[3];
    assert whole[6..] == after;
  }

  lemma {:induction false} DigitsReadBack(n: nat)
    ensures DigitsValue(Digits(n)) == n
  {
    if n >= 10 {
      DigitsReadBack(n / 10);
      assert Digits(n)[..|Digits(n)| - 1] == Digits(n / 10);
    }
  }

  predicate NoDigit(s: Text) { s == [] || !IsDigit(s[0]) }

  lemma {:induction false} RunOfDigits(ds: Text, rest: Text)
    requires NoDigit(rest) && forall i :: 0 <= i < |ds| ==> IsDigit(ds[i])
    ensures DigitRun(ds + rest) == |ds|
  {
    if ds == [] {
      assert ds + rest == rest;
    } else {
      assert (ds + rest)[1..] == ds[1..] + rest;
      RunOfDigits(ds[1..], rest);
    }
  }

  lemma {:induction false} NaturalReadsBack(n: nat, rest: Text)
    requires NoDigit(rest)
    ensures DigitRun(Digits(n) + rest) == |Digits(n)|
    ensures (Digits(n) + rest)[..|Digits(n)|] == Digits(n) && (Digits(n) + rest)[|Digits(n)|..] == rest
    ensures DigitsValue(Digits(n)) == n
  {
    DigitsReadBack(n);
    RunOfDigits(Digits(n), rest);
  }

  lemma {:induction false} NumberReadsBack(n: int, rest: Text)
    requires NoDigit(rest)
    ensures Read(Decimal(n) + rest) == Some((Num(n), rest))
  {
    hide Digits, DigitRun, DigitsValue;
    var m: nat := if n < 0 then -n else n;
    NaturalReadsBack(m, rest);
    var s := Decimal(n) + rest;
    assert IsDigit(Digits(m)[0]);
    if n < 0 {
      assert s == [MINUS] + (Digits(m) + rest);
      assert s[1..] == Digits(m) + rest;
    }
    NoWord(s);
    assert ReadNumber(s) == Some((Num(n), rest));
    hide ReadNumber, ReadItems, ReadFields, ReadText;
  }

  // ---------------------------------------------------------------- values read back

  lemma {:induction false} WordReadsBack(word: Text, rest: Text)
    requires word in [NULL_TEXT, TRUE_TEXT, FALSE_TEXT]
    ensures Read(word + rest) ==
      Some((if word == NULL_TEXT then Null else Bool(word == TRUE_TEXT), rest))
  {
    var s := word + rest;
    assert s[..|word|] == word && s[|word|..] == rest;
    assert word != NULL_TEXT ==> s[..4][0] != NULL_TEXT[0];
    assert word == FALSE_TEXT ==> s[..4][0] != TRUE_TEXT[0];
  }

  /** A text that starts with punctuation or a digit is no word. */
  lemma {:induction false} NoWord(s: Text)
    requires s != [] && s[0] != NULL_TEXT[0] && s[0] != TRUE_TEXT[0] && s[0] != FALSE_TEXT[0]
    ensures !StartsWith(s, NULL_TEXT) && !StartsWith(s, TRUE_TEXT) && !StartsWith(s, FALSE_TEXT)
  {
  }

  lemma {:induction false} StringReadsBack(s: Text, rest: Text)
    ensures Read(Quoted(s) + rest) == Some((Str(s), rest))
  {
    var whole := Quoted(s) + rest;
    NoWord(whole);
    assert whole[1..] == Escape(s) + [QUOTE] + rest;
    TextReadsBack(s, rest);
  }

  /** The first unit of a printed value. */
  lemma {:induction false} RenderHead(v: Script)
    requires Proper(v) && Printable(v)
    ensures Render(v) != [] && Render(v)[0] != CLOSE_ARR && Render(v)[0] != CLOSE_OBJ
  {
    hide Escape;
  }

  ghost predicate AllFine(items: seq<Script>) {
    forall i :: 0 <= i < |items| ==> Proper(items[i]) && Printable(items[i])
  }

  ghost function Meanings(items: seq<Script>): seq<Json>
    requires AllFine(items)
  {
    seq(|items|, i requires 0 <= i < |items| => Meaning(items[i]))
  }

  ghost function FieldMeanings(v: Script, ks: seq<Text>): map<Text, Json>
    requires v.SObj? && Proper(v) && Printable(v) && forall k :: k in ks ==> k in v.values
  {
    map k | k in ks :: Meaning(v.values[k])
  }

  /** Printing is inverted by the parser, whatever follows that does not continue a number. */
  lemma {:induction false} RenderReadsBack(v: Script, rest: Text)
    requires Proper(v) && Printable(v) && NoDigit(rest)
    ensures Read(Render(v) + rest) == Some((Meaning(v), rest))
    decreases v, 1
  {
    hide Escape, ReadText, Sort, Digits, DigitRun, Less;
    match v
    case SNull => WordReadsBack(NULL_TEXT, rest);
    case SBool(b) => WordReadsBack(if b then TRUE_TEXT else FALSE_TEXT, rest);
    case SNum(n) => NumberReadsBack(n, rest);
    case SStr(s) => StringReadsBack(s, rest);
    case SArr(items) => ArrayReadsBack(v, rest);
    case SObj(_, _) => ObjectReadsBack(v, rest);
  }

  lemma {:induction false} ArrayReadsBack(v: Script, rest: Text)
    requires v.SArr? && Proper(v) && Printable(v)
    ensures Read(Render(v) + rest) == Some((Meaning(v), rest))
    decreases v, 0
  {
    hide Render, RenderItems, ReadItems, Meaning;
    var whole := Render(v) + rest;
    assert Render(v) == [OPEN_ARR] + RenderItems(v.items) + [CLOSE_ARR] by { ArrayShape(v); }
    assert Meaning(v) == Arr(Meanings(v.items)) by { ArrayShape(v); }
    NoWord(whole);
    if v.items == [] {
      assert RenderItems(v.items) == [] by { NoItems(); }
      assert Meanings(v.items) == [];
      assert whole[1] == CLOSE_ARR && whole[2..] == rest;
    } else {
      assert whole[1..] == RenderItems(v.items) + [CLOSE_ARR] + rest;
      ItemsReadBack(v.items, rest);
      ItemsHead(v.items);
      assert whole[1] == RenderItems(v.items)[0];
    }
  }

  lemma {:induction false} NoItems() ensures RenderItems([]) == [] {}

  lemma {:induction false} ArrayShape(v: Script)
    requires v.SArr? && Proper(v) && Printable(v)
    ensures Render(v) == [OPEN_ARR] + RenderItems(v.items) + [CLOSE_ARR]
    ensures Meaning(v) == Arr(Meanings(v.items))
  {
  }

  lemma {:induction false} ItemsHead(items: seq<Script>)
    requires AllFine(items) && items != []
    ensures RenderItems(items) != [] && RenderItems(items)[0] != CLOSE_ARR
  {
    hide Render;
    RenderHead(items[0]);
  }

  lemma {:induction false} ItemsReadBack(items: seq<Script>, rest: Text)
    requires AllFine(items) && items != []
    ensures ReadItems(RenderItems(items) + [CLOSE_ARR] + rest) == Some((Meanings(items), rest))
    decreases items, 0
  {
    hide Render, Read, Meaning;
    var whole := RenderItems(items) + [CLOSE_ARR] + rest;
    if |items| == 1 {
      var more := [CLOSE_ARR] + rest;
      RenderReadsBack(items[0], more);
      assert whole == Render(items[0]) + more;
      assert more[1..] == rest;
      assert Meanings(items) == [Meaning(items[0])];
    } else {
      var after := RenderItems(items[1..]) + [CLOSE_ARR] + rest;
      var more := [COMMA] + after;
      RenderReadsBack(items[0], more);
      assert whole == Render(items[0]) + more;
      assert more[1..] == after;
      ItemsReadBack(items[1..], rest);
      assert Meanings(items) == [Meaning(items[0])] + Meanings(items[1..]);
    }
  }

  lemma {:induction false} ObjectReadsBack(v: Script, rest: Text)
    requires v.SObj? && Proper(v) && Printable(v)
    ensures Read(Render(v) + rest) == Some((Meaning(v), rest))
    decreases v, 0, |v.keys| + 1
  {
    hide Render, RenderFields, ReadFields, Meaning, Sort;
    var ks := Sort(v.keys);
    var whole := Render(v) + rest;
    assert Render(v) == [OPEN_OBJ] + RenderFields(v, ks) + [CLOSE_OBJ] by { ObjectShape(v); }
    assert Meaning(v) == Obj(FieldMeanings(v, ks)) by { ObjectShape(v); }
    NoWord(whole);
    if ks == [] {
      assert RenderFields(v, ks) == [] by { NoFields(v); }
      assert whole[1] == CLOSE_OBJ && whole[2..] == rest;
      assert FieldMeanings(v, ks) == map[];
    } else {
      assert whole[1..] == RenderFields(v, ks) + [CLOSE_OBJ] + rest;
      FieldsReadBack(v, ks, rest);
      FieldsHead(v, ks);
      assert whole[1] == RenderFields(v, ks)[0];
    }
  }

  lemma {:induction false} NoFields(v: Script)
    requires v.SObj? && Proper(v) && Printable(v)
    ensures RenderFields(v, []) == []
  {
  }

  lemma {:induction false} ObjectShape(v: Script)
    requires v.SObj? && Proper(v) && Printable(v)
    ensures Render(v) == [OPEN_OBJ] + RenderFields(v, Sort(v.keys)) + [CLOSE_OBJ]
    ensures Meaning(v) == Obj(FieldMeanings(v, Sort(v.keys)))
  {
    hide RenderFields;
    var ks := Sort(v.keys);
    assert Meaning(v).fields.Keys == FieldMeanings(v, ks).Keys;
  }

  lemma {:induction false} FieldsHead(v: Script, ks: seq<Text>)
    requires v.SObj? && Proper(v) && Printable(v) && ks != [] && forall k :: k in ks ==> k in v.values
    ensures RenderFields(v, ks) != [] && RenderFields(v, ks)[0] == QUOTE
  {
    hide Render, Escape;
  }

  /** What follows the value of the first field. */
  ghost function AfterField(v: Script, ks: seq<Text>, rest: Text): Text
    requires v.SObj? && Proper(v) && Printable(v) && ks != [] && forall k :: k in ks ==> k in v.values
  {
    if |ks| == 1 then [CLOSE_OBJ] + rest else [COMMA] + (RenderFields(v, ks[1..]) + [CLOSE_OBJ] + rest)
  }

  lemma {:induction false} FieldsShape(v: Script, ks: seq<Text>, rest: Text)
    requires v.SObj? && Proper(v) && Printable(v) && ks != [] && forall k :: k in ks ==> k in v.values
    ensures RenderFields(v, ks) + [CLOSE_OBJ] + rest ==
      [QUOTE] + (Escape(ks[0]) + [QUOTE] + ([COLON] + (Render(v.values[ks[0]]) + AfterField(v, ks, rest))))
  {
    hide Render, Escape;
    var value := Render(v.values[ks[0]]);
    if |ks| == 1 {
      LastFieldConcat(Escape(ks[0]), value, rest);
    } else {
      FieldConcat(Escape(ks[0]), value, RenderFields(v, ks[1..]), rest);
    }
  }

  lemma {:induction false} FieldConcat(key: Text, value: Text, others: Text, rest: Text)
    ensures ([QUOTE] + key + [QUOTE]) + [COLON] + value + [COMMA] + others + [CLOSE_OBJ] + rest ==
      [QUOTE] + (key + [QUOTE] + ([COLON] + (value + ([COMMA] + (others + [CLOSE_OBJ] + rest)))))
  {
  }

  lemma {:induction false} LastFieldConcat(key: Text, value: Text, rest: Text)
    ensures ([QUOTE] + key + [QUOTE]) + [COLON] + value + [CLOSE_OBJ] + rest ==
      [QUOTE] + (key + [QUOTE] + ([COLON] + (value + ([CLOSE_OBJ] + rest))))
  {
  }

  /** Reading one field: its key, its value, and then the end of the object or the next field. */
  lemma {:induction false} FieldReadsBack(k: Text, value: Text, json: Json, more: Text)
    requires Read(value + more) == Some((json, more)) && more != []
    requires more[0] == CLOSE_OBJ || (more[0] == COMMA && ReadFields(more[1..]).Some?)
    ensures ReadFields([QUOTE] + (Escape(k) + [QUOTE] + ([COLON] + (value + more)))) ==
      if more[0] == CLOSE_OBJ then Some((map[k := json], more[1..]))
      else Some((map[k := json] + ReadFields(more[1..]).value.0, ReadFields(more[1..]).value.1))
  {
    hide Read, ReadText, Escape;
    var tail := [COLON] + (value + more);
    var whole := [QUOTE] + (Escape(k) + [QUOTE] + tail);
    assert whole[1..] == Escape(k) + [QUOTE] + tail;
    assert tail[1..] == value + more;
    TextReadsBack(k, tail);
  }

  lemma {:induction false} FieldsReadBack(v: Script, ks: seq<Text>, rest: Text)
    requires v.SObj? && Proper(v) && Printable(v) && ks != [] && forall k :: k in ks ==> k in v.values
    ensures ReadFields(RenderFields(v, ks) + [CLOSE_OBJ] + rest) == Some((FieldMeanings(v, ks), rest))
    decreases v, 0, |ks|
  {
    hide Render, Read, Meaning, Escape, ReadFields, RenderFields;
    var k := ks[0];
    var more := AfterField(v, ks, rest);
    RenderReadsBack(v.values[k], more);
    FieldsShape(v, ks, rest);
    if |ks| == 1 {
      assert FieldMeanings(v, ks) == map[k := Meaning(v.values[k])];
      assert more[1..] == rest;
    } else {
      FieldsReadBack(v, ks[1..], rest);
      assert more[1..] == RenderFields(v, ks[1..]) + [CLOSE_OBJ] + rest;
      assert forall x :: x in ks <==> x == k || x in ks[1..];
      assert FieldMeanings(v, ks) == map[k := Meaning(v.values[k])] + FieldMeanings(v, ks[1..]);
    }
    FieldReadsBack(k, Render(v.values[k]), Meaning(v.values[k]), more);
  }

  // ---------------------------------------------------------------- equal text, equal value

  /** Values that denote the same JSON value print alike, whatever order their keys were added in. */
  lemma {:induction false} MeaningDeterminesText(v: Script, w: Script)
    requires Proper(v) && Printable(v) && Proper(w) && Printable(w) && Meaning(v) == Meaning(w)
    ensures Render(v) == Render(w)
    decreases v, 1
  {
    hide Digits, Escape, Sort;
    if v.SArr? && w.SArr? {
      ItemsDetermineText(v.items, w.items);
    } else if v.SObj? && w.SObj? {
      assert v.values.Keys == Meaning(v).fields.Keys == Meaning(w).fields.Keys == w.values.Keys;
      SortSorts(v.keys);
      SortSorts(w.keys);
      SortedUnique(Sort(v.keys), Sort(w.keys));
      FieldsDetermineText(v, w, Sort(v.keys));
    }
  }

  lemma {:induction false} ItemsDetermineText(a: seq<Script>, b: seq<Script>)
    requires AllFine(a) && AllFine(b) && Meanings(a) == Meanings(b)
    ensures RenderItems(a) == RenderItems(b)
    decreases a, 0
  {
    hide Render, Meaning;
    assert |a| == |Meanings(a)| == |b|;
    if a != [] {
      assert Meaning(a[0]) == Meanings(a)[0] == Meaning(b[0]);
      MeaningDeterminesText(a[0], b[0]);
      assert Meanings(a[1..]) == Meanings(a)[1..] && Meanings(b[1..]) == Meanings(b)[1..];
      ItemsDetermineText(a[1..], b[1..]);
    }
  }

  lemma {:induction false} FieldsDetermineText(v: Script, w: Script, ks: seq<Text>)
    requires v.SObj? && w.SObj? && Proper(v) && Printable(v) && Proper(w) && Printable(w) && Meaning(v) == Meaning(w)
    requires forall k :: k in ks ==> k in v.values && k in w.values
    ensures RenderFields(v, ks) == RenderFields(w, ks)
    decreases v, 0, |ks|
  {
    hide Render;
    if ks != [] {
      assert Meaning(v.values[ks[0]]) == Meaning(v).fields[ks[0]] == Meaning(w.values[ks[0]]);
      MeaningDeterminesText(v.values[ks[0]], w.values[ks[0]]);
      FieldsDetermineText(v, w, ks[1..]);
    }
  }

  /** Two script values print alike exactly when they are equal as JSON values. */
  lemma {:induction false} CanonicalIdentifies(v: Script, w: Script)
    requires Proper(v) && Printable(v) && Proper(w) && Printable(w)
    ensures Canonical(v) == Canonical(w) <==> Meaning(v) == Meaning(w)
  {
    hide Render, Meaning, Read;
    RenderReadsBack(v, []);
    RenderReadsBack(w, []);
    assert Render(v) + [] == Render(v) && Render(w) + [] == Render(w);
    if Meaning(v) == Meaning(w) {
      MeaningDeterminesText(v, w);
    }
  }

  /** Under a collision-free hash, equal digests of printed values mean equal JSON values. */
  lemma {:induction false} DigestIdentifies(hash: Text -> nat, v: Script, w: Script)
    requires Proper(v) && Printable(v) && Proper(w) && Printable(w)
    requires forall a, b :: hash(a) == hash(b) ==> a == b
    ensures hash(Render(v)) == hash(Render(w)) <==> Meaning(v) == Meaning(w)
  {
    hide Render, Meaning;
    CanonicalIdentifies(v, w);
  }

  // ---------------------------------------------------------------- the notation by name

  predicate Plain(s: string) { forall i :: 0 <= i < |s| ==> s[i] < '\U{80}' }

  /** ASCII text as code units. */
  function Units(s: string): Text
    requires Plain(s)
  {
    seq(|s|, i requires 0 <= i < |s| => s[i] as int)
  }

  /** Words, digits and punctuation are those of JSON. */
  lemma {:induction false} WordsByName()
    ensures Render(SNull) == Units("null") && Render(SBool(true)) == Units("true") &&
      Render(SBool(false)) == Units("false")
    ensures Render(SStr([])) == Units("\"\"") && Render(SArr([])) == Units("[]") &&
      Render(SObj([], map[])) == Units("{}")
    ensures Render(SNum(0)) == Units("0") && Render(SNum(-7)) == Units("-7") && Render(SNum(42)) == Units("42")
  {
    assert Digits(7) == [0x37] && Digits(4) == [0x34] && Digits(42) == Digits(4) + [0x32];
    assert Render(SArr([])) == [OPEN_ARR] + [] + [CLOSE_ARR];
    assert Sort([]) == [];
  }

  /** The characters that string literals escape, and how (section 7 of RFC 8259). */
  lemma {:induction false} EscapesByName(c: CodeUnit)
    ensures 0x20 <= c && c != 0x22 && c != 0x5C && !(0xD800 <= c <= 0xDFFF) ==> EscapeUnit(c) == [c]
    ensures c < 0x20 || 0xD800 <= c <= 0xDFFF ==> |EscapeUnit(c)| >= 2 && EscapeUnit(c)[0] == '\\' as int
  {
    hide Hex4;
  }

  lemma {:induction false} ShortEscapesByName()
    ensures EscapeUnit(0x22) == ['\\' as int, '"' as int] && EscapeUnit(0x5C) == ['\\' as int, '\\' as int]
    ensures EscapeUnit(0x08) == ['\\' as int, 'b' as int] && EscapeUnit(0x0C) == ['\\' as int, 'f' as int]
    ensures EscapeUnit(0x0A) == ['\\' as int, 'n' as int] && EscapeUnit(0x0D) == ['\\' as int, 'r' as int]
    ensures EscapeUnit(0x09) == ['\\' as int, 't' as int]
  {
    hide Hex4;
  }

  /** Four lower-case hexadecimal digits, most significant first. */
  lemma {:induction false} LongEscapesByName()
    ensures Hex4(0xD8AB) == ['d' as int, '8' as int, 'a' as int, 'b' as int]
    ensures EscapeUnit(0xD8AB) == ['\\' as int, 'u' as int] + Hex4(0xD8AB)
    ensures EscapeUnit(0x1F) == ['\\' as int, 'u' as int] + Hex4(0x1F)
  {
  }

  lemma {:induction false} PunctuationByName()
    ensures Units("[") == [OPEN_ARR] && Units("]") == [CLOSE_ARR] && Units("{") == [OPEN_OBJ] &&
      Units("}") == [CLOSE_OBJ]
    ensures Units(",") == [COMMA] && Units(":") == [COLON]
  {
  }

  /** Items are separated by commas and nothing else. */
  lemma {:induction false} ArraysByName(x: Script, y: Script)
    requires Proper(x) && Printable(x) && Proper(y) && Printable(y)
    ensures Render(SArr([x, y])) == Units("[") + (Render(x) + Units(",") + Render(y)) + Units("]")
  {
    PunctuationByName();
    hide Units;
    assert [x, y][1..] == [y];
    assert RenderItems([y]) == Render(y);
    assert RenderItems([x, y]) == Render(x) + [COMMA] + RenderItems([y]);
  }

  /** The text of one field. */
  function Field(k: Text, x: Script): Text
    requires Proper(x) && Printable(x)
  {
    Quoted(k) + Units(":") + Render(x)
  }

  lemma {:induction false} LastField(v: Script, k: Text)
    requires v.SObj? && Proper(v) && Printable(v) && k in v.values
    ensures RenderFields(v, [k]) == Field(k, v.values[k])
  {
    hide Quoted, Render;
    PunctuationByName();
  }

  lemma {:induction false} FirstField(v: Script, j: Text, k: Text)
    requires v.SObj? && Proper(v) && Printable(v) && j in v.values && k in v.values
    ensures RenderFields(v, [j, k]) == Field(j, v.values[j]) + Units(",") + RenderFields(v, [k])
  {
    hide Quoted, Render;
    PunctuationByName();
    assert [j, k][1..] == [k];
  }

  /** Fields are a key, a colon and a value, separated by commas, in the order of their keys. */
  lemma {:induction false} ObjectsByName(v: Script, j: Text, k: Text)
    requires v.SObj? && Proper(v) && Printable(v) && Less(j, k) && v.keys in {[j, k], [k, j]}
    ensures Render(v) == Units("{") + (Field(j, v.values[j]) + Units(",") + Field(k, v.values[k])) + Units("}")
  {
    hide Quoted, Field, RenderFields, Sort, Units;
    PunctuationByName();
    SortPair(j, k);
    FirstField(v, j, k);
    LastField(v, k);
  }

  lemma {:induction false} SortPair(j: Text, k: Text)
    requires Less(j, k)
    ensures Sort([k, j]) == Sort([j, k]) == [j, k]
  {
    LessIrreflexive(j);
    SortSorts([k, j]);
    SortSorts([j, k]);
    SortedUnique(Sort([k, j]), [j, k]);
    SortedUnique(Sort([j, k]), [j, k]);
  }

  /** Keys are compared unit by unit, and a prefix comes first. */
  lemma {:induction false} LessByUnits(a: Text, b: Text)
    ensures Less(a, b) <==>
      exists n :: 0 <= n <= |a| && n < |b| && a[..n] == b[..n] && (n == |a| || a[n] < b[n])
  {
    if a != [] && b != [] && a[0] == b[0] {
      LessByUnits(a[1..], b[1..]);
      if Less(a, b) {
        var n :| 0 <= n <= |a| - 1 && n < |b| - 1 && a[1..][..n] == b[1..][..n] &&
          (n == |a| - 1 || a[1..][n] < b[1..][n]);
        assert a[..n + 1] == [a[0]] + a[1..][..n] && b[..n + 1] == [b[0]] + b[1..][..n];
      }
      if n :| 0 <= n <= |a| && n < |b| && a[..n] == b[..n] && (n == |a| || a[n] < b[n]) {
        assert n > 0;
        assert a[1..][..n - 1] == a[..n][1..] && b[1..][..n - 1] == b[..n][1..];
      }
    } else if a == [] && b != [] {
      assert a[..0] == b[..0];
    } else if a != [] && b != [] {
      assert a[..0] == b[..0];
      forall n | 0 < n <= |a| && n < |b| ensures a[..n] != b[..n] {
        assert a[..n][0] == a[0] && b[..n][0] == b[0];
      }
    }
  }
}
