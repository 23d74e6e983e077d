/**
IP addresses as text and the `cidr` operator: `parseIpv4`, `parseIpv6` and `cidrMatches`.

Strings are sequences of characters; an address is the natural number that its text denotes.
*/
module CidrMatching {
  import opened Results
  import opened AddressBits

  // ---------------------------------------------------------------- splitting text

  /** `s.split(c)` for a single character. */
  function SplitOn(s: string, c: char): (r: seq<string>)
    ensures |r| >= 1
  {
    if s == "" then [""]
    else
      var rest := SplitOn(s[1..], c);
      if s[0] == c then [""] + rest else [[s[0]] + rest[0]] + rest[1..]
  }

  function Join(parts: seq<string>, c: char): string
    requires |parts| >= 1
  {
    if |parts| == 1 then parts[0] else parts[0] + [c] + Join(parts[1..], c)
  }

  /** No part contains the separator. */
  predicate Free(parts: seq<string>, c: char) { forall i :: 0 <= i < |parts| ==> c !in parts[i] }

  lemma {:induction false} SplitPlain(a: string, c: char)
    requires c !in a
    ensures SplitOn(a, c) == [a]
  {
    if a != "" {
      SplitPlain(a[1..], c);
      assert [a[0]] + a[1..] == a;
    }
  }

  lemma {:induction false} SplitAppend(a: string, c: char, t: string)
    requires c !in a
    ensures SplitOn(a + [c] + t, c) == [a] + SplitOn(t, c)
  {
    var s := a + [c] + t;
    if a == "" {
      assert s[1..] == t;
    } else {
      SplitAppend(a[1..], c, t);
      assert s[1..] == a[1..] + [c] + t && s[0] == a[0];
      assert [a[0]] + a[1..] == a;
    }
  }

  lemma {:induction false} SplitOfJoin(parts: seq<string>, c: char)
    requires |parts| >= 1 && Free(parts, c)
    ensures SplitOn(Join(parts, c), c) == parts
  {
    if |parts| == 1 {
      SplitPlain(parts[0], c);
    } else {
      SplitAppend(parts[0], c, Join(parts[1..], c));
      SplitOfJoin(parts[1..], c);
    }
  }

  lemma {:induction false} JoinOfSplit(s: string, c: char)
    ensures Join(SplitOn(s, c), c) == s && Free(SplitOn(s, c), c)
  {
    if s != "" {
      JoinOfSplit(s[1..], c);
      var rest := SplitOn(s[1..], c);
      var all := SplitOn(s, c);
      assert [s[0]] + s[1..] == s;
      if s[0] == c {
        assert all[1..] == rest;
        assert Join(all, c) == "" + [c] + Join(rest, c);
      } else {
        assert all[1..] == rest[1..];
      }
    }
  }

  /** `s.split("::")` */
  function SplitPairs(s: string): (r: seq<string>)
    ensures |r| >= 1
  {
    if |s| < 2 then [s]
    else if s[0] == ':' && s[1] == ':' then [""] + SplitPairs(s[2..])
    else var rest := SplitPairs(s[1..]); [[s[0]] + rest[0]] + rest[1..]
  }

  /** No pair of colons, and none arises when a colon follows. */
  predicate Tight(a: string) { forall i :: 0 <= i < |a| && a[i] == ':' ==> i + 1 < |a| && a[i + 1] != ':' }

  lemma {:induction false} PairsPlain(b: string)
    requires Tight(b)
    ensures SplitPairs(b) == [b]
  {
    if |b| >= 2 {
      assert b[0] == ':' ==> b[1] != ':';
      forall i | 0 <= i < |b[1..]| && b[1..][i] == ':' ensures i + 1 < |b[1..]| && b[1..][i + 1] != ':' {
        assert b[i + 1] == ':';
      }
      PairsPlain(b[1..]);
      assert [b[0]] + b[1..] == b;
    }
  }

  lemma {:induction false} PairsAppend(a: string, b: string)
    requires Tight(a)
    ensures SplitPairs(a + "::" + b) == [a] + SplitPairs(b)
  {
    var s := a + "::" + b;
    if a == "" {
      assert s[2..] == b;
    } else {
      forall i | 0 <= i < |a[1..]| && a[1..][i] == ':' ensures i + 1 < |a[1..]| && a[1..][i + 1] != ':' {
        assert a[i + 1] == ':';
      }
      PairsAppend(a[1..], b);
      assert s[1..] == a[1..] + "::" + b && s[0] == a[0];
      assert a[0] == ':' ==> s[1] == a[1];
      assert [a[0]] + a[1..] == a;
    }
  }

  lemma {:induction false} PairsRejoin(s: string)
    ensures |SplitPairs(s)| == 1 ==> SplitPairs(s) == [s]
    ensures |SplitPairs(s)| == 2 ==> s == SplitPairs(s)[0] + "::" + SplitPairs(s)[1]
  {
    if |s| >= 2 {
      if s[0] == ':' && s[1] == ':' {
        PairsRejoin(s[2..]);
        assert s == "::" + s[2..];
      } else {
        PairsRejoin(s[1..]);
        assert s == [s[0]] + s[1..];
      }
    }
  }

  // ---------------------------------------------------------------- numerals

  predicate IsDigit(c: char) { '0' <= c <= '9' }

  function DigitValue(c: char): nat
    requires IsDigit(c)
  {
    c as int - '0' as int
  }

  predicate AllDigits(s: string) { forall i :: 0 <= i < |s| ==> IsDigit(s[i]) }

  function Decimal(s: string): nat
    requires AllDigits(s)
  {
    if s == "" then 0 else 10 * Decimal(s[..|s| - 1]) + DigitValue(s[|s| - 1])
  }

  /** The usual decimal notation. */
  function Digits(n: nat): (s: string)
    ensures AllDigits(s) && |s| >= 1
  {
    var last := ['0' + (n % 10) as char];
    if n < 10 then last else Digits(n / 10) + last
  }

  lemma {:induction false} DecimalOfDigits(n: nat)
    ensures Decimal(Digits(n)) == n
  {
    var s := Digits(n);
    if n >= 10 {
      DecimalOfDigits(n / 10);
      assert s[..|s| - 1] == Digits(n / 10);
    } else {
      assert s[..|s| - 1] == "";
    }
  }

  predicate IsHex(c: char) { IsDigit(c) || 'a' <= c <= 'f' || 'A' <= c <= 'F' }

  function HexDigit(c: char): (d: nat)
    requires IsHex(c)
    ensures d < 16
  {
    if IsDigit(c) then DigitValue(c) else if 'a' <= c <= 'f' then 10 + (c as int - 'a' as int)
      else 10 + (c as int - 'A' as int)
  }

  /** `/^[0-9a-f]{1,4}$/iu` */
  predicate IsGroup(g: string) { 1 <= |g| <= 4 && forall i :: 0 <= i < |g| ==> IsHex(g[i]) }

  function HexDigits(g: string): seq<nat>
    requires IsGroup(g)
  {
    seq(|g|, i requires 0 <= i < |g| => HexDigit(g[i]))
  }

  function HexValue(g: string): nat
    requires IsGroup(g)
  {
    Positional(HexDigits(g), 4)
  }

  lemma {:induction false} Sixteen()
    ensures Pow2(4) == 16 && Pow2(8) == 256 && Pow2(16) == 65536
  {
    assert Pow2(4) == 2 * Pow2(3) && Pow2(3) == 2 * Pow2(2) && Pow2(2) == 2 * Pow2(1) && Pow2(1) == 2;
    Pow2Add(4, 4);
    Pow2Add(8, 8);
  }

  lemma {:induction false} Pow2Grows(a: nat, b: nat)
    requires a <= b
    ensures Pow2(a) <= Pow2(b)
  {
    if a < b { Pow2Grows(a, b - 1); }
  }

  lemma {:induction false} GroupFits(g: string)
    requires IsGroup(g)
    ensures HexValue(g) < Pow2(16)
  {
    Sixteen();
    PositionalBound(HexDigits(g), 4);
    Pow2Grows(4 * |g|, 16);
  }

  // ---------------------------------------------------------------- IPv4

  /** `/^\d{1,3}$/u` and at most 255. */
  predicate IsOctet(p: string) { 1 <= |p| <= 3 && AllDigits(p) && Decimal(p) <= 255 }

  predicate Octets(parts: seq<string>) { forall i :: 0 <= i < |parts| ==> IsOctet(parts[i]) }

  function OctetValues(parts: seq<string>): (r: seq<nat>)
    requires Octets(parts)
  {
    seq(|parts|, i requires 0 <= i < |parts| => Decimal(parts[i]))
  }

  /** The address that a text denotes, if it is one. */
  function Ipv4(value: string): Option<nat> {
    var parts := SplitOn(value, '.');
    if |parts| == 4 && Octets(parts) then Some(Positional(OctetValues(parts), 8)) else None
  }

  lemma {:induction false} AppendOctet(parts: seq<string>, n: nat)
    requires n < |parts| && Octets(parts[..n]) && IsOctet(parts[n])
    ensures Octets(parts[..n + 1])
    ensures Or(ShiftLeft(Positional(OctetValues(parts[..n]), 8), 8), Decimal(parts[n])) ==
      Positional(OctetValues(parts[..n + 1]), 8)
  {
    hide Or, Pow2, Decimal;
    var octet := Decimal(parts[n]);
    Sixteen();
    OrShifted(Positional(OctetValues(parts[..n]), 8), octet, 8);
    assert OctetValues(parts[..n + 1]) == OctetValues(parts[..n]) + [octet];
    PositionalSnoc(OctetValues(parts[..n]), octet, 8);
  }

  /** `parseIpv4` */
  method ParseIpv4(value: string) returns (r: Option<nat>)
    ensures r == Ipv4(value)
  {
    hide Or, ShiftLeft, Positional, Decimal, SplitOn;
    var parts := SplitOn(value, '.');
    if |parts| != 4 {
      return None;
    }
    var result := 0;
    assert result == Positional(OctetValues(parts[..0]), 8) by { NoDigits(OctetValues(parts[..0]), 8); }
    for n := 0 to 4
      invariant Octets(parts[..n]) && result == Positional(OctetValues(parts[..n]), 8)
    {
      var part := parts[n];
      if !(1 <= |part| <= 3 && AllDigits(part)) || Decimal(part) > 255 {
        assert !IsOctet(parts[n]);
        return None;
      }
      AppendOctet(parts, n);
      result := Or(ShiftLeft(result, 8), Decimal(part));
    }
    assert parts[..4] == parts;
    return Some(result);
  }

  lemma {:induction false} NoDigits(digits: seq<nat>, k: nat)
    requires digits == []
    ensures Positional(digits, k) == 0
  {
  }

  /** Exactly the dotted quads of octets are addresses, with the usual value. */
  lemma {:induction false} Ipv4ParsesExactly(value: string, v: nat)
    ensures Ipv4(value) == Some(v) <==>
      exists p: seq<string> :: |p| == 4 && Octets(p) && value == Join(p, '.') && v == DottedValue(p)
  {
    var parts := SplitOn(value, '.');
    JoinOfSplit(value, '.');
    if |parts| == 4 && Octets(parts) {
      DottedIsPositional(parts);
    }
    forall p: seq<string> | |p| == 4 && Octets(p) && value == Join(p, '.') ensures parts == p {
      SplitOfJoin(p, '.');
    }
  }

  function DottedValue(p: seq<string>): nat
    requires |p| == 4 && Octets(p)
  {
    0x1000000 * Decimal(p[0]) + 0x10000 * Decimal(p[1]) + 0x100 * Decimal(p[2]) + Decimal(p[3])
  }

  lemma {:induction false} DottedIsPositional(p: seq<string>)
    requires |p| == 4 && Octets(p)
    ensures Positional(OctetValues(p), 8) == DottedValue(p)
  {
    var d := OctetValues(p);
    Sixteen();
    assert d == [] + [d[0]] + [d[1]] + [d[2]] + [d[3]];
    PositionalSnoc([], d[0], 8);
    PositionalSnoc([] + [d[0]], d[1], 8);
    PositionalSnoc([] + [d[0]] + [d[1]], d[2], 8);
    PositionalSnoc([] + [d[0]] + [d[1]] + [d[2]], d[3], 8);
  }

  lemma {:induction false} Ipv4Fits(value: string)
    ensures Ipv4(value).Some? ==> Ipv4(value).value < Pow2(32)
  {
    var parts := SplitOn(value, '.');
    if |parts| == 4 && Octets(parts) {
      Sixteen();
      PositionalBound(OctetValues(parts), 8);
    }
  }

  // ---------------------------------------------------------------- IPv6

  predicate Groups(gs: seq<string>) { forall i :: 0 <= i < |gs| ==> IsGroup(gs[i]) }

  function GroupValues(gs: seq<string>): (r: seq<nat>)
    requires Groups(gs)
  {
    seq(|gs|, i requires 0 <= i < |gs| => HexValue(gs[i]))
  }

  function Zeros(n: nat): seq<string> { seq(n, i => "0") }

  /** The groups on one side of the elision. */
  function Side(text: string): seq<string> { if text == "" then [] else SplitOn(text, ':') }

  predicate IsIpv6Text(value: string) {
    value != "" && forall i :: 0 <= i < |value| ==> IsHex(value[i]) || value[i] == ':'
  }

  /** The groups of a text, with the elided ones filled in; `None` if their number is wrong. */
  function Spread(value: string): (r: Option<seq<string>>)
    ensures r.Some? ==> |r.value| == 8
  {
    var sides := SplitPairs(value);
    if !IsIpv6Text(value) || |sides| > 2 then None
    else
      var left := Side(sides[0]);
      var right := if |sides| == 2 then Side(sides[1]) else [];
      if |sides| == 1 && |left| != 8 then None
      else if 8 - |left| - |right| < (if |sides| == 2 then 1 else 0) then None
      else Some(left + Zeros(8 - |left| - |right|) + right)
  }

  function Ipv6(value: string): Option<nat> {
    var groups := Spread(value);
    if groups.Some? && Groups(groups.value) then Some(Positional(GroupValues(groups.value), 16)) else None
  }

  lemma {:induction false} AppendGroup(groups: seq<string>, n: nat)
    requires n < |groups| && Groups(groups[..n]) && IsGroup(groups[n])
    ensures Groups(groups[..n + 1])
    ensures Or(ShiftLeft(Positional(GroupValues(groups[..n]), 16), 16), HexValue(groups[n])) ==
      Positional(GroupValues(groups[..n + 1]), 16)
  {
    hide Or, Pow2, HexValue;
    var value := HexValue(groups[n]);
    GroupFits(groups[n]);
    OrShifted(Positional(GroupValues(groups[..n]), 16), value, 16);
    assert GroupValues(groups[..n + 1]) == GroupValues(groups[..n]) + [value];
    PositionalSnoc(GroupValues(groups[..n]), value, 16);
  }

  /** `parseIpv6` */
  method ParseIpv6(value: string) returns (r: Option<nat>)
    ensures r == Ipv6(value)
  {
    hide Or, ShiftLeft, Positional, HexValue, SplitOn, SplitPairs, IsGroup;
    var sides := SplitPairs(value);
    if !IsIpv6Text(value) || |sides| > 2 {
      return None;
    }
    var left := if sides[0] != "" then SplitOn(sides[0], ':') else [];
    var right := if |sides| == 2 && sides[1] != "" then SplitOn(sides[1], ':') else [];
    if |sides| == 1 && |left| != 8 {
      return None;
    }
    var missing := 8 - |left| - |right|;
    if missing < (if |sides| == 2 then 1 else 0) {
      return None;
    }
    var groups := left + Zeros(missing) + right;
    assert Spread(value) == Some(groups);
    var result := 0;
    assert result == Positional(GroupValues(groups[..0]), 16) by { NoDigits(GroupValues(groups[..0]), 16); }
    for n := 0 to |groups|
      invariant Groups(groups[..n]) && result == Positional(GroupValues(groups[..n]), 16)
    {
      if !IsGroup(groups[n]) {
        return None;
      }
      AppendGroup(groups, n);
      result := Or(ShiftLeft(result, 16), HexValue(groups[n]));
    }
    assert groups[..|groups|] == groups;
    return Some(result);
  }

  /** Groups separated by colons; nothing for no groups. */
  function Text(gs: seq<string>): string { if gs == [] then "" else Join(gs, ':') }

  /** The text writes these groups, all eight or with a run between `left` and `right` elided. */
  predicate Writes(value: string, left: seq<string>, right: seq<string>) {
    && Groups(left) && Groups(right)
    && ((value == Text(left) && |left| == 8 && right == []) ||
      (value == Text(left) + "::" + Text(right) && |left| + |right| <= 7))
  }

  lemma {:induction false} GroupsAreFree(gs: seq<string>)
    requires Groups(gs)
    ensures Free(gs, ':')
  {
    forall i | 0 <= i < |gs| ensures ':' !in gs[i] {
      var g := gs[i];
      assert IsGroup(g);
      forall k | 0 <= k < |g| ensures g[k] != ':' { assert IsHex(g[k]); }
    }
  }

  lemma {:induction false} SideOfText(gs: seq<string>)
    requires Groups(gs)
    ensures Side(Text(gs)) == gs && (gs != [] ==> Text(gs) != "")
  {
    if gs != [] {
      GroupsAreFree(gs);
      SplitOfJoin(gs, ':');
      TextShape(gs);
    }
  }

  /** Colons of the text stand between hexadecimal digits. */
  lemma {:induction false} TextShape(gs: seq<string>)
    requires Groups(gs)
    ensures Tight(Text(gs))
    ensures forall i :: 0 <= i < |Text(gs)| ==> IsHex(Text(gs)[i]) || Text(gs)[i] == ':'
    ensures gs != [] ==> Text(gs) != "" && IsHex(Text(gs)[0])
  {
    if gs != [] {
      var g := gs[0];
      assert IsGroup(g);
      if |gs| > 1 {
        var rest := gs[1..];
        assert Groups(rest) by { forall i | 0 <= i < |rest| ensures IsGroup(rest[i]) { assert rest[i] == gs[i + 1]; } }
        TextShape(rest);
        assert Text(gs) == g + ":" + Text(rest);
        TightJoin(g, Text(rest));
      } else {
        assert Text(gs) == g;
      }
    }
  }

  lemma {:induction false} TightJoin(g: string, t: string)
    requires IsGroup(g) && Tight(t) && t != "" && IsHex(t[0])
    ensures Tight(g + ":" + t)
  {
    var s := g + ":" + t;
    assert forall i :: 0 <= i < |g| ==> s[i] == g[i] && IsHex(g[i]);
    forall i | |g| <= i < |s| && s[i] == ':' ensures i + 1 < |s| && s[i + 1] != ':' {
      if i == |g| {
        assert s[i + 1] == t[0];
      } else {
        assert s[i] == t[i - |g| - 1] && t[i - |g| - 1] == ':';
      }
    }
  }

  /** What a written address spreads to. */
  lemma {:induction false} SpreadOfText(value: string, left: seq<string>, right: seq<string>)
    requires Writes(value, left, right)
    ensures Spread(value) == Some(left + Zeros(8 - |left| - |right|) + right)
  {
    hide SplitPairs, SplitOn, Tight, Join;
    TextShape(left);
    TextShape(right);
    SideOfText(left);
    SideOfText(right);
    PairsPlain(Text(left));
    PairsPlain(Text(right));
    if value == Text(left) && |left| == 8 && right == [] {
      assert IsIpv6Text(value);
      assert left + Zeros(0) + [] == left;
    } else {
      PairsAppend(Text(left), Text(right));
      CharsOfElided(Text(left), Text(right));
    }
  }

  lemma {:induction false} CharsOfElided(a: string, b: string)
    requires forall i :: 0 <= i < |a| ==> IsHex(a[i]) || a[i] == ':'
    requires forall i :: 0 <= i < |b| ==> IsHex(b[i]) || b[i] == ':'
    ensures IsIpv6Text(a + "::" + b)
  {
    var s := a + "::" + b;
    forall i | 0 <= i < |s| ensures IsHex(s[i]) || s[i] == ':' {
      if i < |a| { assert s[i] == a[i]; } else if i >= |a| + 2 { assert s[i] == b[i - |a| - 2]; }
    }
  }

  lemma {:induction false} ZeroGroup()
    ensures IsGroup("0") && HexValue("0") == 0
  {
    assert HexDigits("0") == [] + [0];
    PositionalSnoc([], 0, 4);
  }

  function ZeroValues(n: nat): seq<nat> { seq(n, i => 0) }

  /** The value of a written address. */
  function Written(left: seq<string>, right: seq<string>): nat
    requires Groups(left) && Groups(right) && |left| + |right| <= 8
  {
    Positional(GroupValues(left) + ZeroValues(8 - |left| - |right|) + GroupValues(right), 16)
  }

  lemma {:induction false} ValueOfText(left: seq<string>, right: seq<string>)
    requires Groups(left) && Groups(right) && |left| + |right| <= 8
    ensures var gs := left + Zeros(8 - |left| - |right|) + right;
      Groups(gs) && Positional(GroupValues(gs), 16) == Written(left, right)
  {
    hide HexValue, IsGroup;
    ZeroGroup();
    var gs := left + Zeros(8 - |left| - |right|) + right;
    assert Groups(gs);
    assert GroupValues(gs) == GroupValues(left) + ZeroValues(8 - |left| - |right|) + GroupValues(right);
  }

  /** Text that parses is read as its groups. */
  lemma {:induction false} TextOfSpread(value: string)
    requires Ipv6(value).Some?
    ensures exists left, right :: Writes(value, left, right)
  {
    hide SplitOn, SplitPairs, IsGroup;
    var sides := SplitPairs(value);
    PairsRejoin(value);
    var left := Side(sides[0]);
    var right := if |sides| == 2 then Side(sides[1]) else [];
    var gs := Spread(value).value;
    var n := 8 - |left| - |right|;
    assert gs == left + Zeros(n) + right;
    forall i | 0 <= i < |left| ensures IsGroup(left[i]) { assert gs[i] == left[i]; }
    forall i | 0 <= i < |right| ensures IsGroup(right[i]) { assert gs[|left| + n + i] == right[i]; }
    TextOfSide(sides[0]);
    if |sides| == 2 { TextOfSide(sides[1]); }
    assert Writes(value, left, right);
  }

  lemma {:induction false} TextOfSide(text: string)
    ensures Text(Side(text)) == text
  {
    if text != "" { JoinOfSplit(text, ':'); }
  }

  /**
  Exactly these texts are addresses: eight groups, or fewer around one elision, which stands for the
  missing groups; the value is the positional one, with zeros for what is elided.
  */
  lemma {:induction false} Ipv6ParsesExactly(value: string, v: nat)
    ensures Ipv6(value) == Some(v) <==>
      exists left, right :: Writes(value, left, right) && v == Written(left, right)
  {
    hide Spread, Writes, Written;
    forall left, right | Writes(value, left, right)
      ensures |left| + |right| <= 8 && Groups(left) && Groups(right) && Ipv6(value) == Some(Written(left, right))
    {
      ValueOfWriting(value, left, right);
    }
    if Ipv6(value).Some? {
      TextOfSpread(value);
    }
  }

  lemma {:induction false} ValueOfWriting(value: string, left: seq<string>, right: seq<string>)
    requires Writes(value, left, right)
    ensures |left| + |right| <= 8 && Groups(left) && Groups(right) && Ipv6(value) == Some(Written(left, right))
  {
    SpreadOfText(value, left, right);
    ValueOfText(left, right);
  }

  /** Eliding any one run of zero groups leaves the address the same. */
  lemma {:induction false} ElisionKeepsTheAddress(gs: seq<string>, i: nat, j: nat)
    requires |gs| == 8 && Groups(gs) && i < j <= 8
    requires forall k :: i <= k < j ==> HexValue(gs[k]) == 0
    ensures Ipv6(Text(gs[..i]) + "::" + Text(gs[j..])) == Ipv6(Text(gs)) == Some(Positional(GroupValues(gs), 16))
  {
    hide HexValue, IsGroup, Positional, Text, Ipv6;
    var left, right := gs[..i], gs[j..];
    assert Groups(left) && Groups(right);
    ValueOfWriting(Text(left) + "::" + Text(right), left, right);
    ValueOfWriting(Text(gs), gs, []);
    assert GroupValues(gs) == GroupValues(left) + ZeroValues(8 - |left| - |right|) + GroupValues(right);
    assert GroupValues(gs) == GroupValues(gs) + ZeroValues(0) + GroupValues([]);
  }

  lemma {:induction false} Ipv6Fits(value: string)
    ensures Ipv6(value).Some? ==> Ipv6(value).value < Pow2(128)
  {
    hide Spread, Positional, Pow2, HexValue, IsGroup;
    if Ipv6(value).Some? {
      var gs := Spread(value).value;
      forall i | 0 <= i < |gs| ensures GroupValues(gs)[i] < Pow2(16) { GroupFits(gs[i]); }
      PositionalBound(GroupValues(gs), 16);
    }
  }

  /** No text is an address of both families. */
  lemma {:induction false} FamiliesAreApart(value: string)
    ensures Ipv4(value).None? || Ipv6(value).None?
  {
    if '.' in value {
      assert !IsHex('.');
    } else {
      SplitPlain(value, '.');
    }
  }

  // ---------------------------------------------------------------- membership

  /** The family of a comparison, and the two addresses if both belong to it. */
  function Bits(address: string, network: string): nat {
    if Ipv4(address).Some? && Ipv4(network).Some? then 32 else 128
  }

  function Parsed(text: string, bits: nat): Option<nat> { if bits == 32 then Ipv4(text) else Ipv6(text) }

  /** Both addresses are of one family and lie in the same block of the size that the prefix leaves. */
  predicate SharePrefix(address: string, network: string, prefix: nat) {
    var bits := Bits(address, network);
    var x, y := Parsed(address, bits), Parsed(network, bits);
    x.Some? && y.Some? && prefix <= bits && Block(x.value, bits - prefix) == Block(y.value, bits - prefix)
  }

  /** The address lies in the network: a network address, a slash and a prefix length. */
  predicate InNetwork(address: string, network: string) {
    var parts := SplitOn(network, '/');
    |parts| == 2 && parts[0] != "" && parts[1] != "" && AllDigits(parts[1]) &&
      SharePrefix(address, parts[0], Decimal(parts[1]))
  }

  /** `cidrMatches`: the masked comparison decides membership. */
  method CidrMatches(address: string, network: string) returns (matches: bool)
    ensures matches <==> InNetwork(address, network)
  {
    hide And, Mask, Block, Ipv4, Ipv6, SplitOn, Decimal, Pow2;
    var parts := SplitOn(network, '/');
    if |parts| != 2 || parts[0] == "" || parts[1] == "" || !AllDigits(parts[1]) {
      return false;
    }
    var ipv4Address := ParseIpv4(address);
    var ipv4Network := ParseIpv4(parts[0]);
    var bits := if ipv4Address.Some? && ipv4Network.Some? then 32 else 128;
    var x, y := ipv4Address, ipv4Network;
    if bits != 32 {
      x := ParseIpv6(address);
      y := ParseIpv6(parts[0]);
    }
    var prefix := Decimal(parts[1]);
    if x.None? || y.None? || prefix > bits {
      return false;
    }
    Ipv4Fits(address);
    Ipv4Fits(parts[0]);
    Ipv6Fits(address);
    Ipv6Fits(parts[0]);
    MaskComparesQuotients(x.value, y.value, bits, prefix);
    var mask := Mask(bits, prefix);
    return And(x.value, mask) == And(y.value, mask);
  }

  /** A network as people write it. */
  function Network(address: string, prefix: nat): string { address + "/" + Digits(prefix) }

  lemma {:induction false} NetworkMeaning(address: string, network: string, prefix: nat)
    requires '/' !in network
    ensures InNetwork(address, Network(network, prefix)) <==> network != "" && SharePrefix(address, network, prefix)
  {
    hide SharePrefix, SplitOn, Decimal;
    var digits := Digits(prefix);
    assert '/' !in digits by { NoSlash(digits); }
    SplitAppend(network, '/', digits);
    SplitPlain(digits, '/');
    DecimalOfDigits(prefix);
    assert [network] + [digits] == [network, digits];
  }

  lemma {:induction false} NoSlash(s: string)
    requires AllDigits(s)
    ensures '/' !in s
  {
    forall i | 0 <= i < |s| ensures s[i] != '/' { assert IsDigit(s[i]); }
  }

  /** An address in a network is in every larger network around it. */
  lemma {:induction false} ShorterPrefixesMatch(address: string, network: string, prefix: nat, shorter: nat)
    requires '/' !in network && shorter <= prefix && InNetwork(address, Network(network, prefix))
    ensures InNetwork(address, Network(network, shorter))
  {
    hide InNetwork, Network, Block, Ipv4, Ipv6;
    NetworkMeaning(address, network, prefix);
    NetworkMeaning(address, network, shorter);
    var bits := Bits(address, network);
    ShorterPrefixAgrees(Parsed(address, bits).value, Parsed(network, bits).value, bits, prefix, shorter);
  }

  /** The longest prefix admits exactly the network address itself, and the shortest one its whole family. */
  lemma {:induction false} ExtremePrefixes(address: string, network: string)
    requires '/' !in network && network != ""
    ensures var bits := Bits(address, network);
      && (InNetwork(address, Network(network, bits)) <==>
        Parsed(address, bits).Some? && Parsed(address, bits) == Parsed(network, bits))
      && (InNetwork(address, Network(network, 0)) <==> Parsed(address, bits).Some? && Parsed(network, bits).Some?)
  {
    hide InNetwork, Network, Ipv4, Ipv6, Block, Pow2;
    var bits := Bits(address, network);
    NetworkMeaning(address, network, bits);
    NetworkMeaning(address, network, 0);
    Ipv4Fits(address);
    Ipv4Fits(network);
    Ipv6Fits(address);
    Ipv6Fits(network);
    var x, y := Parsed(address, bits), Parsed(network, bits);
    if x.Some? && y.Some? {
      ExtremeBlocks(x.value, bits);
      ExtremeBlocks(y.value, bits);
    }
  }

  lemma {:induction false} ExtremeBlocks(x: nat, bits: nat)
    requires x < Pow2(bits)
    ensures Block(x, 0) == x && Block(x, bits) == 0
  {
    Quotient(x, Pow2(bits), 0, x);
  }

  // ---------------------------------------------------------------- numerals by name

  lemma {:induction false} HexByName(k: nat)
    requires k < 16
    ensures IsHex("0123456789abcdef"[k]) && HexDigit("0123456789abcdef"[k]) == k
    ensures IsHex("0123456789ABCDEF"[k]) && HexDigit("0123456789ABCDEF"[k]) == k
    ensures !IsHex('g') && !IsHex('G') && !IsHex(':') && !IsHex('.') && !IsHex('/') && !IsHex('@') && !IsHex('`')
  {
  }

  /** A further digit multiplies a group by sixteen. */
  lemma {:induction false} GroupsGrow(g: string, c: char)
    requires IsGroup(g) && IsHex(c) && |g| < 4
    ensures IsGroup(g + [c]) && HexValue(g + [c]) == 16 * HexValue(g) + HexDigit(c)
    ensures IsGroup([c]) && HexValue([c]) == HexDigit(c)
  {
    Sixteen();
    assert HexDigits(g + [c]) == HexDigits(g) + [HexDigit(c)];
    PositionalSnoc(HexDigits(g), HexDigit(c), 4);
    assert HexDigits([c]) == [] + [HexDigit(c)];
    PositionalSnoc([], HexDigit(c), 4);
  }

  /** The numbers up to 255 are octets, in at most three digits. */
  lemma {:induction false} OctetsByName(n: nat)
    ensures IsOctet(Digits(n)) <==> n <= 255
  {
    hide Decimal;
    DecimalOfDigits(n);
    if n <= 255 {
      DigitsOfSmall(n);
    }
  }

  lemma {:induction false} DigitsOfSmall(n: nat)
    ensures n < 10 ==> |Digits(n)| == 1
    ensures n < 100 ==> |Digits(n)| <= 2
    ensures n < 1000 ==> |Digits(n)| <= 3
  {
    if n >= 10 {
      DigitsOfSmall(n / 10);
    }
  }

  /** A leading zero does not change an octet that still fits. */
  lemma {:induction false} LeadingZeros(s: string)
    requires IsOctet(s) && |s| <= 2
    ensures IsOctet("0" + s) && Decimal("0" + s) == Decimal(s)
  {
    hide Decimal;
    DecimalOfZero(s);
  }

  lemma {:induction false} DecimalOfZero(s: string)
    requires AllDigits(s)
    ensures AllDigits("0" + s) && Decimal("0" + s) == Decimal(s)
  {
    var t := "0" + s;
    if s == "" {
      assert t[..0] == "";
    } else {
      DecimalOfZero(s[..|s| - 1]);
      assert t[..|t| - 1] == "0" + s[..|s| - 1];
    }
  }

  /** The loopback address. */
  lemma {:induction false} LoopbackByName()
    ensures Ipv6("::1") == Some(1)
  {
    hide Positional, Ipv6, HexValue, Join;
    OneByName();
    assert Text(["1"]) == "1" by { TextOfOne("1"); }
    assert Text([]) == "" && "" + "::" + "1" == "::1";
    assert Groups([]) && Groups(["1"]) && Writes("::1", [], ["1"]);
    ValueOfWriting("::1", [], ["1"]);
    assert GroupValues([]) + ZeroValues(7) + GroupValues(["1"]) == ZeroValues(7) + [1];
    PositionalZeros(7, 16);
    PositionalSnoc(ZeroValues(7), 1, 16);
  }

  lemma {:induction false} TextOfOne(g: string)
    ensures Text([g]) == g
  {
  }

  lemma {:induction false} OneByName()
    ensures IsGroup("1") && HexValue("1") == 1
  {
    assert HexDigits("1") == [] + [1];
    PositionalSnoc([], 1, 4);
  }

  lemma {:induction false} PositionalZeros(n: nat, k: nat)
    ensures Positional(ZeroValues(n), k) == 0
  {
    if n > 0 {
      PositionalZeros(n - 1, k);
      assert ZeroValues(n)[..n - 1] == ZeroValues(n - 1);
    }
  }
}
