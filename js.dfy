/** The JavaScript runtime behaviour the code relies on: numbers produced by
    `parseInt`, a number's text in a template literal, `trim`, `toLowerCase`
    and `includes`. */
module Js {

  /** A JavaScript number as `parseInt` produces it: an integer or NaN. */
  datatype Num = Int(i: int) | NaN

  /** `===` on numbers: NaN is equal to nothing, not even to itself. */
  predicate StrictEquals(a: Num, b: Num) {
    a.Int? && b.Int? && a.i == b.i
  }

  /** `n + 1`. */
  function Add1(n: Num): Num {
    match n
    case Int(i) => Int(i + 1)
    case NaN => NaN
  }

  /** MongoDB's order on numbers: NaN sorts below every other number. */
  predicate NumLess(a: Num, b: Num) {
    match a
    case NaN => b.Int?
    case Int(x) => b.Int? && x < b.i
  }

  lemma NumLessStrictTotalOrder()
    ensures forall a: Num :: !NumLess(a, a)
    ensures forall a: Num, b: Num, c: Num :: NumLess(a, b) && NumLess(b, c) ==> NumLess(a, c)
    ensures forall a: Num, b: Num :: a == b || NumLess(a, b) || NumLess(b, a)
  {
  }

  /** The WhiteSpace and LineTerminator code points of ECMAScript: what
      `String.prototype.trim` removes and what `parseInt` skips. */
  predicate IsSpace(c: char) {
    c == '\t' || c == '\n' || c == '\U{000B}' || c == '\U{000C}' || c == '\r' || c == ' '
    || c == '\U{00A0}' || c == '\U{1680}' || ('\U{2000}' <= c <= '\U{200A}')
    || c == '\U{2028}' || c == '\U{2029}' || c == '\U{202F}' || c == '\U{205F}'
    || c == '\U{3000}' || c == '\U{FEFF}'
  }

  /** `s.trimStart()`: the suffix of `s` after its leading white space. */
  function TrimStart(s: string): (r: string)
    ensures |r| <= |s| && r == s[|s| - |r|..]
    ensures forall i :: 0 <= i < |s| - |r| ==> IsSpace(s[i])
    ensures r != [] ==> !IsSpace(r[0])
  {
    if s != [] && IsSpace(s[0]) then TrimStart(s[1..]) else s
  }

  /** `s.trimEnd()`: the prefix of `s` before its trailing white space. */
  function TrimEnd(s: string): (r: string)
    ensures |r| <= |s| && r == s[..|r|]
    ensures forall i :: |r| <= i < |s| ==> IsSpace(s[i])
    ensures r != [] ==> !IsSpace(r[|r| - 1])
  {
    if s != [] && IsSpace(s[|s| - 1]) then TrimEnd(s[..|s| - 1]) else s
  }

  /** `s.trim()`. */
  function Trim(s: string): string {
    TrimEnd(TrimStart(s))
  }

  /** `s.trim()` is empty exactly when every character of `s` is white space. */
  lemma TrimEmptyIff(s: string)
    ensures Trim(s) == [] <==> forall i :: 0 <= i < |s| ==> IsSpace(s[i])
  {
    var t := TrimStart(s);
    if Trim(s) == [] {
      assert t == [];
    } else {
      var r := Trim(s);
      assert !IsSpace(r[|r| - 1]);
      assert r[|r| - 1] == s[|s| - |t| + |r| - 1];
    }
  }

  /** The value of `c` as a digit in a radix up to 36; 36 when it is no digit. */
  function DigitValue(c: char): nat {
    if '0' <= c <= '9' then c as int - '0' as int
    else if 'a' <= c <= 'z' then c as int - 'a' as int + 10
    else if 'A' <= c <= 'Z' then c as int - 'A' as int + 10
    else 36
  }

  /** The longest prefix of `s` made of digits of the given radix. */
  function LeadingDigits(s: string, radix: nat): (r: string)
    ensures |r| <= |s| && r == s[..|r|]
    ensures forall i :: 0 <= i < |r| ==> DigitValue(r[i]) < radix
    ensures |r| < |s| ==> DigitValue(s[|r|]) >= radix
  {
    if s != [] && DigitValue(s[0]) < radix then [s[0]] + LeadingDigits(s[1..], radix) else []
  }

  /** The value of a string of digits, most significant first. */
  function DigitsValue(s: string, radix: nat): nat {
    if s == [] then 0 else DigitsValue(s[..|s| - 1], radix) * radix + DigitValue(s[|s| - 1])
  }

  /** What `parseInt` reads after the sign: a `0x` or `0X` prefix switches to
      radix 16, then as many digits as there are; no digit at all gives NaN. */
  function ParseUnsigned(u: string): Num {
    var hex := |u| >= 2 && u[0] == '0' && (u[1] == 'x' || u[1] == 'X');
    var radix := if hex then 16 else 10;
    var digits := LeadingDigits(if hex then u[2..] else u, radix);
    if digits == [] then NaN else Int(DigitsValue(digits, radix))
  }

  /** `parseInt(s)` without a radix argument: skip leading white space, read an
      optional sign, then the digits. */
  function ParseInt(s: string): Num {
    var t := TrimStart(s);
    var negative := t != [] && t[0] == '-';
    var u := if t != [] && (t[0] == '+' || t[0] == '-') then t[1..] else t;
    match ParseUnsigned(u)
    case NaN => NaN
    case Int(v) => if negative then Int(-v) else Int(v)
  }

  function DigitChar(d: nat): char
    requires d < 10
  {
    ('0' as int + d) as char
  }

  /** The decimal text of a natural number, without leading zeros. */
  function NatText(n: nat): string {
    if n < 10 then [DigitChar(n)] else NatText(n / 10) + [DigitChar(n % 10)]
  }

  /** The text of a number, as a template literal or `String(n)` writes it. */
  function NumText(n: Num): string {
    match n
    case NaN => "NaN"
    case Int(i) => if i < 0 then "-" + NatText(-i) else NatText(i)
  }

  lemma {:induction false} NatTextDigits(n: nat)
    ensures NatText(n) != []
    ensures forall i :: 0 <= i < |NatText(n)| ==> '0' <= NatText(n)[i] <= '9'
    ensures NatText(n)[0] == '0' ==> n == 0
    ensures DigitsValue(NatText(n), 10) == n
  {
    if n >= 10 {
      NatTextDigits(n / 10);
      var t := NatText(n / 10);
      assert NatText(n) == t + [DigitChar(n % 10)];
      assert NatText(n)[..|NatText(n)| - 1] == t;
    }
  }

  lemma {:induction false} LeadingDigitsAll(s: string, radix: nat)
    requires forall i :: 0 <= i < |s| ==> DigitValue(s[i]) < radix
    ensures LeadingDigits(s, radix) == s
  {
    if s != [] {
      LeadingDigitsAll(s[1..], radix);
    }
  }

  /** The digits of a natural number's text are read back as that number. */
  lemma ParseUnsignedNatText(m: nat)
    ensures ParseUnsigned(NatText(m)) == Int(m)
  {
    NatTextDigits(m);
    var d := NatText(m);
    if |d| >= 2 {
      assert '0' <= d[1] <= '9';
    }
    LeadingDigitsAll(d, 10);
  }

  lemma ParseIntNaNText()
    ensures ParseInt("NaN") == NaN
  {
    assert TrimStart("NaN") == "NaN";
    assert LeadingDigits("NaN", 10) == [];
  }

  lemma TrimStartNoSpace(s: string)
    requires s != [] && !IsSpace(s[0])
    ensures TrimStart(s) == s
  {
  }

  lemma ParseIntIntText(i: int)
    ensures ParseInt(NumText(Int(i))) == Int(i)
  {
    var m: nat := if i < 0 then -i else i;
    NatTextDigits(m);
    ParseUnsignedNatText(m);
    var d := NatText(m);
    if i < 0 {
      var s := "-" + d;
      assert NumText(Int(i)) == s;
      TrimStartNoSpace(s);
      assert s[1..] == d;
    } else {
      assert NumText(Int(i)) == d;
      assert '0' <= d[0] <= '9';
      TrimStartNoSpace(d);
    }
  }

  /** A leading zero does not change the value of a string of digits. */
  lemma {:induction false} DigitsValueLeadingZero(s: string)
    ensures DigitsValue("0" + s, 10) == DigitsValue(s, 10)
  {
    if s == [] {
      assert ("0" + s)[..0] == "";
    } else {
      DigitsValueLeadingZero(s[..|s| - 1]);
      assert ("0" + s)[..|"0" + s| - 1] == "0" + s[..|s| - 1];
    }
  }

  /** A string of decimal digits reads as its value. */
  lemma ParseIntDigits(s: string)
    requires s != [] && forall i :: 0 <= i < |s| ==> '0' <= s[i] <= '9'
    ensures ParseInt(s) == Int(DigitsValue(s, 10))
  {
    ParseUnsignedDigits(s);
    TrimStartNoSpace(s);
    assert s[0] != '+' && s[0] != '-';
  }

  lemma ParseUnsignedDigits(s: string)
    requires s != [] && forall i :: 0 <= i < |s| ==> '0' <= s[i] <= '9'
    ensures ParseUnsigned(s) == Int(DigitsValue(s, 10))
  {
    assert forall i :: 0 <= i < |s| ==> DigitValue(s[i]) < 10;
    LeadingDigitsAll(s, 10);
    assert !(|s| >= 2 && s[0] == '0' && (s[1] == 'x' || s[1] == 'X')) by {
      if |s| >= 2 {
        assert '0' <= s[1] <= '9';
      }
    }
  }

  /** `parseInt` reads a decimal digit string with a leading zero as the same
      number as without it: `parseInt("07")` is `parseInt("7")`. */
  lemma ParseIntLeadingZero(s: string)
    requires s != [] && forall i :: 0 <= i < |s| ==> '0' <= s[i] <= '9'
    ensures ParseInt("0" + s) == ParseInt(s)
  {
    var z := "0" + s;
    assert forall i :: 0 <= i < |z| ==> '0' <= z[i] <= '9' by {
      assert forall i :: 1 <= i < |z| ==> z[i] == s[i - 1];
    }
    ParseIntDigits(s);
    ParseIntDigits(z);
    DigitsValueLeadingZero(s);
  }

  /** `parseInt` reads back the text of every number: `parseInt(String(n))` is `n`. */
  lemma ParseIntNumText(n: Num)
    ensures ParseInt(NumText(n)) == n
  {
    match n
    case NaN => ParseIntNaNText();
    case Int(i) => ParseIntIntText(i);
  }

  /** Different numbers have different texts. */
  lemma NumTextInjective(a: Num, b: Num)
    requires NumText(a) == NumText(b)
    ensures a == b
  {
    ParseIntNumText(a);
    ParseIntNumText(b);
  }

  /** The text of a number is never empty, contains no colon and does not
      start with a lower-case letter. */
  lemma NumTextShape(n: Num)
    ensures NumText(n) != []
    ensures !('a' <= NumText(n)[0] <= 'z')
    ensures forall i :: 0 <= i < |NumText(n)| ==> NumText(n)[i] != ':'
  {
    match n
    case NaN =>
    case Int(i) =>
      NatTextDigits(if i < 0 then -i else i);
  }

  /** `c.toLowerCase()` on the ASCII letters. */
  function LowerChar(c: char): char {
    if 'A' <= c <= 'Z' then (c as int + 32) as char else c
  }

  /** `s.toLowerCase()`. */
  function ToLower(s: string): (r: string)
    ensures |r| == |s|
    ensures forall i :: 0 <= i < |s| ==> r[i] == LowerChar(s[i])
  {
    seq(|s|, i requires 0 <= i < |s| => LowerChar(s[i]))
  }

  /** `s.includes(sub)`. */
  predicate Includes(s: string, sub: string) {
    exists i :: 0 <= i <= |s| && sub <= s[i..]
  }

  /** `s.toLowerCase().includes(sub.toLowerCase())`, also what a `$regex` made of
      the literal `sub` with the option `i` matches. */
  predicate IncludesIgnoringCase(s: string, sub: string) {
    Includes(ToLower(s), ToLower(sub))
  }
}
