/** JSON number literals (section 6 of RFC 8259) and the decimal normal form
    that payload digests use for them. */
module Decimal {
  import opened Text

  /** The optional exponent: a mark `e` or `E`, a sign or none, and digits. */
  datatype Exponent = NoExponent | Exponent(mark: char, sign: string, digits: string)

  /** The grammar's parts, before they are written next to each other. */
  datatype Literal = Literal(negative: bool, whole: string, fraction: Option<string>, exponent: Exponent)

  predicate Valid(l: Literal) {
    && PlainDigits(l.whole)
    && (l.fraction.Some? ==> l.fraction.value != [] && Digits(l.fraction.value))
    && (l.exponent.Exponent? ==>
          && l.exponent.mark in "eE"
          && l.exponent.sign in {"", "+", "-"}
          && l.exponent.digits != [] && Digits(l.exponent.digits))
  }

  function FractionDigits(l: Literal): string {
    if l.fraction.Some? then l.fraction.value else ""
  }

  function FractionText(l: Literal): string {
    if l.fraction.Some? then "." + l.fraction.value else ""
  }

  function ExponentText(x: Exponent): string {
    if x.NoExponent? then "" else [x.mark] + x.sign + x.digits
  }

  /** The literal as it stands in the JSON text. */
  function Render(l: Literal): string {
    (if l.negative then "-" else "") + (l.whole + FractionText(l) + ExponentText(l.exponent))
  }

  // ---- what a literal denotes -------------------------------------------

  /** 10 to an integer power, negative powers included. */
  ghost function Scale(e: int): (r: real)
    ensures r > 0.0
    decreases if e < 0 then -e else e
  {
    if e == 0 then 1.0 else if e > 0 then 10.0 * Scale(e - 1) else Scale(e + 1) / 10.0
  }

  ghost function ExponentValue(x: Exponent): int {
    if x.NoExponent? then 0
    else if x.sign == "-" then 0 - ParseNat(x.digits)
    else ParseNat(x.digits)
  }

  /** The rational a literal denotes, read off the grammar: whole part plus
      fraction, signed, times the power of ten. */
  ghost function Value(l: Literal): real {
    var fraction := FractionDigits(l);
    var magnitude := ParseNat(l.whole) as real + ParseNat(fraction) as real * Scale(-|fraction|);
    (if l.negative then -magnitude else magnitude) * Scale(ExponentValue(l.exponent))
  }

  // ---- normalNumber -------------------------------------------------------

  /** The first position of a character of `set`, or the length of `s`. */
  function IndexAny(s: string, any: string): (i: nat)
    ensures i <= |s|
    ensures i < |s| ==> s[i] in any
    ensures forall k :: 0 <= k < i ==> s[k] !in any
  {
    if s == [] || s[0] in any then 0 else 1 + IndexAny(s[1..], any)
  }

  function TrimPrefix(s: string, c: char): string {
    if s != [] && s[0] == c then s[1..] else s
  }

  function TrimLeftZeros(s: string): (r: string)
    ensures |r| <= |s| && s[|s| - |r|..] == r
    ensures r != [] ==> r[0] != '0'
  {
    if s != [] && s[0] == '0' then TrimLeftZeros(s[1..]) else s
  }

  function TrimRightZeros(s: string): (r: string)
    ensures |r| <= |s| && s[..|r|] == r
    ensures r != [] ==> r[|r| - 1] != '0'
  {
    if s != [] && s[|s| - 1] == '0' then TrimRightZeros(s[..|s| - 1]) else s
  }

  function Mantissa(s: string): string { s[..IndexAny(s, "eE")] }

  function ExponentPart(s: string): int {
    var i := IndexAny(s, "eE");
    if i < |s| then ParseInt(TrimPrefix(s[i + 1..], '+')) else 0
  }

  function PointShift(m: string): nat {
    var j := IndexAny(m, ".");
    if j < |m| then |m| - j - 1 else 0
  }

  function WithoutPoint(m: string): string {
    var j := IndexAny(m, ".");
    if j < |m| then m[..j] + m[j + 1..] else m
  }

  function NormalNumber(text: string): string {
    var negative := text != [] && text[0] == '-';
    var s := TrimPrefix(text, '-');
    var m := Mantissa(s);
    Strip(negative, WithoutPoint(m), ExponentPart(s) - PointShift(m))
  }

  /** The last steps: drop the outer zeros of `digits` into the exponent. */
  function Strip(negative: bool, digits: string, e: int): string {
    var left := TrimLeftZeros(digits);
    if left == [] then "0"
    else
      var s := TrimRightZeros(left);
      (if negative then "-" + s else s) + "e" + PrintInt(e + (|left| - |s|))
  }

  // ---- the literal reaches Strip as its digits and its true exponent -------

  lemma {:induction false} IndexAnyAt(a: string, b: string, any: string)
    requires forall k :: 0 <= k < |a| ==> a[k] !in any
    requires b != [] ==> b[0] in any
    ensures IndexAny(a + b, any) == |a|
  {
    assert forall k :: 0 <= k < |a| ==> (a + b)[k] == a[k];
    assert b != [] ==> (a + b)[|a|] == b[0];
  }

  lemma {:induction false} ScanSign(l: Literal)
    requires Valid(l)
    ensures Render(l) != [] && (Render(l)[0] == '-') == l.negative
    ensures TrimPrefix(Render(l), '-') == l.whole + FractionText(l) + ExponentText(l.exponent)
  {
    var body := l.whole + FractionText(l) + ExponentText(l.exponent);
    assert body[0] == l.whole[0];
    if l.negative { assert Render(l)[1..] == body; } else { assert Render(l) == body; }
  }

  lemma {:induction false} ScanExponent(mantissa: string, x: Exponent)
    requires forall k :: 0 <= k < |mantissa| ==> mantissa[k] !in "eE"
    requires x.Exponent? ==> x.mark in "eE" && x.sign in {"", "+", "-"} && x.digits != [] && Digits(x.digits)
    ensures Mantissa(mantissa + ExponentText(x)) == mantissa
    ensures ExponentPart(mantissa + ExponentText(x)) == ExponentValue(x)
  {
    hide IndexAny, ParseNat, ParseInt, TrimPrefix;
    IndexAnyAt(mantissa, ExponentText(x), "eE");
    if x.Exponent? {
      assert (mantissa + ExponentText(x))[|mantissa| + 1..] == x.sign + x.digits;
      ReadExponent(x);
    }
  }

  lemma {:induction false} ReadExponent(x: Exponent)
    requires x.Exponent? && x.sign in {"", "+", "-"} && x.digits != [] && Digits(x.digits)
    ensures ParseInt(TrimPrefix(x.sign + x.digits, '+')) == ExponentValue(x)
  {
    hide ParseNat;
    var t := x.sign + x.digits;
    if x.sign == "" { assert t == x.digits; } else { assert t[0] == x.sign[0] && t[1..] == x.digits; }
  }

  lemma {:induction false} ScanPoint(l: Literal)
    requires Valid(l)
    ensures forall k :: 0 <= k < |l.whole + FractionText(l)| ==> (l.whole + FractionText(l))[k] !in "eE"
    ensures PointShift(l.whole + FractionText(l)) == |FractionDigits(l)|
    ensures WithoutPoint(l.whole + FractionText(l)) == l.whole + FractionDigits(l)
  {
    IndexAnyAt(l.whole, FractionText(l), ".");
    var m := l.whole + FractionText(l);
    if l.fraction.Some? {
      assert m[..|l.whole|] + m[|l.whole| + 1..] == l.whole + l.fraction.value;
    } else {
      assert m == l.whole == l.whole + FractionDigits(l);
    }
  }

  /** A valid literal reaches `Strip` as its digits with its true exponent. */
  lemma {:induction false} ScanLiteral(l: Literal)
    requires Valid(l)
    ensures NormalNumber(Render(l))
         == Strip(l.negative, l.whole + FractionDigits(l), ExponentValue(l.exponent) - |FractionDigits(l)|)
  {
    hide Strip, Mantissa, WithoutPoint, ExponentPart, PointShift, TrimPrefix, Render, FractionText, ExponentText,
         FractionDigits, ExponentValue;
    ScanSign(l);
    ScanPoint(l);
    ScanExponent(l.whole + FractionText(l), l.exponent);
  }

  // ---- powers of ten -------------------------------------------------------

  lemma {:induction false} ScaleStep(e: int)
    ensures Scale(e + 1) == 10.0 * Scale(e)
  {
  }

  lemma {:induction false} ScaleAdd(e: int, k: nat)
    ensures Scale(e + k) == Scale(k) * Scale(e)
  {
    hide Scale;
    if k > 0 {
      ScaleAdd(e, k - 1);
      ScaleStep(e + k - 1);
      ScaleStep(k - 1);
      TenTimes(Scale(k - 1), Scale(e));
    } else {
      ScaleZero();
    }
  }

  lemma {:induction false} ScaleZero()
    ensures Scale(0) == 1.0
  {
  }

  lemma {:induction false} TenTimes(a: real, b: real)
    ensures 10.0 * (a * b) == (10.0 * a) * b
  {
  }

  lemma {:induction false} ScaleInverse(k: nat)
    ensures Scale(k) * Scale(0 - k) == 1.0
  {
    ScaleAdd(0 - k, k);
  }

  /** A nonnegative power of ten is a whole number. */
  ghost function Pow10(k: nat): nat {
    if k == 0 then 1 else 10 * Pow10(k - 1)
  }

  lemma {:induction false} ScaleIsWhole(k: nat)
    ensures Scale(k) == Pow10(k) as real
  {
    if k > 0 { ScaleIsWhole(k - 1); }
  }

  lemma {:induction false} ParseNatConcat(a: string, b: string)
    ensures ParseNat(a + b) == Pow10(|b|) * ParseNat(a) + ParseNat(b)
  {
    if b == [] {
      assert a + b == a;
    } else {
      var b' := b[..|b| - 1];
      ParseNatConcat(a, b');
      assert (a + b)[..|a + b| - 1] == a + b';
      assert Pow10(|b|) * ParseNat(a) == 10 * (Pow10(|b'|) * ParseNat(a));
    }
  }

  // ---- Strip keeps the value and picks one text per value ------------------

  /** The value of a digit string with a sign and a power of ten. */
  ghost function Scaled(negative: bool, m: nat, e: int): real {
    (if negative then -(m as real) else m as real) * Scale(e)
  }

  lemma {:induction false} ScaledShift(negative: bool, m: nat, n: nat, e: int, k: nat)
    requires n == Pow10(k) * m
    ensures Scaled(negative, n, e) == Scaled(negative, m, e + k)
  {
    hide Scale, Pow10;
    ScaleAdd(e, k);
    ScaleIsWhole(k);
    Regroup(Pow10(k), m, Scale(e));
  }

  lemma {:induction false} Regroup(a: int, b: int, z: real)
    ensures (a * b) as real * z == b as real * (a as real * z)
    ensures (-((a * b) as real)) * z == (-(b as real)) * (a as real * z)
  {
    var x, y := a as real, b as real;
    assert (a * b) as real == x * y;
    assert (x * y) * z == y * (x * z);
    assert (-(x * y)) * z == -((x * y) * z);
    assert (-y) * (x * z) == -(y * (x * z));
  }

  lemma {:induction false} ValueIsScaled(l: Literal)
    requires Valid(l)
    ensures Value(l)
         == Scaled(l.negative, ParseNat(l.whole + FractionDigits(l)), ExponentValue(l.exponent) - |FractionDigits(l)|)
  {
    hide Scale, Pow10, ParseNat, FractionDigits, ExponentValue;
    var w, f, k, e := ParseNat(l.whole), ParseNat(FractionDigits(l)), |FractionDigits(l)|, ExponentValue(l.exponent);
    ParseNatConcat(l.whole, FractionDigits(l));
    ScaleIsWhole(k);
    ScaleInverse(k);
    ScaleAdd(e - k, k);
    WholeSum(Pow10(k), w, f);
    Unscale(w as real, f as real, Scale(k), Scale(-k), Scale(e - k));
  }

  lemma {:induction false} WholeSum(p: int, w: int, f: int)
    ensures (p * w + f) as real == p as real * w as real + f as real
  {
  }

  lemma {:induction false} Unscale(w: real, f: real, p: real, q: real, z: real)
    requires p * q == 1.0
    ensures (w + f * q) * (p * z) == (p * w + f) * z
    ensures (-(w + f * q)) * (p * z) == (-(p * w + f)) * z
  {
    assert (f * q) * p == f by { assert (f * q) * p == f * (p * q); }
    var s := w + f * q;
    assert s * p == p * w + f;
    assert s * (p * z) == (s * p) * z;
    assert (-s) * (p * z) == -(s * (p * z));
  }

  lemma {:induction false} ParseDropZero(s: string)
    ensures ParseNat("0" + s) == ParseNat(s)
  {
    ParseNatConcat("0", s);
    assert ParseNat("0") == 0;
  }

  lemma {:induction false} ParseTrimLeft(s: string)
    ensures ParseNat(TrimLeftZeros(s)) == ParseNat(s)
  {
    hide ParseNat;
    if s != [] && s[0] == '0' {
      ParseTrimLeft(s[1..]);
      ParseDropZero(s[1..]);
      assert s == "0" + s[1..];
    }
  }

  lemma {:induction false} Times10(k: nat, m: nat)
    ensures 10 * (Pow10(k) * m) == Pow10(k + 1) * m
  {
  }

  lemma {:induction false} ParseTrimRight(s: string)
    ensures ParseNat(s) == Pow10(|s| - |TrimRightZeros(s)|) * ParseNat(TrimRightZeros(s))
  {
    if s != [] && s[|s| - 1] == '0' {
      var s' := s[..|s| - 1];
      ParseTrimRight(s');
      Times10(|s'| - |TrimRightZeros(s')|, ParseNat(TrimRightZeros(s')));
    }
  }

  /** The digits that survive, when some do: plain, and not ending in a zero. */
  predicate Bare(s: string) {
    PlainDigits(s) && s[0] != '0' && s[|s| - 1] != '0'
  }

  lemma {:induction false} ParseNothing()
    ensures ParseNat([]) == 0
  {
  }

  lemma {:induction false} TrimmedIsBare(digits: string)
    requires Digits(digits)
    ensures var left := TrimLeftZeros(digits); left == [] || Bare(TrimRightZeros(left))
    ensures TrimLeftZeros(digits) == [] <==> ParseNat(digits) == 0
  {
    hide ParseNat;
    assert ParseNat([]) == 0 by { ParseNothing(); }
    var left := TrimLeftZeros(digits);
    ParseTrimLeft(digits);
    if left != [] {
      PlainDigitsPositive(left);
      TrimRightKeeps(left);
    }
  }

  lemma {:induction false} TrimRightKeeps(s: string)
    requires s != [] && s[0] != '0'
    ensures TrimRightZeros(s) != []
  {
    if s[|s| - 1] == '0' { TrimRightKeeps(s[..|s| - 1]); }
  }

  /** The text `Strip` returns for a nonzero number. */
  function Normal(negative: bool, s: string, e: int): string {
    (if negative then "-" + s else s) + "e" + PrintInt(e)
  }

  lemma {:induction false} StripMeans(negative: bool, digits: string, e: int)
    requires Digits(digits)
    ensures ParseNat(digits) == 0 ==> Strip(negative, digits, e) == "0"
    ensures ParseNat(digits) != 0 ==>
              exists s, k :: Bare(s) && Strip(negative, digits, e) == Normal(negative, s, k)
                && Scaled(negative, ParseNat(digits), e) == Scaled(negative, ParseNat(s), k)
  {
    hide TrimLeftZeros, TrimRightZeros, ParseNat, Pow10, Scaled, Bare;
    var left := TrimLeftZeros(digits);
    var s := TrimRightZeros(left);
    TrimmedIsBare(digits);
    ParseTrimLeft(digits);
    if left != [] {
      ParseTrimRight(left);
      ScaledShift(negative, ParseNat(s), ParseNat(left), e, |left| - |s|);
      assert Strip(negative, digits, e) == Normal(negative, s, e + (|left| - |s|));
    }
  }

  /** Sign, digits and exponent can be read back from a normal text. */
  lemma {:induction false} NormalInjective(n1: bool, s1: string, k1: int, n2: bool, s2: string, k2: int)
    requires Bare(s1) && Bare(s2) && Normal(n1, s1, k1) == Normal(n2, s2, k2)
    ensures n1 == n2 && s1 == s2 && k1 == k2
  {
    var a1, a2 := if n1 then "-" + s1 else s1, if n2 then "-" + s2 else s2;
    var t1, t2 := "e" + PrintInt(k1), "e" + PrintInt(k2);
    assert Normal(n1, s1, k1) == a1 + t1 && Normal(n2, s2, k2) == a2 + t2;
    IndexAnyAt(a1, t1, "e");
    IndexAnyAt(a2, t2, "e");
    SplitEqual(a1, t1, a2, t2);
    assert a1[0] == a2[0];
    assert t1[1..] == PrintInt(k1) && t2[1..] == PrintInt(k2);
    PrintIntInjective(k1, k2);
    if n1 { assert a1[1..] == s1 && a2[1..] == s2; }
  }

  lemma {:induction false} SplitEqual(a: string, b: string, c: string, d: string)
    requires a + b == c + d && |a| == |c|
    ensures a == c && b == d
  {
    assert a == (a + b)[..|a|] && c == (c + d)[..|c|];
    assert b == (a + b)[|a|..] && d == (c + d)[|c|..];
  }

  lemma {:induction false} LastDigit(s: string)
    requires Bare(s)
    ensures ParseNat(s) % 10 != 0 && ParseNat(s) > 0
  {
  }

  /** Two numbers not divisible by ten agree after scaling only when they and
      their scales agree. */
  lemma {:induction false} ScaledUnique(n1: bool, m1: nat, k1: int, n2: bool, m2: nat, k2: int)
    requires m1 % 10 != 0 && m2 % 10 != 0
    requires Scaled(n1, m1, k1) == Scaled(n2, m2, k2)
    ensures n1 == n2 && m1 == m2 && k1 == k2
  {
    hide Scale;
    SameSign(n1, m1 as real, Scale(k1), n2, m2 as real, Scale(k2));
    if k1 >= k2 {
      ScaledGap(m1, k1, m2, k2);
    } else {
      ScaledGap(m2, k2, m1, k1);
    }
  }

  lemma {:induction false} SameSign(n1: bool, x: real, p: real, n2: bool, y: real, q: real)
    requires x > 0.0 && y > 0.0 && p > 0.0 && q > 0.0
    requires (if n1 then -x else x) * p == (if n2 then -y else y) * q
    ensures n1 == n2 && x * p == y * q
  {
    assert x * p > 0.0 && y * q > 0.0;
    assert (-x) * p == -(x * p) && (-y) * q == -(y * q);
  }

  lemma {:induction false} ScaledGap(m1: nat, k1: int, m2: nat, k2: int)
    requires k1 >= k2 && m2 % 10 != 0
    requires m1 as real * Scale(k1) == m2 as real * Scale(k2)
    ensures m1 == m2 && k1 == k2
  {
    hide Scale, Pow10;
    var d := k1 - k2;
    ScaleAdd(k2, d);
    ScaleIsWhole(d);
    Cancel(m1, Pow10(d), m2, Scale(k2));
    if d > 0 { Times10(d - 1, m1); } else { ScaleIsWhole(0); OneTimes(m1); }
  }

  lemma {:induction false} OneTimes(m: nat)
    ensures Pow10(0) * m == m
  {
  }

  lemma {:induction false} Cancel(m1: int, p: int, m2: int, z: real)
    requires z > 0.0 && m1 as real * (p as real * z) == m2 as real * z
    ensures p * m1 == m2
  {
    assert m1 as real * (p as real * z) == (p * m1) as real * z by { Regroup(p, m1, z); }
    var x, y := (p * m1) as real, m2 as real;
    assert (x - y) * z == 0.0;
  }

  // ---- the normal form is complete -----------------------------------------

  /** Two number literals normalise to the same text exactly when they denote
      the same rational: signed zeros, leading and trailing zeros, a moved point
      and any exponent included. */
  lemma {:induction false} NormalNumberComplete(a: Literal, b: Literal)
    requires Valid(a) && Valid(b)
    ensures NormalNumber(Render(a)) == NormalNumber(Render(b)) <==> Value(a) == Value(b)
  {
    NormalNumberMeans(a);
    NormalNumberMeans(b);
    if Value(a) != 0.0 && Value(b) != 0.0 {
      var s, j :| Bare(s) && NormalNumber(Render(a)) == Normal(a.negative, s, j)
          && Value(a) == Scaled(a.negative, ParseNat(s), j);
      var t, k :| Bare(t) && NormalNumber(Render(b)) == Normal(b.negative, t, k)
          && Value(b) == Scaled(b.negative, ParseNat(t), k);
      LastDigit(s);
      LastDigit(t);
      if Value(a) == Value(b) {
        ScaledUnique(a.negative, ParseNat(s), j, b.negative, ParseNat(t), k);
        ParseNatInjective(s, t);
      }
      if NormalNumber(Render(a)) == NormalNumber(Render(b)) {
        NormalInjective(a.negative, s, j, b.negative, t, k);
      }
    } else {
      NormalIsNotZero(a);
      NormalIsNotZero(b);
    }
  }

  /** A zero, of either sign, is `0`; any other number keeps its sign and its
      value, with digits that neither begin nor end with a zero. */
  lemma {:induction false} NormalNumberMeans(l: Literal)
    requires Valid(l)
    ensures Value(l) == 0.0 ==> NormalNumber(Render(l)) == "0"
    ensures Value(l) != 0.0 ==>
              exists s, k :: Bare(s) && NormalNumber(Render(l)) == Normal(l.negative, s, k)
                && Value(l) == Scaled(l.negative, ParseNat(s), k)
  {
    hide Scaled, Strip, NormalNumber, Value, Render, ParseNat, FractionText, ExponentText, ExponentValue, Normal, Bare;
    var digits, e := l.whole + FractionDigits(l), ExponentValue(l.exponent) - |FractionDigits(l)|;
    ScanLiteral(l);
    ValueIsScaled(l);
    StripMeans(l.negative, digits, e);
    ScaledZero(l.negative, ParseNat(digits), e);
  }

  lemma {:induction false} ScaledZero(negative: bool, m: nat, e: int)
    ensures Scaled(negative, m, e) == 0.0 <==> m == 0
  {
    if m > 0 {
      assert m as real * Scale(e) > 0.0;
      assert (-(m as real)) * Scale(e) == -(m as real * Scale(e));
    }
  }

  lemma {:induction false} NormalIsNotZero(l: Literal)
    requires Valid(l)
    ensures Value(l) != 0.0 <==> NormalNumber(Render(l)) != "0"
  {
    NormalNumberMeans(l);
    if Value(l) != 0.0 {
      var s, k :| Bare(s) && NormalNumber(Render(l)) == Normal(l.negative, s, k)
          && Value(l) == Scaled(l.negative, ParseNat(s), k);
      PrintIntShape(k);
      assert |Normal(l.negative, s, k)| > 1;
    }
  }
}
