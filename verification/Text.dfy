/** Decimal digits and their readings: what `strconv.Itoa`, `strconv.Atoi` and
    `math/big` do with them in the identity printers and in `normalNumber`. */
module Text {

  datatype Option<+T> = None | Some(value: T)

  datatype Outcome<+T> = Ok(value: T) | Err(reason: string)

  const MAX_INT32 := 0x7fff_ffff

  /** A number cut to 32 bits, two's complement. */
  function Wrap32(x: int): (r: int)
    ensures -MAX_INT32 - 1 <= r <= MAX_INT32
    ensures x >= -MAX_INT32 - 1 ==> r <= x
    ensures -MAX_INT32 - 1 <= x <= MAX_INT32 ==> r == x
  {
    (x + MAX_INT32 + 1) % 0x1_0000_0000 - MAX_INT32 - 1
  }

  predicate IsDigit(c: char) { '0' <= c <= '9' }

  predicate Digits(s: string) { forall i :: 0 <= i < |s| ==> IsDigit(s[i]) }

  function DigitValue(c: char): nat {
    if IsDigit(c) then c as int - '0' as int else 0
  }

  function DigitChar(d: nat): (c: char)
    requires d < 10
    ensures IsDigit(c) && DigitValue(c) == d
  {
    ('0' as int + d) as char
  }

  /** The number a run of digits denotes. */
  function ParseNat(s: string): nat {
    if s == [] then 0 else 10 * ParseNat(s[..|s| - 1]) + DigitValue(s[|s| - 1])
  }

  function PrintNat(n: nat): string {
    if n < 10 then [DigitChar(n)] else PrintNat(n / 10) + [DigitChar(n % 10)]
  }

  function PrintInt(i: int): string {
    if i < 0 then "-" + PrintNat(-i) else PrintNat(i)
  }

  function ParseInt(s: string): int {
    if s != [] && s[0] == '-' then 0 - ParseNat(s[1..]) else ParseNat(s)
  }

  /** A printed count: no sign, no leading zero. */
  predicate PlainDigits(s: string) {
    s != [] && Digits(s) && (|s| > 1 ==> s[0] != '0')
  }

  lemma {:induction false} PrintNatIsPlain(n: nat)
    ensures PlainDigits(PrintNat(n))
    ensures n > 0 ==> PrintNat(n)[0] != '0'
    ensures ParseNat(PrintNat(n)) == n
  {
    if n >= 10 {
      PrintNatIsPlain(n / 10);
      var s := PrintNat(n);
      assert s[..|s| - 1] == PrintNat(n / 10);
    }
  }

  lemma {:induction false} PlainDigitsPositive(s: string)
    requires PlainDigits(s) && s[0] != '0'
    ensures ParseNat(s) > 0
  {
    if |s| > 1 {
      PlainDigitsPositive(s[..|s| - 1]);
    }
  }

  /** Printing undoes parsing on plain digits. */
  lemma {:induction false} PrintParsePlain(s: string)
    requires PlainDigits(s)
    ensures PrintNat(ParseNat(s)) == s
  {
    var n := |s| - 1;
    if n > 0 {
      PrintParsePlain(s[..n]);
      PlainDigitsPositive(s[..n]);
      assert s == s[..n] + [s[n]];
      assert DigitChar(DigitValue(s[n])) == s[n];
    }
  }

  lemma {:induction false} ParseNatInjective(s: string, t: string)
    requires PlainDigits(s) && PlainDigits(t) && ParseNat(s) == ParseNat(t)
    ensures s == t
  {
    PrintParsePlain(s);
    PrintParsePlain(t);
  }

  lemma {:induction false} PrintIntShape(i: int)
    ensures PrintInt(i) != []
    ensures PrintInt(i)[0] == '-' || IsDigit(PrintInt(i)[0])
    ensures forall k :: 0 < k < |PrintInt(i)| ==> IsDigit(PrintInt(i)[k])
    ensures ParseInt(PrintInt(i)) == i
  {
    PrintNatIsPlain(if i < 0 then -i else i);
  }

  lemma {:induction false} PrintIntInjective(i: int, j: int)
    requires PrintInt(i) == PrintInt(j)
    ensures i == j
  {
    PrintIntShape(i);
    PrintIntShape(j);
  }
}
