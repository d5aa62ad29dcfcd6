/** JSON values as both sides of the bridge see them once a message has been
    parsed (`express.json()` on the server, `json_decode($s, true)` on the
    client). Both parsers keep the last of duplicate keys, so an object is a
    map; the order of its keys is not kept. Numbers are integers. */
module Json {

  datatype Json =
    | JNull
    | JBool(b: bool)
    | JNum(n: int)
    | JStr(s: string)
    | JArr(items: seq<Json>)
    | JObj(fields: map<string, Json>)

  /** `{}` */
  const EmptyObject: Json := JObj(map[])

  predicate IsDigit(c: char) {
    '0' <= c <= '9'
  }

  function DigitChar(d: nat): (c: char)
    requires d < 10
    ensures IsDigit(c)
  {
    "0123456789"[d]
  }

  /** The value of one decimal digit. */
  function DigitValue(c: char): (d: nat)
    requires IsDigit(c)
    ensures d < 10
  {
    c as int - '0' as int
  }

  /** The number a string of decimal digits denotes, read from the left. */
  function NumeralValue(s: string): nat
    requires forall i :: 0 <= i < |s| ==> IsDigit(s[i])
    decreases |s|
  {
    if s == [] then 0 else NumeralValue(s[..|s| - 1]) * 10 + DigitValue(s[|s| - 1])
  }

  /** The decimal numeral of a natural number, most significant digit first. */
  function Digits(n: nat): (r: string)
    ensures |r| > 0
    ensures forall i :: 0 <= i < |r| ==> IsDigit(r[i])
    ensures (r[0] == '0') <==> (n == 0)
    decreases n
  {
    if n < 10 then [DigitChar(n)] else Digits(n / 10) + [DigitChar(n % 10)]
  }

  /** The numeral of `n` denotes `n`. */
  lemma {:induction false} DigitsValue(n: nat)
    ensures NumeralValue(Digits(n)) == n
    decreases n
  {
    var r := Digits(n);
    if n < 10 {
      assert r[..0] == [];
    } else {
      DigitsValue(n / 10);
      assert r[..|r| - 1] == Digits(n / 10);
    }
  }

  /** An integer written in decimal, with every digit: a minus sign for
      negative numbers and no leading zeros. This is how PHP writes an int,
      and how JavaScript writes a number of magnitude below 2^53; from 2^53 on
      JavaScript writes only the shortest digits that read back as the same
      double. */
  function Decimal(n: int): (r: string)
    ensures |r| > 0
    ensures (r[0] == '-') <==> (n < 0)
    ensures forall i :: (if n < 0 then 1 else 0) <= i < |r| ==> IsDigit(r[i])
  {
    if n < 0 then "-" + Digits(-n) else Digits(n)
  }

  /** The digits of the decimal rendering of `n`, after the sign, denote the
      magnitude of `n`. */
  lemma DecimalValue(n: int)
    ensures n >= 0 ==> NumeralValue(Decimal(n)) == n
    ensures n < 0 ==> NumeralValue(Decimal(n)[1..]) == -n
  {
    if n < 0 {
      DigitsValue(-n);
      assert Decimal(n)[1..] == Digits(-n);
    } else {
      DigitsValue(n);
    }
  }
}
