/** 64-bit values read back as two signed 32-bit halves, and their decimal: longToString in
    src/util/authz.ts. */
module LongDecimal {

  const TWO_32 := 0x1_0000_0000
  const TWO_63 := 0x8000_0000_0000_0000
  const TWO_64 := 0x1_0000_0000_0000_0000

  datatype Long = Long(low: int, high: int, unsigned: bool)

  // -------------------------------------------------------------------------
  // The big-integer operations used
  // -------------------------------------------------------------------------

  // Distance from 0 or -1, the two integers whose bits are all equal.
  function Norm(x: int): nat {
    if x < 0 then -x - 1 else x
  }

  // Bitwise or of two's complement integers of unbounded width.
  function BigOr(a: int, b: int): int
    decreases Norm(a) + Norm(b)
  {
    if Norm(a) == 0 && Norm(b) == 0 then if a == 0 && b == 0 then 0 else -1
    else 2 * BigOr(a / 2, b / 2) + if a % 2 == 1 || b % 2 == 1 then 1 else 0
  }

  function Pow2(n: nat): nat {
    if n == 0 then 1 else 2 * Pow2(n - 1)
  }

  // a << n
  function ShiftLeft(a: int, n: nat): int {
    a * Pow2(n)
  }

  // x >>> 0 on a 32-bit number
  function ToUint32(x: int): (r: int)
    ensures 0 <= r < TWO_32
  {
    x % TWO_32
  }

  function AsUintN64(x: int): (r: int)
    ensures 0 <= r < TWO_64
  {
    x % TWO_64
  }

  function AsIntN64(x: int): (r: int)
    ensures -TWO_63 <= r < TWO_63
  {
    var u := x % TWO_64;
    if u < TWO_63 then u else u - TWO_64
  }

  function Digit(d: int): char
    requires 0 <= d < 10
  {
    '0' + d as char
  }

  function Digits(n: nat): string {
    if n < 10 then [Digit(n)] else Digits(n / 10) + [Digit(n % 10)]
  }

  function Decimal(n: int): string {
    if n < 0 then "-" + Digits(-n) else Digits(n)
  }

  function LongToString(v: Long): string {
    var unsigned := AsUintN64(BigOr(ShiftLeft(v.high, 32), ToUint32(v.low)));
    if v.unsigned then Decimal(unsigned) else Decimal(AsIntN64(unsigned))
  }

  // -------------------------------------------------------------------------
  // The round trip
  // -------------------------------------------------------------------------

  // Reinterpreted as a signed 32-bit number.
  function ToInt32(x: int): (r: int)
    ensures -TWO_32 / 2 <= r < TWO_32 / 2
  {
    var u := x % TWO_32;
    if u < TWO_32 / 2 then u else u - TWO_32
  }

  // How a 64-bit value is stored.
  function Halves(value: int, unsigned: bool): Long {
    Long(ToInt32(value), ToInt32(value / TWO_32), unsigned)
  }

  lemma Half(a: int, p: int, l: int)
    requires p > 0 && 0 <= l < 2 * p
    ensures (a * (2 * p)) / 2 == a * p && (a * (2 * p)) % 2 == 0
    ensures 0 <= l / 2 < p
  {
    assert a * (2 * p) == 2 * (a * p);
  }

  /** Or-ing a number into the free low bits is adding it, for negative high parts too. */
  lemma {:induction false} OrIsSum(a: int, n: nat, l: int)
    requires 0 <= l < Pow2(n)
    ensures BigOr(ShiftLeft(a, n), l) == ShiftLeft(a, n) + l
  {
    if n == 0 {
      OrZero(a);
    } else {
      var p := Pow2(n - 1);
      assert p > 0;
      Half(a, p, l);
      OrIsSum(a, n - 1, l / 2);
      assert BigOr(a * p, l / 2) == a * p + l / 2;
      assert a * (2 * p) == 2 * (a * p);
    }
  }

  lemma {:induction false} OrZero(a: int)
    ensures BigOr(a, 0) == a
    decreases Norm(a)
  {
    if Norm(a) > 0 {
      OrZero(a / 2);
    }
  }

  lemma Wraps32(x: int) returns (k: int)
    ensures x == ToInt32(x) + k * TWO_32
    ensures ToUint32(ToInt32(x)) == ToUint32(x)
  {
    k := if x % TWO_32 < TWO_32 / 2 then x / TWO_32 else x / TWO_32 + 1;
  }

  lemma Wraps64(x: int, k: int)
    ensures AsUintN64(x + k * TWO_64) == AsUintN64(x)
  {
    assert (x + k * TWO_64) / TWO_64 == x / TWO_64 + k;
  }

  lemma SplitJoins(value: int)
    ensures AsUintN64(ToInt32(value / TWO_32) * TWO_32 + ToUint32(ToInt32(value))) == AsUintN64(value)
  {
    var high := ToInt32(value / TWO_32);
    var k := Wraps32(value / TWO_32);
    var _ := Wraps32(value);
    var low := ToUint32(value);
    assert value == (value / TWO_32) * TWO_32 + low;
    hide ToInt32, ToUint32, AsUintN64;
    assert value == high * TWO_32 + low + k * TWO_64;
    Wraps64(high * TWO_32 + low, k);
  }

  lemma InRange(value: int)
    ensures 0 <= value < TWO_64 ==> AsUintN64(value) == value
    ensures -TWO_63 <= value < TWO_63 ==> AsIntN64(AsUintN64(value)) == value
  {
    if value < 0 {
      Wraps64(value, 1);
    }
  }

  /** Every 64-bit value, signed or unsigned, comes back from its two halves as its decimal. */
  lemma {:induction false} LongRoundTrip(value: int, unsigned: bool)
    requires if unsigned then 0 <= value < TWO_64 else -TWO_63 <= value < TWO_63
    ensures LongToString(Halves(value, unsigned)) == Decimal(value)
  {
    hide BigOr, Decimal, Pow2, ToInt32, ToUint32, AsUintN64, AsIntN64;
    var v := Halves(value, unsigned);
    PowersOfTwo();
    OrIsSum(v.high, 32, ToUint32(v.low));
    SplitJoins(value);
    InRange(value);
  }

  lemma PowersOfTwo()
    ensures Pow2(32) == TWO_32
  {
    assert Pow2(4) == 16;
    assert Pow2(8) == 0x100;
    assert Pow2(12) == 0x1000;
    assert Pow2(16) == 0x1_0000;
    assert Pow2(20) == 0x10_0000;
    assert Pow2(24) == 0x100_0000;
    assert Pow2(28) == 0x1000_0000;
  }

  // The reader of the decimal.
  function ParseDigits(s: string): int {
    if s == [] then 0 else 10 * ParseDigits(s[..|s| - 1]) + (s[|s| - 1] as int - '0' as int)
  }

  function Parse(s: string): int {
    if s != [] && s[0] == '-' then -ParseDigits(s[1..]) else ParseDigits(s)
  }

  lemma {:induction false} ParsesDigits(n: nat)
    ensures ParseDigits(Digits(n)) == n
    ensures Digits(n) != [] && forall i :: 0 <= i < |Digits(n)| ==> '0' <= Digits(n)[i] <= '9'
  {
    if n >= 10 {
      ParsesDigits(n / 10);
      assert Digits(n)[..|Digits(n)| - 1] == Digits(n / 10);
    } else {
      assert [Digit(n)][..0] == [];
    }
  }

  /** And the decimal stands for that value and no other. */
  lemma DecimalReadsBack(value: int)
    ensures Parse(Decimal(value)) == value
  {
    ParsesDigits(if value < 0 then -value else value);
    if value < 0 {
      assert Decimal(value)[1..] == Digits(-value);
    }
  }
}
