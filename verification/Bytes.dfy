/** The byte form of instruction operands: little-endian integers, characters and strings. */
module Bytes {
  import opened Machine

  type Byte = b: int | 0 <= b < 256

  const TWO_64: int := 0x1_0000_0000_0000_0000
  const TWO_32: int := 0x1_0000_0000

  // ---------- little-endian numbers ----------

  /** BYTE(u, 0), BYTE(u, 1), ..., the n low bytes of u. */
  function LowBytes(u: nat, n: nat): (bs: seq<Byte>)
    ensures |bs| == n
    decreases n
  {
    if n == 0 then [] else [u % 256] + LowBytes(u / 256, n - 1)
  }

  /** The number bytes stand for, low byte first. */
  function FromBytes(bs: seq<Byte>): nat {
    if bs == [] then 0 else bs[0] + 256 * FromBytes(bs[1..])
  }

  function Pow256(n: nat): nat { if n == 0 then 1 else 256 * Pow256(n - 1) }

  lemma {:induction false} LowBytesValue(u: nat, n: nat)
    requires u < Pow256(n)
    ensures FromBytes(LowBytes(u, n)) == u
    decreases n
  {
    if n > 0 {
      LowBytesValue(u / 256, n - 1);
      assert LowBytes(u, n)[1..] == LowBytes(u / 256, n - 1);
    }
  }

  /** Byte i is the i-th digit to the base 256, the lowest first. */
  lemma {:induction false} LowByteDigit(u: nat, n: nat, i: nat)
    requires i < n
    ensures Pow256(i) > 0 && LowBytes(u, n)[i] == u / Pow256(i) % 256
    decreases n
  {
    PowMono(0, i);
    if i > 0 {
      LowByteDigit(u / 256, n - 1, i - 1);
      Quotients(u, Pow256(i - 1));
    }
  }

  lemma Quotients(u: nat, p: nat)
    requires p > 0
    ensures u / 256 / p == u / (256 * p)
  {
    var q := u / 256 / p;
    var r := u / 256 - q * p;
    assert u == (q * p + r) * 256 + u % 256;
    assert u == q * (256 * p) + (256 * r + u % 256);
    QuotientIs(u, 256 * p, q, 256 * r + u % 256);
  }

  lemma QuotientIs(u: nat, d: nat, q: nat, r: nat)
    requires r < d && u == q * d + r
    ensures u / d == q
  {
    if u / d > q { Scale(u / d - q, d); } else if u / d < q { Scale(q - u / d, d); }
    assert u == u / d * d + u % d;
    assert (u / d - q) * d == u / d * d - q * d;
    assert (q - u / d) * d == q * d - u / d * d;
  }

  lemma Scale(n: nat, d: nat)
    requires n >= 1
    ensures n * d >= d
  {
    assert n * d == d + (n - 1) * d;
  }

  lemma {:induction false} FromBytesBound(bs: seq<Byte>)
    ensures FromBytes(bs) < Pow256(|bs|)
    decreases |bs|
  {
    if bs != [] { FromBytesBound(bs[1..]); }
  }

  lemma Pow256Values()
    ensures Pow256(4) == TWO_32 && Pow256(8) == TWO_64
  {
    assert Pow256(1) == 256 && Pow256(2) == 65536 && Pow256(3) == 16777216;
    assert Pow256(5) == 256 * Pow256(4) && Pow256(6) == 256 * Pow256(5) && Pow256(7) == 256 * Pow256(6);
  }

  // ---------- 64-bit integers ----------

  function Signed(u: int): int { if u < TWO_64 / 2 then u else u - TWO_64 }

  /** INT_64. */
  function Int64(i: int): (bs: seq<Byte>)
    ensures |bs| == 8
  {
    LowBytes(i % TWO_64, 8)
  }

  /** parse_int on eight bytes. */
  function ParseInt(bs: seq<Byte>): int { Signed(FromBytes(bs)) }

  lemma IntRoundTrip(i: int)
    requires INT_MIN <= i <= INT_MAX
    ensures ParseInt(Int64(i)) == i
  {
    Pow256Values();
    LowBytesValue(i % TWO_64, 8);
    if i < 0 { assert i % TWO_64 == i + TWO_64; } else { assert i % TWO_64 == i; }
  }

  /** parse_int as written: the bytes from the highest down, shifted into a 64-bit accumulator. */
  method ParseIntLoop(code: seq<Byte>, ip: nat) returns (num: int)
    requires ip + 8 <= |code|
    ensures num == ParseInt(code[ip..ip + 8])
  {
    num := 0;
    var i := 7;
    while i >= 0
      invariant -1 <= i <= 7
      invariant num == Signed(FromBytes(code[ip + i + 1..ip + 8]))
      decreases i
    {
      var b := code[ip + i];
      var high := code[ip + i + 1..ip + 8];
      assert code[ip + i..ip + 8] == [b] + high;
      assert FromBytes([b] + high) == b + 256 * FromBytes(high) by { assert ([b] + high)[1..] == high; }
      FromBytesBound(high);
      ShiftIn(FromBytes(high), b, 7 - i);
      num := Signed((num * 256 + b) % TWO_64);
      i := i - 1;
    }
  }

  lemma ShiftIn(u: nat, b: Byte, n: nat)
    requires n <= 7 && u < Pow256(n)
    ensures Signed((Signed(u) * 256 + b) % TWO_64) == Signed(u * 256 + b)
  {
    Pow256Values();
    PowMono(n, 7);
    assert u < Pow256(7) && 256 * Pow256(7) == TWO_64;
    assert Signed(u) == u;
    assert (u * 256 + b) % TWO_64 == u * 256 + b;
  }

  lemma {:induction false} PowMono(m: nat, n: nat)
    requires m <= n
    ensures Pow256(m) <= Pow256(n)
    decreases n
  {
    if m < n { PowMono(m, n - 1); }
  }

  // ---------- characters ----------

  /** LIT_CHAR writes four bytes. */
  function CharBytes(c: int): (bs: seq<Byte>)
    ensures |bs| == 4
  {
    LowBytes(c % TWO_32, 4)
  }

  /** op_lit_char shifts five bytes into a 32-bit character. */
  function ParseChar(bs: seq<Byte>): int
    requires |bs| == 5
  {
    FromBytes(bs) % TWO_32
  }

  /** The fifth byte read, which belongs to the next instruction, never matters. */
  lemma CharRoundTrip(c: int, extra: Byte)
    requires 0 <= c < TWO_32
    ensures ParseChar(CharBytes(c) + [extra]) == c
  {
    hide FromBytes, LowBytes;
    Pow256Values();
    LowBytesValue(c, 4);
    FromBytesSnoc(CharBytes(c), extra);
    DropHigh(c, extra);
  }

  lemma DropHigh(c: int, x: Byte)
    requires 0 <= c < TWO_32
    ensures (c + TWO_32 * x) % TWO_32 == c && c % TWO_32 == c
  {
  }

  lemma {:induction false} FromBytesSnoc(bs: seq<Byte>, x: Byte)
    ensures FromBytes(bs + [x]) == FromBytes(bs) + Pow256(|bs|) * x
    decreases |bs|
  {
    if bs == [] {
      assert bs + [x] == [x] && [x][1..] == [];
    } else {
      FromBytesSnoc(bs[1..], x);
      assert (bs + [x])[1..] == bs[1..] + [x];
      assert 256 * (Pow256(|bs| - 1) * x) == Pow256(|bs|) * x;
    }
  }

  // ---------- strings ----------

  /** Text without a terminator byte inside, as a C string holds it. */
  predicate IsText(s: string) { forall i :: 0 <= i < |s| ==> 0 < s[i] as int < 256 }

  function TextBytes(s: string): (bs: seq<Byte>)
    requires IsText(s)
    ensures |bs| == |s|
  {
    seq(|s|, i requires 0 <= i < |s| => s[i] as int)
  }

  function TextFrom(bs: seq<Byte>): (s: string)
    ensures |s| == |bs|
  {
    seq(|bs|, i requires 0 <= i < |bs| => bs[i] as char)
  }

  lemma TextRoundTrip(s: string)
    requires IsText(s)
    ensures TextFrom(TextBytes(s)) == s
  {
    forall i | 0 <= i < |s| ensures TextFrom(TextBytes(s))[i] == s[i] {
      assert TextBytes(s)[i] == s[i] as int;
    }
  }
}
