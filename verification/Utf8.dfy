/** The UTF-8 codec of characters below 2^31.

    Masks and shifts are written as remainders and quotients by powers of two: `c & 0x3f` is
    `c % 64`, `c >> 6` is `c / 64`, and an `|` of disjoint bits is a sum. */
module Utf8 {
  import opened Bytes

  const LIMIT: nat := 0x8000_0000

  function Pow2(n: nat): nat { if n == 0 then 1 else 2 * Pow2(n - 1) }

  // ---------- encoding ----------

  /** How many bytes the branches of utf8_encode_char give a character; none from 2^31 on. */
  function Length(ch: nat): nat {
    if ch < 0x80 then 1
    else if ch < 0x800 then 2
    else if ch < 0x1_0000 then 3
    else if ch < 0x20_0000 then 4
    else if ch < 0x400_0000 then 5
    else if ch < LIMIT then 6
    else 0
  }

  /** How many values the head of an n-byte encoding has room for. */
  function Room(n: nat): nat
    requires 2 <= n <= 6
  {
    match n case 2 => 32 case 3 => 16 case 4 => 8 case 5 => 4 case _ => 2
  }

  /** UTF8_HEAD(n - 1) cut down to a byte: n ones and then zeros. */
  function Lead(n: nat): Byte
    requires 2 <= n <= 6
  {
    256 - 2 * Room(n)
  }

  function Tail(ch: nat): Byte { 0x80 + ch % 64 }

  /** The character after n continuation bytes have been shifted out. */
  function Down(ch: nat, n: nat): nat { if n == 0 then ch else Down(ch / 64, n - 1) }

  function Tails(ch: nat, n: nat): (s: seq<Byte>)
    ensures |s| == n
  {
    if n == 0 then [] else Tails(ch / 64, n - 1) + [Tail(ch)]
  }

  /** What the shifts leave fits in the head. */
  lemma TopBits(ch: nat)
    requires 2 <= Length(ch) <= 6
    ensures var n := Length(ch); Down(ch, n - 1) < Room(n)
  {
    var a := ch / 64;
    var b := a / 64;
    var c := b / 64;
    var d := c / 64;
    var e := d / 64;
    assert Down(ch, 1) == Down(a, 0) == a;
    assert Down(ch, 2) == Down(a, 1) == Down(b, 0) == b;
    assert Down(ch, 3) == Down(a, 2) == Down(b, 1) == Down(c, 0) == c;
    assert Down(ch, 4) == Down(a, 3) == Down(b, 2) == Down(c, 1) == Down(d, 0) == d;
    assert Down(ch, 5) == Down(a, 4) == Down(b, 3) == Down(c, 2) == Down(d, 1) == Down(e, 0) == e;
    hide Down;
  }

  function HeadByte(ch: nat): Byte
    requires 2 <= Length(ch) <= 6
  {
    TopBits(ch);
    Lead(Length(ch)) + Down(ch, Length(ch) - 1)
  }

  function Encode(ch: nat): seq<Byte> {
    var n := Length(ch);
    if n == 0 then [] else if n == 1 then [ch] else [HeadByte(ch)] + Tails(ch, n - 1)
  }

  /** utf8_encode_char: the output is cleared, then written from the last byte to the first. */
  method EncodeChar(output: array<Byte>, character: nat)
    requires output.Length == 7
    modifies output
    ensures var e := Encode(character); |e| < 7 && output[..|e|] == e && forall i :: |e| <= i < 7 ==> output[i] == 0
  {
    for i := 0 to 7
      invariant forall j :: 0 <= j < i ==> output[j] == 0
    {
      output[i] := 0;
    }
    var n := Length(character);
    if n == 1 {
      output[0] := character % 128;
    } else if n > 1 {
      TopBits(character);
      hide Length, Room;
      var ch, i := character, n - 1;
      while i > 0
        invariant 0 <= i < n && Down(ch, i) == Down(character, n - 1)
        invariant Tails(ch, i) + output[i + 1..n] == Tails(character, n - 1)
        invariant forall j :: n <= j < 7 ==> output[j] == 0
      {
        output[i] := 0x80 + ch % 64;
        assert output[i..n] == [Tail(ch)] + output[i + 1..n];
        ch := ch / 64;
        i := i - 1;
      }
      output[0] := Lead(n) + ch;
      assert output[..n] == [output[0]] + output[1..n];
    }
  }

  // ---------- decoding ----------

  /** One bit to the left within a byte. */
  function ShiftLeft(c: Byte): Byte { if c < 0x80 then 2 * c else 2 * c - 256 }

  /** A plain char is signed. */
  function Signed(c: Byte): int { if c < 0x80 then c else c - 256 }

  function CountFrom(c: Byte, n: nat): nat
    requires n <= 6
    decreases 6 - n
  {
    if c >= 0x80 && n < 6 then CountFrom(ShiftLeft(c), n + 1) else n
  }

  /** utf8_head_count_bytes. */
  function HeadCount(c: Byte): nat {
    var n := CountFrom(c, 0);
    if n == 0 then 1 else n
  }

  /** getchar, with the end of input read as a byte of ones. */
  function ByteAt(s: seq<Byte>, i: nat): Byte { if i < |s| then s[i] else 0xff }

  /** The loop over the bytes after the head. */
  function Rest(s: seq<Byte>, i: nat, n: nat, acc: nat): nat
    requires i <= n
    decreases n - i
  {
    if i == n then acc else Rest(s, i + 1, n, acc * 64 + ByteAt(s, i) % 64)
  }

  /** utf8_read_char: the character and how many bytes it takes from the input.  At the end it is
      -1; a stray continuation byte is sign-extended. */
  function ReadChar(s: seq<Byte>): (int, nat) {
    if s == [] then (-1, 0)
    else
      var n := HeadCount(s[0]);
      if n <= 1 || n > 6 then (Signed(s[0]), 1)
      else (Rest(s, 1, n, s[0] % Room(n)), if n <= |s| then n else |s|)
  }

  /** All characters of an input. */
  function ReadAll(s: seq<Byte>): seq<int>
    decreases |s|
  {
    if s == [] then []
    else
      var r := ReadChar(s);
      if 0 < r.1 <= |s| then [r.0] + ReadAll(s[r.1..]) else []
  }

  function EncodeAll(cs: seq<nat>): seq<Byte> {
    if cs == [] then [] else Encode(cs[0]) + EncodeAll(cs[1..])
  }

  /** utf8_head_count_bytes as the loop it is. */
  method HeadCountBytes(head: Byte) returns (count: nat)
    ensures count == HeadCount(head)
  {
    var c := head;
    count := 0;
    while c >= 0x80 && count < 6
      invariant count <= 6 && CountFrom(c, count) == CountFrom(head, 0)
      decreases 6 - count
    {
      c := ShiftLeft(c);
      count := count + 1;
    }
    if count == 0 { count := 1; }
  }

  /** utf8_read_char on an input at position pos. */
  method ReadCharAt(input: seq<Byte>, pos: nat) returns (ch: int, next: nat)
    requires pos <= |input|
    ensures var r := ReadChar(input[pos..]); ch == r.0 && next == pos + r.1
  {
    if pos == |input| { return -1, pos; }
    hide HeadCount, Room, Rest;
    var c := input[pos];
    assert input[pos..][0] == c;
    var n := HeadCountBytes(c);
    HeadBound(c);
    if n == 1 { return Signed(c), pos + 1; }
    ch := ReadRest(input, pos, n, c % Room(n));
    next := if pos + n <= |input| then pos + n else |input|;
  }

  method ReadRest(input: seq<Byte>, pos: nat, n: nat, head: nat) returns (ch: nat)
    requires pos < |input| && n > 0
    ensures ch == Rest(input[pos..], 1, n, head)
  {
    ghost var s := input[pos..];
    ch := head;
    for i := 1 to n
      invariant Rest(s, i, n, ch) == Rest(s, 1, n, head)
    {
      var b := if pos + i < |input| then input[pos + i] else 0xff;
      assert b == ByteAt(s, i);
      ch := ch * 64 + b % 64;
    }
  }

  lemma HeadBound(c: Byte)
    ensures 1 <= HeadCount(c) <= 6
  {
    CountBound(c, 0);
  }

  lemma {:induction false} CountBound(c: Byte, n: nat)
    requires n <= 6
    ensures n <= CountFrom(c, n) <= 6
    decreases 6 - n
  {
    if c >= 0x80 && n < 6 { CountBound(ShiftLeft(c), n + 1); }
  }

  // ---------- round trips ----------

  /** Heads with k ones still to be shifted out after n have been. */
  lemma {:induction false} CountOnes(c: Byte, n: nat, k: nat)
    requires n + k <= 6 && 256 - Pow2(8 - k) <= c
    requires n + k < 6 ==> c < 256 - Pow2(8 - k) + Pow2(7 - k)
    ensures CountFrom(c, n) == n + k
    decreases k
  {
    assert Pow2(8 - k) == 2 * Pow2(7 - k);
    if k > 0 {
      PowSmall(8 - k);
      CountOnes(2 * c - 256, n + 1, k - 1);
    }
  }

  lemma PowSmall(n: nat)
    requires n <= 7
    ensures 1 <= Pow2(n) <= 128
  {
    assert Pow2(1) == 2 && Pow2(2) == 4 && Pow2(3) == 8 && Pow2(4) == 16 && Pow2(5) == 32 && Pow2(6) == 64
      && Pow2(7) == 128;
  }

  lemma RoomPow(n: nat)
    requires 2 <= n <= 6
    ensures Room(n) == Pow2(7 - n) && 2 * Room(n) == Pow2(8 - n)
  {
    assert Pow2(1) == 2 && Pow2(2) == 4 && Pow2(3) == 8 && Pow2(4) == 16 && Pow2(5) == 32 && Pow2(6) == 64;
  }

  /** The head announces the length and carries its bits. */
  lemma HeadOk(ch: nat)
    requires 2 <= Length(ch) <= 6
    ensures var n := Length(ch); HeadCount(HeadByte(ch)) == n && HeadByte(ch) % Room(n) == Down(ch, n - 1)
  {
    hide Down, CountFrom;
    var n := Length(ch);
    TopBits(ch);
    hide Length;
    RoomPow(n);
    LeadRoom(n, Down(ch, n - 1));
    hide Room;
    CountOnes(HeadByte(ch), 0, n);
  }

  lemma LeadRoom(n: nat, x: nat)
    requires 2 <= n <= 6 && x < Room(n)
    ensures (Lead(n) + x) % Room(n) == x
  {
    match n
    case 2 =>
    case 3 =>
    case 4 =>
    case 5 =>
    case 6 =>
  }

  lemma SliceEnd(s: seq<Byte>, i: nat, k: nat, init: seq<Byte>, last: Byte)
    requires 0 < k && i + k <= |s| && |init| == k - 1 && s[i..i + k] == init + [last]
    ensures s[i..i + (k - 1)] == init && s[i + (k - 1)] == last
  {
    var w := s[i..i + k];
    assert forall j :: 0 <= j < k - 1 ==> s[i + j] == w[j] == init[j];
    assert s[i + (k - 1)] == w[k - 1] == last;
  }

  /** Reading undoes the shifts: the continuation bytes at i bring the head bits back to ch. */
  lemma {:induction false} RestTails(s: seq<Byte>, i: nat, k: nat, n: nat, ch: nat)
    requires i + k <= n && i + k <= |s| && s[i..i + k] == Tails(ch, k)
    ensures Rest(s, i, n, Down(ch, k)) == Rest(s, i + k, n, ch)
    decreases k
  {
    if k > 0 {
      SliceEnd(s, i, k, Tails(ch / 64, k - 1), Tail(ch));
      RestTails(s, i, k - 1, n, ch / 64);
    }
  }

  /** Reading an encoded character back, whatever follows it, takes exactly its bytes. */
  lemma CharRoundTrip(ch: nat, more: seq<Byte>)
    requires ch < LIMIT
    ensures |Encode(ch)| > 0 && ReadChar(Encode(ch) + more) == (ch, |Encode(ch)|)
  {
    var n := Length(ch);
    if n > 1 {
      var s := Encode(ch) + more;
      HeadOk(ch);
      hide Length, HeadCount, HeadByte, Room;
      assert s[1..1 + (n - 1)] == Tails(ch, n - 1);
      RestTails(s, 1, n - 1, n, ch);
    }
  }

  /** Every sequence of characters below 2^31 survives the stream. */
  lemma {:induction false} StreamRoundTrip(cs: seq<nat>)
    requires forall i :: 0 <= i < |cs| ==> cs[i] < LIMIT
    ensures ReadAll(EncodeAll(cs)) == cs
    decreases |cs|
  {
    hide Encode, ReadChar;
    if cs != [] {
      var more := EncodeAll(cs[1..]);
      CharRoundTrip(cs[0], more);
      assert (Encode(cs[0]) + more)[|Encode(cs[0])|..] == more;
      StreamRoundTrip(cs[1..]);
    }
  }

  // ---------- encodings are the shortest ----------

  /** n bytes have room for ch: seven bits in one, and five n + 1 in more. */
  predicate Fits(ch: nat, n: nat) { ch < Pow2(if n == 1 then 7 else 5 * n + 1) }

  lemma PowValues()
    ensures Pow2(7) == 0x80 && Pow2(11) == 0x800 && Pow2(16) == 0x1_0000 && Pow2(21) == 0x20_0000
    ensures Pow2(26) == 0x400_0000 && Pow2(31) == 0x8000_0000
  {
    assert Pow2(3) == 8 by { assert Pow2(1) == 2 && Pow2(2) == 4; }
    PowPlus(3, 4);
    PowPlus(7, 4);
    PowPlus(11, 5);
    PowPlus(16, 5);
    PowPlus(21, 5);
    PowPlus(26, 5);
    assert Pow2(4) == 16 && Pow2(5) == 32;
  }

  lemma {:induction false} PowPlus(m: nat, n: nat)
    ensures Pow2(m + n) == Pow2(m) * Pow2(n)
    decreases n
  {
    if n > 0 { PowPlus(m, n - 1); }
  }

  lemma LengthFits(ch: nat, n: nat)
    requires 1 <= n <= 6
    ensures Length(ch) == n <==> Fits(ch, n) && (n > 1 ==> !Fits(ch, n - 1))
    ensures Fits(ch, n) ==> 1 <= Length(ch) <= n
  {
    PowValues();
    hide Pow2;
    match n
    case 1 =>
    case 2 =>
    case 3 =>
    case 4 =>
    case 5 =>
    case 6 =>
  }

  /** A character below 2^31 takes the fewest bytes that have room for it. */
  lemma EncodedLength(ch: nat, n: nat)
    requires 1 <= n <= 6 && ch < LIMIT
    ensures |Encode(ch)| == n <==> Fits(ch, n) && (n > 1 ==> !Fits(ch, n - 1))
  {
    hide Fits, HeadByte;
    LengthFits(ch, n);
  }

  /** One byte stands for itself; otherwise the head has as many leading ones as there are bytes, and
      every other byte starts with the bits 10. */
  lemma EncodedBytes(ch: nat)
    requires ch < LIMIT
    ensures var e := Encode(ch);
      && (|e| == 1 ==> e == [ch] && ch < 0x80)
      && (|e| > 1 ==> e[0] >= 0xc0 && HeadCount(e[0]) == |e|)
      && forall i :: 1 <= i < |e| ==> 0x80 <= e[i] < 0xc0
  {
    if Length(ch) > 1 {
      HeadOk(ch);
      TailBytes(ch, Length(ch) - 1);
      TopBits(ch);
    }
  }

  lemma {:induction false} TailBytes(ch: nat, n: nat)
    ensures forall i :: 0 <= i < n ==> 0x80 <= Tails(ch, n)[i] < 0xc0
    decreases n
  {
    if n > 0 { TailBytes(ch / 64, n - 1); }
  }

  lemma {:induction false} RestBound(s: seq<Byte>, i: nat, n: nat, acc: nat, bits: nat)
    requires i <= n && acc < Pow2(bits)
    ensures Rest(s, i, n, acc) < Pow2(bits + 6 * (n - i))
    decreases n - i
  {
    if i < n {
      var next := acc * 64 + ByteAt(s, i) % 64;
      SixMore(bits);
      RestBound(s, i + 1, n, next, bits + 6);
    }
  }

  lemma SixMore(bits: nat)
    ensures Pow2(bits + 6) == 64 * Pow2(bits)
  {
    PowPlus(bits, 6);
    assert Pow2(3) == 8 && Pow2(6) == 64 by { assert Pow2(1) == 2 && Pow2(2) == 4 && Pow2(4) == 16 && Pow2(5) == 32; }
  }

  /** No whole byte sequence is read as ch in fewer bytes than its encoding has. */
  lemma Shortest(ch: nat, s: seq<Byte>)
    requires ch < LIMIT && s != [] && HeadCount(s[0]) <= |s| && ReadChar(s) == (ch, |s|)
    ensures |Encode(ch)| <= |s|
  {
    var n := HeadCount(s[0]);
    HeadBound(s[0]);
    hide HeadCount;
    if n > 1 {
      RoomPow(n);
      RestBound(s, 1, n, s[0] % Room(n), 7 - n);
      assert 7 - n + 6 * (n - 1) == 5 * n + 1;
    } else {
      PowValues();
    }
    hide Pow2, Rest, Room;
    LengthFits(ch, n);
    hide Length, HeadByte;
  }

  // ---------- any input ----------

  /** Reading always gets on, and stays within the input; it is below zero exactly for a stray
      continuation byte, which is taken alone. */
  lemma ReadsOn(s: seq<Byte>)
    requires s != []
    ensures var r := ReadChar(s);
      && 1 <= r.1 <= |s|
      && (r.0 < 0 <==> 0x80 <= s[0] < 0xc0) && (r.0 < 0 ==> r.0 + 256 == s[0] && r.1 == 1)
      && (s[0] < 0x80 ==> r.0 == s[0] && r.1 == 1)
  {
    HeadBound(s[0]);
    if 0x80 <= s[0] < 0xc0 {
      CountOnes(s[0], 0, 1) by { PowValues(); assert Pow2(6) == 64 by { SixMore(0); } }
    } else if s[0] >= 0xc0 {
      CountMore(s[0]);
    }
  }

  lemma CountMore(c: Byte)
    requires c >= 0xc0
    ensures HeadCount(c) >= 2
  {
    CountBound(ShiftLeft(ShiftLeft(c)), 2);
  }
}
