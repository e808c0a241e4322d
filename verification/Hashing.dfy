/** String keys: the hash and the comparison, over NUL-terminated bytes. */
module Hashing {
  import opened Bytes

  type Key = seq<Byte>

  const WORD: int := 0x1_0000_0000

  /** The sdbm hash in 32-bit arithmetic. */
  function HashOf(key: Key): nat {
    if key == [] then 0 else Mix(HashOf(key[..|key| - 1]), key[|key| - 1])
  }

  /** One round; each shift drops the bits above the word. */
  function Mix(h: nat, b: Byte): nat {
    (b + (h * 64) % WORD + (h * 0x1_0000) % WORD - h) % WORD
  }

  /** The bytes as the digits of a number to the base 65599. */
  function Digits(key: Key): nat {
    if key == [] then 0 else Digits(key[..|key| - 1]) * 65599 + key[|key| - 1]
  }

  /** The shifts multiply by 65599, so the hash is that number in 32 bits. */
  lemma {:induction false} HashIsDigits(key: Key)
    ensures HashOf(key) == Digits(key) % 0x1_0000_0000
    decreases |key|
  {
    if key != [] {
      HashIsDigits(key[..|key| - 1]);
      MixDigit(HashOf(key[..|key| - 1]), Digits(key[..|key| - 1]), key[|key| - 1]);
    }
  }

  lemma MixDigit(h: nat, d: nat, b: Byte)
    requires h == d % 0x1_0000_0000
    ensures Mix(h, b) == (d * 65599 + b) % 0x1_0000_0000
  {
    var q := d / 0x1_0000_0000;
    assert d == q * 0x1_0000_0000 + h;
    var x, y := h * 64, h * 0x1_0000;
    assert x == x / WORD * WORD + x % WORD && y == y / WORD * WORD + y % WORD;
    SameRest(b + x % WORD + y % WORD - h, d * 65599 + b, x / WORD + y / WORD + q * 65599);
  }

  lemma SameRest(a: int, c: int, k: int)
    requires c == a + k * 0x1_0000_0000
    ensures a % 0x1_0000_0000 == c % 0x1_0000_0000
  {
  }

  /** Memory that holds a string: it has a zero somewhere. */
  ghost predicate Terminated(m: seq<Byte>) { exists i :: 0 <= i < |m| && m[i] == 0 }

  /** The bytes before the first zero. */
  function Text(m: seq<Byte>): Key {
    if m == [] || m[0] == 0 then [] else [m[0]] + Text(m[1..])
  }

  lemma {:induction false} TextBytes(m: seq<Byte>)
    requires Terminated(m)
    ensures |Text(m)| < |m| && Text(m) == m[..|Text(m)|] && m[|Text(m)|] == 0 && forall i :: 0 <= i < |Text(m)| ==>
      m[i] != 0
    decreases |m|
  {
    if m[0] != 0 {
      assert Terminated(m[1..]) by { var i :| 0 <= i < |m| && m[i] == 0; assert m[1..][i - 1] == 0; }
      TextBytes(m[1..]);
    }
  }

  method HashString(m: seq<Byte>) returns (h: nat)
    requires Terminated(m)
    ensures h == HashOf(Text(m))
  {
    TextBytes(m);
    h := 0;
    var i := 0;
    while m[i] != 0
      invariant 0 <= i <= |Text(m)| && h == HashOf(m[..i])
      decreases |m| - i
    {
      assert m[..i + 1][..i] == m[..i];
      h := (m[i] + (h * 64) % WORD + (h * 0x1_0000) % WORD - h) % WORD;
      i := i + 1;
    }
  }

  datatype Order = LT | EQ | GT

  /** Byte-wise order of keys, the reference for the comparison. */
  function Compare(a: Key, b: Key): Order {
    if a == [] && b == [] then EQ
    else if a == [] then LT
    else if b == [] then GT
    else if a[0] < b[0] then LT
    else if a[0] > b[0] then GT
    else Compare(a[1..], b[1..])
  }

  lemma {:induction false} CompareEqual(a: Key, b: Key)
    ensures Compare(a, b) == EQ <==> a == b
    decreases |a|
  {
    if a != [] && b != [] {
      CompareEqual(a[1..], b[1..]);
      assert a == [a[0]] + a[1..] && b == [b[0]] + b[1..];
    }
  }

  /** a comes before b where they first differ, or ends there. */
  ghost predicate Before(a: Key, b: Key, i: nat) {
    i < |b| && i <= |a| && a[..i] == b[..i] && (i < |a| ==> a[i] < b[i])
  }

  lemma {:induction false} CompareBefore(a: Key, b: Key)
    ensures Compare(a, b) == LT ==> exists i :: Before(a, b, i)
    ensures Compare(a, b) == GT ==> exists i :: Before(b, a, i)
    decreases |a|
  {
    if a == [] && b != [] { assert Before(a, b, 0); }
    if b == [] && a != [] { assert Before(b, a, 0); }
    if a != [] && b != [] {
      if a[0] < b[0] { assert Before(a, b, 0); }
      if b[0] < a[0] { assert Before(b, a, 0); }
      if a[0] == b[0] {
        CompareBefore(a[1..], b[1..]);
        if Compare(a, b) == LT {
          var i :| Before(a[1..], b[1..], i);
          BeforeNext(a, b, i);
        }
        if Compare(a, b) == GT {
          var i :| Before(b[1..], a[1..], i);
          BeforeNext(b, a, i);
        }
      }
    }
  }

  lemma BeforeNext(a: Key, b: Key, i: nat)
    requires a != [] && b != [] && a[0] == b[0] && Before(a[1..], b[1..], i)
    ensures Before(a, b, i + 1)
  {
    assert a[..i + 1] == [a[0]] + a[1..][..i] && b[..i + 1] == [b[0]] + b[1..][..i];
  }

  lemma NotBoth(a: Key, b: Key, i: nat, j: nat)
    requires Before(a, b, i)
    ensures !Before(b, a, j) && a != b
  {
    assert i <= j ==> a[..i] == b[..i];
  }

  /** The order is the one of the first bytes that differ, a string coming after its beginnings. */
  lemma CompareFirst(a: Key, b: Key)
    ensures Compare(a, b) == LT <==> exists i :: Before(a, b, i)
    ensures Compare(a, b) == GT <==> exists i :: Before(b, a, i)
  {
    CompareBefore(a, b);
    CompareEqual(a, b);
    forall i, j | Before(a, b, i) && Before(b, a, j) ensures false { NotBoth(a, b, i, j); }
    forall i | Before(a, b, i) ensures a != b { NotBoth(a, b, i, 0); }
    forall i | Before(b, a, i) ensures a != b { NotBoth(b, a, i, 0); }
  }

  /** hash_string_cmp decides equality of the strings, so equal keys have equal hashes. */
  method HashStringCmp(m: seq<Byte>, n: seq<Byte>) returns (r: Order)
    requires Terminated(m) && Terminated(n)
    ensures r == Compare(Text(m), Text(n))
    ensures r == EQ <==> Text(m) == Text(n)
  {
    TextBytes(m);
    TextBytes(n);
    var a, b := Text(m), Text(n);
    var i := 0;
    while m[i] == n[i] && m[i] != 0 && n[i] != 0
      invariant 0 <= i <= |a| && i <= |b| && Compare(a, b) == Compare(a[i..], b[i..])
      decreases |m| - i
    {
      assert a[i] == m[i] && b[i] == n[i];
      assert a[i..][1..] == a[i + 1..] && b[i..][1..] == b[i + 1..];
      i := i + 1;
    }
    if i < |a| { assert a[i..][0] == m[i]; }
    if i < |b| { assert b[i..][0] == n[i]; }
    r := if m[i] == n[i] then EQ else if m[i] > n[i] then GT else LT;
    CompareEqual(a, b);
  }
}
