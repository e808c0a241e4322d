/** Chained buckets as values, and the finite map they stand for. */
module Buckets {
  import opened Hashing

  /** A value is a pointer; a new entry holds the null pointer until it is set. */
  type Ptr = nat

  datatype Entry = Entry(key: Key, value: Ptr)

  type Chain = seq<Entry>

  function Slot(key: Key, size: nat): nat
    requires size > 0
    ensures Slot(key, size) < size
  {
    HashOf(key) % size
  }

  /** The first position of key in a chain, or its length. */
  function Pos(c: Chain, key: Key): (p: nat)
    ensures p <= |c| && (p < |c| ==> c[p].key == key)
    ensures forall i :: 0 <= i < p ==> c[i].key != key
  {
    if c == [] then 0 else if c[0].key == key then 0 else 1 + Pos(c[1..], key)
  }

  ghost predicate DistinctKeys(c: Chain) { forall i, j :: 0 <= i < j < |c| ==> c[i].key != c[j].key }

  ghost predicate Home(c: Chain, i: nat, size: nat)
    requires size > 0
  {
    forall j :: 0 <= j < |c| ==> Slot(c[j].key, size) == i
  }

  /** Every key is in the bucket of its hash, once. */
  ghost predicate Formed(b: seq<Chain>) {
    |b| > 0 && forall i :: 0 <= i < |b| ==> Home(b[i], i, |b|) && DistinctKeys(b[i])
  }

  ghost predicate Has(b: seq<Chain>, key: Key)
    requires |b| > 0
  {
    var c := b[Slot(key, |b|)]; Pos(c, key) < |c|
  }

  ghost function At(b: seq<Chain>, key: Key): Ptr
    requires |b| > 0 && Has(b, key)
  {
    var c := b[Slot(key, |b|)]; c[Pos(c, key)].value
  }

  ghost function Keys(b: seq<Chain>): set<Key> {
    set i, j | 0 <= i < |b| && 0 <= j < |b[i]| :: b[i][j].key
  }

  /** The map the buckets stand for. */
  ghost function Contents(b: seq<Chain>): map<Key, Ptr>
    requires |b| > 0
  {
    map k | k in Keys(b) && Has(b, k) :: At(b, k)
  }

  lemma ContentsHas(b: seq<Chain>, k: Key)
    requires |b| > 0
    ensures k in Contents(b) <==> Has(b, k)
  {
    var i := Slot(k, |b|);
    if Has(b, k) { assert b[i][Pos(b[i], k)].key == k; }
  }

  /** A key of the map is in the chain its hash selects, and in no other. */
  lemma InItsBucket(b: seq<Chain>, k: Key)
    requires Formed(b)
    ensures k in Contents(b) <==> exists p :: 0 <= p < |b[HashOf(k) % |b|]| && b[HashOf(k) % |b|][p].key == k
    ensures forall i, p :: 0 <= i < |b| && 0 <= p < |b[i]| && b[i][p].key == k ==> i == HashOf(k) % |b|
  {
    hide HashOf;
    ContentsHas(b, k);
    var c := b[Slot(k, |b|)];
    if k in Contents(b) { assert c[Pos(c, k)].key == k; }
  }

  lemma ContentsAt(b: seq<Chain>, k: Key)
    requires |b| > 0
    ensures k in Contents(b) ==> Has(b, k) && Contents(b)[k] == At(b, k)
  {
  }

  /** Two bucket arrays with the same answers stand for the same map. */
  lemma SameContents(b: seq<Chain>, m: map<Key, Ptr>)
    requires |b| > 0 && (forall k :: Has(b, k) <==> k in m) && (forall k :: k in m && Has(b, k) ==> At(b, k) == m[k])
    ensures Contents(b) == m
  {
    forall k ensures k in Contents(b) <==> k in m { ContentsHas(b, k); }
  }

  // ---------- changes to one chain ----------

  /** The map after one chain has been replaced, key by key. */
  lemma Replace(b: seq<Chain>, i: nat, c: Chain, m: map<Key, Ptr>)
    requires Formed(b) && i < |b| && Home(c, i, |b|) && DistinctKeys(c)
    requires forall k :: Slot(k, |b|) != i ==>
      (k in m <==> k in Contents(b)) && (k in m && k in Contents(b) ==> m[k] == Contents(b)[k])
    requires forall k :: Slot(k, |b|) == i ==>
      (k in m <==> Pos(c, k) < |c|) && (k in m && Pos(c, k) < |c| ==> m[k] == c[Pos(c, k)].value)
    ensures Formed(b[i := c]) && Contents(b[i := c]) == m
  {
    hide Pos, Slot, Contents, Home, DistinctKeys;
    var b' := b[i := c];
    forall k ensures (Has(b', k) <==> k in m) && (k in m && Has(b', k) ==> At(b', k) == m[k]) {
      ContentsHas(b, k);
      if Slot(k, |b|) != i { ContentsAt(b, k); }
    }
    SameContents(b', m);
  }

  lemma {:induction false} PosUnique(c: Chain, p: nat)
    requires DistinctKeys(c) && p < |c|
    ensures Pos(c, c[p].key) == p
  {
  }

  lemma InsertContents(b: seq<Chain>, key: Key)
    requires Formed(b) && !Has(b, key)
    ensures var i := Slot(key, |b|); var b' := b[i := [Entry(key, 0)] + b[i]];
      Formed(b') && key !in Contents(b) && Contents(b') == Contents(b)[key := 0]
  {
    var i := Slot(key, |b|);
    var c := [Entry(key, 0)] + b[i];
    ContentsHas(b, key);
    forall k ensures Slot(k, |b|) == i && k != key ==> Pos(c, k) == 1 + Pos(b[i], k) {
      assert c[1..] == b[i];
      ContentsHas(b, k);
    }
    forall k ensures k in Contents(b) <==> Has(b, k) { ContentsHas(b, k); }
    Replace(b, i, c, Contents(b)[key := 0]);
  }

  lemma WriteContents(b: seq<Chain>, key: Key, v: Ptr)
    requires Formed(b) && Has(b, key)
    ensures var i := Slot(key, |b|); var p := Pos(b[i], key); var b' := b[i := b[i][p := Entry(key, v)]];
      Formed(b') && key in Contents(b) && Contents(b') == Contents(b)[key := v]
  {
    var i := Slot(key, |b|);
    var p := Pos(b[i], key);
    var c := b[i][p := Entry(key, v)];
    hide Slot, Pos, Contents, Home, DistinctKeys;
    WriteHome(b[i], i, p, key, v, |b|);
    var m := Contents(b)[key := v];
    ContentsHas(b, key);
    forall k | Slot(k, |b|) == i
      ensures (k in m <==> Pos(c, k) < |c|) && (k in m && Pos(c, k) < |c| ==> m[k] == c[Pos(c, k)].value)
    {
      SamePos(b[i], c, k);
      ContentsHas(b, k);
      ContentsAt(b, k);
    }
    Replace(b, i, c, m);
  }

  lemma WriteHome(c: Chain, i: nat, p: nat, key: Key, v: Ptr, size: nat)
    requires p < |c| && size > 0 && Home(c, i, size) && DistinctKeys(c) && c[p].key == key
    ensures Home(c[p := Entry(key, v)], i, size) && DistinctKeys(c[p := Entry(key, v)])
  {
    hide Slot;
  }

  lemma {:induction false} SamePos(c: Chain, d: Chain, k: Key)
    requires |c| == |d| && forall j :: 0 <= j < |c| ==> c[j].key == d[j].key
    ensures Pos(c, k) == Pos(d, k)
  {
  }

  lemma DeleteContents(b: seq<Chain>, key: Key)
    requires Formed(b) && Has(b, key)
    ensures var i := Slot(key, |b|); var p := Pos(b[i], key); var b' := b[i := b[i][..p] + b[i][p + 1..]];
      Formed(b') && key in Contents(b) && Contents(b') == Contents(b) - {key}
  {
    var i := Slot(key, |b|);
    var p := Pos(b[i], key);
    var c := b[i][..p] + b[i][p + 1..];
    hide Pos, Slot, Contents, Home, DistinctKeys;
    CutHome(b[i], i, p, |b|);
    var m := Contents(b) - {key};
    ContentsHas(b, key);
    forall k | Slot(k, |b|) == i
      ensures (k in m <==> Pos(c, k) < |c|) && (k in m && Pos(c, k) < |c| ==> m[k] == c[Pos(c, k)].value)
    {
      CutAgrees(b, key, k);
    }
    Replace(b, i, c, m);
  }

  lemma CutAgrees(b: seq<Chain>, key: Key, k: Key)
    requires Formed(b) && Has(b, key) && Slot(k, |b|) == Slot(key, |b|)
    ensures var i := Slot(key, |b|); var p := Pos(b[i], key); var c := b[i][..p] + b[i][p + 1..];
      var m := Contents(b) - {key};
      (k in m <==> Pos(c, k) < |c|) && (k in m && Pos(c, k) < |c| ==> m[k] == c[Pos(c, k)].value)
  {
    var i := Slot(key, |b|);
    hide Pos, Slot, Contents, DistinctKeys;
    CutPos(b[i], Pos(b[i], key), k);
    ContentsHas(b, k);
    ContentsAt(b, k);
  }

  lemma CutHome(c: Chain, i: nat, p: nat, size: nat)
    requires p < |c| && size > 0 && Home(c, i, size) && DistinctKeys(c)
    ensures Home(c[..p] + c[p + 1..], i, size) && DistinctKeys(c[..p] + c[p + 1..])
  {
    hide Slot;
    var d := c[..p] + c[p + 1..];
    assert forall j :: 0 <= j < |d| ==> d[j] == c[if j < p then j else j + 1];
  }

  lemma CutPos(c: Chain, p: nat, k: Key)
    requires DistinctKeys(c) && p < |c|
    ensures var d := c[..p] + c[p + 1..];
      && DistinctKeys(d) && (Pos(d, k) < |d| <==> k != c[p].key && Pos(c, k) < |c|)
      && (k != c[p].key && Pos(c, k) < |c| ==> d[Pos(d, k)] == c[Pos(c, k)])
  {
    hide DistinctKeys;
    CutDistinct(c, p);
    CutKeeps(c, p, k);
    var d := c[..p] + c[p + 1..];
    var j := Pos(d, k);
    if j < |d| {
      assert d[j] == c[if j < p then j else j + 1];
      PosUnique(c, if j < p then j else j + 1);
      KeyApart(c, p, if j < p then j else j + 1);
    }
  }

  lemma KeyApart(c: Chain, i: nat, j: nat)
    requires DistinctKeys(c) && i < |c| && j < |c| && i != j
    ensures c[i].key != c[j].key
  {
  }

  lemma CutDistinct(c: Chain, p: nat)
    requires DistinctKeys(c) && p < |c|
    ensures DistinctKeys(c[..p] + c[p + 1..])
  {
    var d := c[..p] + c[p + 1..];
    assert forall j :: 0 <= j < |d| ==> d[j] == c[if j < p then j else j + 1];
  }

  lemma CutKeeps(c: Chain, p: nat, k: Key)
    requires DistinctKeys(c) && p < |c|
    ensures var d := c[..p] + c[p + 1..];
      k != c[p].key && Pos(c, k) < |c| ==> Pos(d, k) < |d| && d[Pos(d, k)] == c[Pos(c, k)]
  {
    var d := c[..p] + c[p + 1..];
    var q := Pos(c, k);
    if q < |c| && k != c[p].key {
      CutDistinct(c, p);
      var r := if q < p then q else q - 1;
      assert d[r] == c[q];
      PosUnique(d, r);
    }
  }

  // ---------- copying bucket by bucket ----------

  /** Entries copied once the walk has reached position j of bucket i. */
  ghost predicate Before(b: seq<Chain>, k: Key, i: nat, j: nat)
    requires |b| > 0
  {
    var s := Slot(k, |b|); s < i || (s == i && Pos(b[s], k) < j)
  }

  ghost function Part(b: seq<Chain>, i: nat, j: nat): map<Key, Ptr>
    requires |b| > 0
  {
    map k | k in Contents(b) && Before(b, k, i, j) :: Contents(b)[k]
  }

  lemma PartStart(b: seq<Chain>)
    requires |b| > 0
    ensures Part(b, 0, 0) == map[] && Part(b, |b|, 0) == Contents(b)
  {
  }

  lemma PartStep(b: seq<Chain>, i: nat, j: nat)
    requires Formed(b) && i < |b| && j < |b[i]|
    ensures var e := b[i][j]; e.key !in Part(b, i, j) && Part(b, i, j + 1) == Part(b, i, j)[e.key := e.value]
    ensures b[i][j].key in Contents(b)
  {
    var e := b[i][j];
    assert Slot(e.key, |b|) == i by { assert Home(b[i], i, |b|); }
    PosUnique(b[i], j);
    ContentsHas(b, e.key);
    forall k | k in Contents(b) && Before(b, k, i, j + 1) && !Before(b, k, i, j) ensures k == e.key {}
  }

  lemma PartNext(b: seq<Chain>, i: nat)
    requires |b| > 0 && i < |b|
    ensures Part(b, i, |b[i]|) == Part(b, i + 1, 0)
  {
    forall k | k in Contents(b) ensures Before(b, k, i, |b[i]|) <==> Before(b, k, i + 1, 0) { ContentsHas(b, k); }
  }

  lemma EmptyContents(b: seq<Chain>)
    requires |b| > 0 && forall i :: 0 <= i < |b| ==> b[i] == []
    ensures Formed(b) && Contents(b) == map[]
  {
  }

  lemma PartSize(b: seq<Chain>, i: nat, j: nat)
    requires Formed(b) && i < |b| && j < |b[i]|
    ensures |Part(b, i, j)| < |Contents(b)|
  {
    PartStep(b, i, j);
    SubMap(Part(b, i, j), Contents(b), b[i][j].key);
  }

  lemma SubMap(m: map<Key, Ptr>, n: map<Key, Ptr>, k: Key)
    requires m.Keys <= n.Keys && k in n && k !in m
    ensures |m| < |n|
  {
    SubSet(m.Keys, n.Keys - {k});
    assert |m.Keys| == |m| && |n.Keys| == |n|;
  }

  lemma {:induction false} SubSet(a: set<Key>, b: set<Key>)
    requires a <= b
    ensures |a| <= |b|
    decreases a
  {
    if a != {} {
      var x :| x in a;
      SubSet(a - {x}, b - {x});
    }
  }
}
