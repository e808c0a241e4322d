/** core-vector-copier: copying between vectors that may be the same one. */
module VectorCopy {

  /** What a copy of from[start..end] to position `at` leaves in the target; nothing moves when the
      range is empty or backwards. */
  function Copied<T>(to: seq<T>, at: nat, from: seq<T>, start: nat, end: nat): seq<T>
    requires end <= |from| && (start <= end ==> at + (end - start) <= |to|)
  {
    if start < end then to[..at] + from[start..end] + to[at + (end - start)..] else to
  }

  /** The element loop runs upwards when the source starts above the target position and downwards
      otherwise, so an element is always read before it is overwritten. */
  method CopyElements<T>(to: array<T>, at: nat, from: array<T>, start: nat, end: nat)
    requires end <= from.Length && (start <= end ==> at + (end - start) <= to.Length)
    modifies to
    ensures to[..] == Copied(old(to[..]), at, old(from[..]), start, end)
  {
    var count := end - start;
    if start > at {
      Upwards(to, at, from, start, count);
    } else {
      Downwards(to, at, from, start, count);
    }
    CopiedIs(to[..], old(to[..]), at, old(from[..]), start, end);
  }

  lemma CopiedIs<T>(r: seq<T>, to: seq<T>, at: nat, from: seq<T>, start: nat, end: nat)
    requires end <= |from| && (start <= end ==> at + (end - start) <= |to|) && |r| == |to|
    requires forall i :: 0 <= i < |to| ==> r[i] == if at <= i < at + (end - start) then from[start + i - at] else to[i]
    ensures r == Copied(to, at, from, start, end)
  {
  }

  method Upwards<T>(to: array<T>, at: nat, from: array<T>, start: nat, count: int)
    requires count > 0 ==> start + count <= from.Length && at + count <= to.Length
    requires start > at
    modifies to
    ensures forall i :: 0 <= i < to.Length ==>
      to[i] == if at <= i < at + count then old(from[start + i - at]) else old(to[i])
  {
    var a, s, num := at, start, count - 1;
    while num >= 0
      invariant count > 0 ==> -1 <= num < count && a == at + (count - 1 - num) && s == start + (count - 1 - num)
      invariant count <= 0 ==> a == at && num < 0
      invariant forall i :: 0 <= i < to.Length ==>
        to[i] == if at <= i < a then old(from[start + i - at]) else old(to[i])
      decreases num
    {
      to[a] := from[s];
      a, s, num := a + 1, s + 1, num - 1;
    }
  }

  method Downwards<T>(to: array<T>, at: nat, from: array<T>, start: nat, count: int)
    requires count > 0 ==> start + count <= from.Length && at + count <= to.Length
    requires start <= at
    modifies to
    ensures forall i :: 0 <= i < to.Length ==>
      to[i] == if at <= i < at + count then old(from[start + i - at]) else old(to[i])
  {
    var num := count - 1;
    var a, s := at + num, start + num;
    while num >= 0
      invariant a == at + num && s == start + num && num < count && (count > 0 ==> -1 <= num)
      invariant forall i :: 0 <= i < to.Length ==>
        to[i] == if at + num < i < at + count && at <= i then old(from[start + i - at]) else old(to[i])
      decreases num
    {
      to[a] := from[s];
      a, s, num := a - 1, s - 1, num - 1;
    }
  }

  // ---------- the other direction ----------

  /** Copying n elements upwards within one vector, one at a time. */
  function UpCopy<T>(v: seq<T>, at: nat, start: nat, n: nat): (r: seq<T>)
    requires start + n <= |v| && at + n <= |v|
    ensures |r| == |v|
  {
    if n == 0 then v else var w := UpCopy(v, at, start, n - 1); w[at + n - 1 := w[start + n - 1]]
  }

  /** The last m of n elements copied downwards. */
  function DownCopy<T>(v: seq<T>, at: nat, start: nat, n: nat, m: nat): (r: seq<T>)
    requires start + n <= |v| && at + n <= |v| && m <= n
    ensures |r| == |v|
  {
    if m == 0 then v else var w := DownCopy(v, at, start, n, m - 1); w[at + n - m := w[start + n - m]]
  }

  /** The n elements from start on repeat every d places. */
  ghost predicate Periodic<T(!new)>(v: seq<T>, start: nat, n: nat, d: nat)
    requires start + n <= |v|
  {
    forall i :: 0 <= i < n - d ==> Echo(v, start, d, i)
  }

  ghost predicate Echo<T(!new)>(v: seq<T>, start: nat, d: nat, i: int)
    requires 0 <= i && start + i + d < |v|
  {
    v[start + i] == v[start + i + d]
  }

  /** What the upward copy puts in place i when the target is d places further up. */
  function UpAt<T>(v: seq<T>, start: nat, d: nat, i: nat): T
    requires d > 0 && start + i < |v|
  {
    if i < d then v[start + i] else UpAt(v, start, d, i - d)
  }

  lemma {:induction false} UpCopyAt<T(!new)>(v: seq<T>, at: nat, start: nat, n: nat)
    requires start < at && at + n <= |v|
    ensures forall j :: 0 <= j < |v| ==>
      UpCopy(v, at, start, n)[j] == if at <= j < at + n then UpAt(v, start, at - start, j - at) else v[j]
    decreases n
  {
    if n > 0 { UpCopyAt(v, at, start, n - 1); }
  }

  lemma {:induction false} UpAtPeriodic<T(!new)>(v: seq<T>, start: nat, n: nat, d: nat, i: nat)
    requires d > 0 && start + n <= |v| && i < n && Periodic(v, start, n, d)
    ensures UpAt(v, start, d, i) == v[start + i]
    decreases i
  {
    if i >= d {
      UpAtPeriodic(v, start, n, d, i - d);
      assert Echo(v, start, d, i - d);
    }
  }

  /** Where the copier goes downwards, going upwards would give the same if and only if the source
      range repeats with the distance of the two ranges; so, for ranges that do not overlap, always. */
  lemma UpwardsWrong<T(!new)>(v: seq<T>, at: nat, start: nat, n: nat)
    requires start < at && at + n <= |v|
    ensures UpCopy(v, at, start, n) == Copied(v, at, v, start, start + n) <==> Periodic(v, start, n, at - start)
  {
    if Periodic(v, start, n, at - start) { UpSame(v, at, start, n); }
    if UpCopy(v, at, start, n) == Copied(v, at, v, start, start + n) {
      var d := at - start;
      forall i | 0 <= i < n - d ensures Echo(v, start, d, i) { UpEcho(v, at, start, n, i); }
    }
  }

  lemma UpSame<T(!new)>(v: seq<T>, at: nat, start: nat, n: nat)
    requires start < at && at + n <= |v| && Periodic(v, start, n, at - start)
    ensures UpCopy(v, at, start, n) == Copied(v, at, v, start, start + n)
  {
    var r, c := UpCopy(v, at, start, n), Copied(v, at, v, start, start + n);
    UpCopyAt(v, at, start, n);
    CopiedAt(v, at, start, n);
    hide UpCopy, Copied;
    forall j | 0 <= j < |v| ensures r[j] == c[j] {
      if at <= j < at + n { UpAtPeriodic(v, start, n, at - start, j - at); }
    }
  }

  lemma UpEcho<T(!new)>(v: seq<T>, at: nat, start: nat, n: nat, i: nat)
    requires start < at && at + n <= |v| && i + (at - start) < n
      && UpCopy(v, at, start, n) == Copied(v, at, v, start, start + n)
    ensures Echo(v, start, at - start, i)
  {
    var d := at - start;
    var r, c := UpCopy(v, at, start, n), Copied(v, at, v, start, start + n);
    UpCopyAt(v, at, start, n);
    CopiedAt(v, at, start, n);
    hide UpCopy, Copied;
    assert r[at + i] == UpAt(v, start, d, i) && r[at + (i + d)] == UpAt(v, start, d, i + d);
    assert c[at + i] == v[start + i] && c[at + (i + d)] == v[start + (i + d)];
  }

  lemma CopiedAt<T>(v: seq<T>, at: nat, start: nat, n: nat)
    requires start + n <= |v| && at + n <= |v|
    ensures |Copied(v, at, v, start, start + n)| == |v|
    ensures forall j :: 0 <= j < |v| ==>
      Copied(v, at, v, start, start + n)[j] == if at <= j < at + n then v[start + j - at] else v[j]
  {
  }

  /** What the downward copy puts in place i when the target is d places further down. */
  function DownAt<T>(v: seq<T>, start: nat, n: nat, d: nat, i: nat): T
    requires d > 0 && start + n <= |v| && i < n
    decreases n - i
  {
    if i + d >= n then v[start + i] else DownAt(v, start, n, d, i + d)
  }

  lemma {:induction false} DownCopyAt<T(!new)>(v: seq<T>, at: nat, start: nat, n: nat, m: nat)
    requires at < start && start + n <= |v| && m <= n
    ensures forall j :: 0 <= j < |v| ==>
      DownCopy(v, at, start, n, m)[j]
        == if at + n - m <= j < at + n then DownAt(v, start, n, start - at, j - at) else v[j]
    decreases m
  {
    if m > 0 { DownCopyAt(v, at, start, n, m - 1); }
  }

  lemma {:induction false} DownAtPeriodic<T(!new)>(v: seq<T>, start: nat, n: nat, d: nat, i: nat)
    requires d > 0 && start + n <= |v| && i < n && Periodic(v, start, n, d)
    ensures DownAt(v, start, n, d, i) == v[start + i]
    decreases n - i
  {
    if i + d < n {
      DownAtPeriodic(v, start, n, d, i + d);
      assert Echo(v, start, d, i);
    }
  }

  /** Where the copier goes upwards, the same of going downwards. */
  lemma DownwardsWrong<T(!new)>(v: seq<T>, at: nat, start: nat, n: nat)
    requires at < start && start + n <= |v|
    ensures DownCopy(v, at, start, n, n) == Copied(v, at, v, start, start + n) <==> Periodic(v, start, n, start - at)
  {
    if Periodic(v, start, n, start - at) { DownSame(v, at, start, n); }
    if DownCopy(v, at, start, n, n) == Copied(v, at, v, start, start + n) {
      var d := start - at;
      forall i | 0 <= i < n - d ensures Echo(v, start, d, i) { DownEcho(v, at, start, n, i); }
    }
  }

  lemma DownSame<T(!new)>(v: seq<T>, at: nat, start: nat, n: nat)
    requires at < start && start + n <= |v| && Periodic(v, start, n, start - at)
    ensures DownCopy(v, at, start, n, n) == Copied(v, at, v, start, start + n)
  {
    var r, c := DownCopy(v, at, start, n, n), Copied(v, at, v, start, start + n);
    DownCopyAt(v, at, start, n, n);
    CopiedAt(v, at, start, n);
    hide DownCopy, Copied;
    forall j | 0 <= j < |v| ensures r[j] == c[j] {
      if at <= j < at + n { DownAtPeriodic(v, start, n, start - at, j - at); }
    }
  }

  lemma DownEcho<T(!new)>(v: seq<T>, at: nat, start: nat, n: nat, i: nat)
    requires at < start && start + n <= |v| && i + (start - at) < n
      && DownCopy(v, at, start, n, n) == Copied(v, at, v, start, start + n)
    ensures Echo(v, start, start - at, i)
  {
    var d := start - at;
    var r, c := DownCopy(v, at, start, n, n), Copied(v, at, v, start, start + n);
    DownCopyAt(v, at, start, n, n);
    CopiedAt(v, at, start, n);
    hide DownCopy, Copied;
    assert r[at + i] == DownAt(v, start, n, d, i) && r[at + (i + d)] == DownAt(v, start, n, d, i + d);
    assert c[at + i] == v[start + i] && c[at + (i + d)] == v[start + (i + d)];
  }

  /** Every overlap: the direction the copier does not take gives the right result if and only if
      the source range repeats with the distance of the two ranges. */
  lemma DirectionMatters<T(!new)>(v: seq<T>, at: nat, start: nat, n: nat)
    requires start + n <= |v| && at + n <= |v|
    ensures start < at ==>
      (UpCopy(v, at, start, n) == Copied(v, at, v, start, start + n) <==> Periodic(v, start, n, at - start))
    ensures at < start ==>
      (DownCopy(v, at, start, n, n) == Copied(v, at, v, start, start + n) <==> Periodic(v, start, n, start - at))
  {
    hide UpCopy, DownCopy, Copied, Periodic;
    if start < at { UpwardsWrong(v, at, start, n); }
    if at < start { DownwardsWrong(v, at, start, n); }
  }
}
