/** Marking an object graph: what mark_graph paints, when it stops, and that it paints exactly what
    can be reached.

    Objects are named by their address.  Permanent objects keep their mark, so marking cannot tell
    that it has already been at one. */
module Marking {
  import opened Machine

  type Ref = nat

  datatype Mark = Red | Black | Permanent | Dead

  datatype Obj = Obj(mark: Mark, size: nat, fields: seq<Option<Ref>>)

  type Objs = map<Ref, Obj>

  /** `OutOfFuel` when the recursion goes deeper than the fuel, `DeadFound` for the assertion that an
      active object is in the dead list, `Wild` for a pointer to memory that is not an object. */
  datatype Marked = Done(objs: Objs) | OutOfFuel | DeadFound | Wild

  /** mark_object. */
  function Paint(o: Objs, r: Ref, c: Mark): Objs
    requires r in o
  {
    if o[r].mark == Permanent then o else o[r := o[r].(mark := c)]
  }

  /** mark_graph. */
  function MarkOne(fuel: nat, o: Objs, x: Option<Ref>, c: Mark): Marked
    decreases fuel, 0
  {
    if x.None? then Done(o)
    else if x.value !in o then Wild
    else
      var m := o[x.value];
      if m.mark == c then Done(o)
      else if m.mark == Dead then DeadFound
      else if fuel == 0 then OutOfFuel
      else MarkAll(fuel - 1, Paint(o, x.value, c), m.fields, c)
  }

  /** The loops over fields, array cells, roots and lists. */
  function MarkAll(fuel: nat, o: Objs, xs: seq<Option<Ref>>, c: Mark): Marked
    decreases fuel, 1 + |xs|
  {
    if xs == [] then Done(o)
    else match MarkOne(fuel, o, xs[0], c)
      case Done(o1) => MarkAll(fuel, o1, xs[1..], c)
      case r => r
  }

  // ---------- reachability ----------

  ghost predicate IsPath(o: Objs, p: seq<Ref>) {
    && |p| > 0 && (forall i :: 0 <= i < |p| ==> p[i] in o)
    && forall i :: 0 <= i < |p| - 1 ==> Some(p[i + 1]) in o[p[i]].fields
  }

  /** Some chain of pointers leads from one of the starts to r. */
  ghost predicate Reachable(o: Objs, starts: set<Ref>, r: Ref) {
    exists p: seq<Ref> :: IsPath(o, p) && p[0] in starts && p[|p| - 1] == r
  }

  /** A set of objects whose pointers stay in it. */
  ghost predicate ClosedSet(o: Objs, s: set<Ref>) {
    forall r :: r in s ==> r in o && forall i :: 0 <= i < |o[r].fields| ==> In(o[r].fields[i], s)
  }

  predicate In(x: Option<Ref>, s: set<Ref>) { x.None? || x.value in s }

  lemma {:induction false} PathStays(o: Objs, s: set<Ref>, p: seq<Ref>)
    requires ClosedSet(o, s) && IsPath(o, p) && p[0] in s
    ensures p[|p| - 1] in s
    decreases |p|
  {
    if |p| > 1 {
      assert Some(p[1]) in o[p[0]].fields;
      var i :| 0 <= i < |o[p[0]].fields| && o[p[0]].fields[i] == Some(p[1]);
      assert In(o[p[0]].fields[i], s);
      assert IsPath(o, p[1..]) by {
        forall j | 0 <= j < |p| - 2 ensures Some(p[1..][j + 1]) in o[p[1..][j]].fields {
          assert Some(p[(j + 1) + 1]) in o[p[j + 1]].fields;
        }
      }
      PathStays(o, s, p[1..]);
    }
  }

  lemma ReachableStays(o: Objs, s: set<Ref>, starts: set<Ref>, r: Ref)
    requires ClosedSet(o, s) && starts <= s && Reachable(o, starts, r)
    ensures r in s
  {
    var p: seq<Ref> :| IsPath(o, p) && p[0] in starts && p[|p| - 1] == r;
    PathStays(o, s, p);
  }

  /** The reachable objects form a closed set, the least one with the starts. */
  lemma ReachableClosed(o: Objs, s: set<Ref>, starts: set<Ref>) returns (all: set<Ref>)
    requires ClosedSet(o, s) && starts <= s
    ensures forall r :: r in all <==> Reachable(o, starts, r)
    ensures starts <= all <= s && ClosedSet(o, all)
  {
    all := set r | r in s && Reachable(o, starts, r);
    forall r | Reachable(o, starts, r) ensures r in all { ReachableStays(o, s, starts, r); }
    forall r | r in starts ensures r in all {
      assert IsPath(o, [r]) && [r][0] in starts && [r][|[r]| - 1] == r;
    }
    forall r, i | r in all && 0 <= i < |o[r].fields| ensures In(o[r].fields[i], all) {
      if o[r].fields[i].Some? { ReachableStep(o, starts, r, o[r].fields[i].value, s); }
    }
  }

  lemma ReachableStep(o: Objs, starts: set<Ref>, r: Ref, q: Ref, s: set<Ref>)
    requires ClosedSet(o, s) && starts <= s && r in s && Reachable(o, starts, r) && Some(q) in o[r].fields
    ensures Reachable(o, starts, q) && q in s
  {
    var i :| 0 <= i < |o[r].fields| && o[r].fields[i] == Some(q);
    assert In(o[r].fields[i], s);
    var p: seq<Ref> :| IsPath(o, p) && p[0] in starts && p[|p| - 1] == r;
    var p' := p + [q];
    assert IsPath(o, p') by {
      forall j | 0 <= j < |p'| - 1 ensures Some(p'[j + 1]) in o[p'[j]].fields {
        if j < |p| - 1 { assert Some(p[j + 1]) in o[p[j]].fields; }
      }
    }
  }

  // ---------- what marking changes ----------

  /** Only marks of ordinary live objects, and only to the colour. */
  ghost predicate Paints(o: Objs, o': Objs, c: Mark) {
    && o'.Keys == o.Keys
    && forall r :: r in o ==>
         o'[r] == o[r] || (o[r].mark != Permanent && o[r].mark != Dead && o'[r] == o[r].(mark := c))
  }

  ghost predicate Untouched(o: Objs, o': Objs, s: set<Ref>) {
    forall r :: r in o && r !in s ==> r in o' && o'[r] == o[r]
  }

  ghost predicate NoneDead(o: Objs, s: set<Ref>) { forall r :: r in s && r in o ==> o[r].mark != Dead }

  ghost predicate AllIn(xs: seq<Option<Ref>>, s: set<Ref>) { forall i :: 0 <= i < |xs| ==> In(xs[i], s) }

  /** Starting inside a closed set without dead objects, marking meets no dead object and no wild
      pointer, and paints only inside the set. */
  lemma {:induction false} MarkOneWithin(fuel: nat, o: Objs, x: Option<Ref>, c: Mark, s: set<Ref>)
    requires ClosedSet(o, s) && NoneDead(o, s) && In(x, s) && (c == Red || c == Black)
    ensures var m := MarkOne(fuel, o, x, c);
      m.OutOfFuel? || (m.Done? && Paints(o, m.objs, c) && Untouched(o, m.objs, s))
    decreases fuel, 0
  {
    if x.Some? && o[x.value].mark != c && fuel > 0 {
      var r := x.value;
      var o1 := Paint(o, r, c);
      assert Paints(o, o1, c) && Untouched(o, o1, s);
      PaintsClosed(o, o1, c, s);
      assert AllIn(o[r].fields, s);
      MarkAllWithin(fuel - 1, o1, o[r].fields, c, s);
    }
  }

  lemma {:induction false} MarkAllWithin(fuel: nat, o: Objs, xs: seq<Option<Ref>>, c: Mark, s: set<Ref>)
    requires ClosedSet(o, s) && NoneDead(o, s) && AllIn(xs, s) && (c == Red || c == Black)
    ensures var m := MarkAll(fuel, o, xs, c);
      m.OutOfFuel? || (m.Done? && Paints(o, m.objs, c) && Untouched(o, m.objs, s))
    decreases fuel, 1 + |xs|
  {
    if xs != [] {
      MarkOneWithin(fuel, o, xs[0], c, s);
      var m := MarkOne(fuel, o, xs[0], c);
      if m.Done? {
        PaintsClosed(o, m.objs, c, s);
        MarkAllWithin(fuel, m.objs, xs[1..], c, s);
      }
    }
  }

  lemma PaintsClosed(o: Objs, o': Objs, c: Mark, s: set<Ref>)
    requires Paints(o, o', c) && ClosedSet(o, s) && NoneDead(o, s) && (c == Red || c == Black)
    ensures ClosedSet(o', s) && NoneDead(o', s)
  {
  }

  lemma PaintsTrans(o: Objs, o1: Objs, o2: Objs, c: Mark)
    requires Paints(o, o1, c) && Paints(o1, o2, c)
    ensures Paints(o, o2, c)
  {
  }

  // ---------- nothing reachable is missed ----------

  /** Painted, or permanent and so looked at on its own account. */
  ghost predicate Covered(o: Objs, x: Option<Ref>, c: Mark) {
    x.Some? ==> x.value in o && (o[x.value].mark == c || o[x.value].mark == Permanent)
  }

  ghost predicate AllCovered(o: Objs, xs: seq<Option<Ref>>, c: Mark) {
    forall i :: 0 <= i < |xs| ==> Covered(o, xs[i], c)
  }

  /** Painted objects, except those still being worked on, have their pointers covered. */
  ghost predicate Settled(o: Objs, c: Mark, grey: set<Ref>) {
    forall r :: r in o && o[r].mark == c && r !in grey ==> AllCovered(o, o[r].fields, c)
  }

  lemma CoveredMono(o: Objs, o': Objs, xs: seq<Option<Ref>>, c: Mark)
    requires Paints(o, o', c) && AllCovered(o, xs, c)
    ensures AllCovered(o', xs, c)
  {
    forall i | 0 <= i < |xs| ensures Covered(o', xs[i], c) { assert Covered(o, xs[i], c); }
  }

  lemma {:induction false} MarkOneSettles(fuel: nat, o: Objs, x: Option<Ref>, c: Mark, grey: set<Ref>)
    requires Settled(o, c, grey) && MarkOne(fuel, o, x, c).Done? && (c == Red || c == Black)
    ensures var o' := MarkOne(fuel, o, x, c).objs;
      && Paints(o, o', c) && Settled(o', c, grey) && Covered(o', x, c)
      && (x.Some? && o[x.value].mark == Permanent ==> AllCovered(o', o[x.value].fields, c))
    decreases fuel, 0
  {
    if x.Some? && o[x.value].mark != c {
      var r := x.value;
      var o1 := Paint(o, r, c);
      assert Paints(o, o1, c);
      assert Settled(o1, c, grey + {r}) by {
        forall q | q in o1 && o1[q].mark == c && q !in grey + {r} ensures AllCovered(o1, o1[q].fields, c) {
          CoveredMono(o, o1, o[q].fields, c);
        }
      }
      MarkAllSettles(fuel - 1, o1, o[r].fields, c, grey + {r});
      var o' := MarkAll(fuel - 1, o1, o[r].fields, c).objs;
      PaintsTrans(o, o1, o', c);
      assert o'[r].fields == o[r].fields;
    }
  }

  lemma {:induction false} MarkAllSettles(fuel: nat, o: Objs, xs: seq<Option<Ref>>, c: Mark, grey: set<Ref>)
    requires Settled(o, c, grey) && MarkAll(fuel, o, xs, c).Done? && (c == Red || c == Black)
    ensures var o' := MarkAll(fuel, o, xs, c).objs;
      && Paints(o, o', c) && Settled(o', c, grey) && AllCovered(o', xs, c)
      && (forall i :: 0 <= i < |xs| && xs[i].Some? && xs[i].value in o && o[xs[i].value].mark == Permanent
            ==> AllCovered(o', o[xs[i].value].fields, c))
    decreases fuel, 1 + |xs|
  {
    if xs != [] {
      MarkOneSettles(fuel, o, xs[0], c, grey);
      var o1 := MarkOne(fuel, o, xs[0], c).objs;
      MarkAllSettles(fuel, o1, xs[1..], c, grey);
      var o' := MarkAll(fuel, o1, xs[1..], c).objs;
      PaintsTrans(o, o1, o', c);
      CoveredMono(o1, o', [xs[0]], c);
      assert Covered(o', [xs[0]][0], c);
      forall i | 0 <= i < |xs| ensures Covered(o', xs[i], c) { if i > 0 { assert Covered(o', xs[1..][i - 1], c); } }
      forall i | 0 <= i < |xs| && xs[i].Some? && xs[i].value in o && o[xs[i].value].mark == Permanent
        ensures AllCovered(o', o[xs[i].value].fields, c)
      {
        if i == 0 { CoveredMono(o1, o', o[xs[0].value].fields, c); } else { assert xs[1..][i - 1] == xs[i]; }
      }
    }
  }

  // ---------- more fuel changes nothing ----------

  lemma {:induction false} MarkOneFuel(f: nat, g: nat, o: Objs, x: Option<Ref>, c: Mark)
    requires f <= g && !MarkOne(f, o, x, c).OutOfFuel?
    ensures MarkOne(g, o, x, c) == MarkOne(f, o, x, c)
    decreases f, 0
  {
    if x.Some? && x.value in o && o[x.value].mark != c && o[x.value].mark != Dead {
      MarkAllFuel(f - 1, g - 1, Paint(o, x.value, c), o[x.value].fields, c);
    }
  }

  lemma {:induction false} MarkAllFuel(f: nat, g: nat, o: Objs, xs: seq<Option<Ref>>, c: Mark)
    requires f <= g && !MarkAll(f, o, xs, c).OutOfFuel?
    ensures MarkAll(g, o, xs, c) == MarkAll(f, o, xs, c)
    decreases f, 1 + |xs|
  {
    if xs != [] {
      MarkOneFuel(f, g, o, xs[0], c);
      var m := MarkOne(f, o, xs[0], c);
      if m.Done? { MarkAllFuel(f, g, m.objs, xs[1..], c); }
    }
  }

  // ---------- when marking stops ----------

  /** A set of permanent objects each pointing to another of the set: it holds a cycle. */
  ghost predicate PermanentLoop(o: Objs, s: set<Ref>) {
    s != {} && forall r :: r in s ==> r in o && o[r].mark == Permanent && PointsInto(o[r].fields, s)
  }

  ghost predicate PointsInto(xs: seq<Option<Ref>>, s: set<Ref>) {
    exists i :: 0 <= i < |xs| && xs[i].Some? && xs[i].value in s
  }

  /** Marking never gets to the end of a permanent cycle: among objects in use it neither fails an
      assertion nor follows a wild pointer, so it needs more fuel than there ever is. */
  lemma LoopsForEver(fuel: nat, o: Objs, r: Ref, c: Mark, s: set<Ref>, live: set<Ref>)
    requires PermanentLoop(o, s) && r in s && (c == Red || c == Black)
    requires ClosedSet(o, live) && NoneDead(o, live) && r in live
    ensures MarkOne(fuel, o, Some(r), c) == OutOfFuel
  {
    NeverDone(fuel, o, r, c, s);
    MarkOneWithin(fuel, o, Some(r), c, live);
  }

  lemma {:induction false} NeverDone(fuel: nat, o: Objs, r: Ref, c: Mark, s: set<Ref>)
    requires PermanentLoop(o, s) && r in s && (c == Red || c == Black)
    ensures !MarkOne(fuel, o, Some(r), c).Done?
    decreases fuel, 0
  {
    if fuel > 0 {
      assert PointsInto(o[r].fields, s);
      var i :| 0 <= i < |o[r].fields| && o[r].fields[i].Some? && o[r].fields[i].value in s;
      LoopsAll(fuel - 1, o, o[r].fields, i, o[r].fields[i].value, c, s);
    }
  }

  lemma {:induction false} LoopsAll(fuel: nat, o: Objs, xs: seq<Option<Ref>>, i: nat, q: Ref, c: Mark, s: set<Ref>)
    requires PermanentLoop(o, s) && q in s && i < |xs| && xs[i] == Some(q) && (c == Red || c == Black)
    ensures !MarkAll(fuel, o, xs, c).Done?
    decreases fuel, 1 + |xs|
  {
    if i == 0 {
      NeverDone(fuel, o, q, c, s);
    } else if MarkOne(fuel, o, xs[0], c).Done? {
      var o1 := MarkOne(fuel, o, xs[0], c).objs;
      MarkOnePaints(fuel, o, xs[0], c);
      LoopKept(o, o1, c, s);
      LoopsAll(fuel, o1, xs[1..], i - 1, q, c, s);
    }
  }

  lemma LoopKept(o: Objs, o1: Objs, c: Mark, s: set<Ref>)
    requires Paints(o, o1, c) && PermanentLoop(o, s)
    ensures PermanentLoop(o1, s)
  {
    hide PointsInto;
  }

  lemma {:induction false} MarkOnePaints(fuel: nat, o: Objs, x: Option<Ref>, c: Mark)
    requires MarkOne(fuel, o, x, c).Done? && (c == Red || c == Black)
    ensures Paints(o, MarkOne(fuel, o, x, c).objs, c)
    decreases fuel, 0
  {
    if x.Some? && o[x.value].mark != c {
      MarkAllPaints(fuel - 1, Paint(o, x.value, c), o[x.value].fields, c);
    }
  }

  lemma {:induction false} MarkAllPaints(fuel: nat, o: Objs, xs: seq<Option<Ref>>, c: Mark)
    requires MarkAll(fuel, o, xs, c).Done? && (c == Red || c == Black)
    ensures Paints(o, MarkAll(fuel, o, xs, c).objs, c)
    decreases fuel, 1 + |xs|
  {
    if xs != [] {
      MarkOnePaints(fuel, o, xs[0], c);
      var o1 := MarkOne(fuel, o, xs[0], c).objs;
      MarkAllPaints(fuel, o1, xs[1..], c);
      PaintsTrans(o, o1, MarkAll(fuel, o1, xs[1..], c).objs, c);
    }
  }

  /** Permanent objects numbered so that pointers between them go downwards. */
  ghost predicate Ranks(o: Objs, s: set<Ref>, rank: map<Ref, nat>) {
    s <= rank.Keys && forall r, q :: r in s && q in s && r in o && Some(q) in o[r].fields ==> rank[q] < rank[r]
  }

  /** Without a permanent cycle there is such a numbering. */
  lemma {:induction false} NoLoopRanks(o: Objs, s: set<Ref>) returns (rank: map<Ref, nat>)
    requires forall r :: r in s ==> r in o && o[r].mark == Permanent
    requires forall t: set<Ref> :: t <= s ==> !PermanentLoop(o, t)
    ensures Ranks(o, s, rank)
    decreases |s|
  {
    if s == {} {
      rank := map[];
    } else {
      assert !PermanentLoop(o, s);
      var r :| r in s && !PointsInto(o[r].fields, s);
      forall q | q in s ensures Some(q) !in o[r].fields {}
      var lower := NoLoopRanks(o, s - {r});
      rank := map q | q in s :: if q == r then 0 else lower[q] + 1;
    }
  }

  ghost function Plain(o: Objs, c: Mark): set<Ref> {
    set r | r in o && o[r].mark != Permanent && o[r].mark != c
  }

  ghost function Unpainted(o: Objs, c: Mark): nat { |Plain(o, c)| }

  lemma PaintLess(o: Objs, r: Ref, c: Mark)
    requires r in o && o[r].mark != Permanent && o[r].mark != c && (c == Red || c == Black)
    ensures Unpainted(Paint(o, r, c), c) < Unpainted(o, c)
  {
    assert Plain(Paint(o, r, c), c) == Plain(o, c) - {r};
  }

  lemma PaintsLess(o: Objs, o': Objs, c: Mark)
    requires Paints(o, o', c)
    ensures Unpainted(o', c) <= Unpainted(o, c)
  {
    Subset(Plain(o', c), Plain(o, c));
  }

  lemma {:induction false} Subset<T>(b: set<T>, a: set<T>)
    requires b <= a
    ensures |b| <= |a|
    decreases b
  {
    if b != {} {
      var x :| x in b;
      Subset(b - {x}, a - {x});
    }
  }

  ghost predicate Perms(o: Objs, perms: set<Ref>) { forall r :: r in o && o[r].mark == Permanent <==> r in perms }

  ghost function Height(o: Objs, x: Option<Ref>, rank: map<Ref, nat>): nat {
    if x.Some? && x.value in o && o[x.value].mark == Permanent && x.value in rank then rank[x.value] + 1 else 0
  }

  /** With permanent objects ranked, some fuel is enough. */
  lemma {:induction false} MarkOneStops(o: Objs, x: Option<Ref>, c: Mark, perms: set<Ref>, rank: map<Ref, nat>)
    returns (fuel: nat)
    requires Perms(o, perms) && Ranks(o, perms, rank) && (c == Red || c == Black)
    ensures !MarkOne(fuel, o, x, c).OutOfFuel?
    decreases Unpainted(o, c), Height(o, x, rank), 0
  {
    fuel := 0;
    if x.Some? && x.value in o && o[x.value].mark != c && o[x.value].mark != Dead {
      var r := x.value;
      var o1 := Paint(o, r, c);
      var n := o[r].mark == Permanent;
      if !n { PaintLess(o, r, c); }
      assert Ranks(o1, perms, rank);
      var f := MarkAllStops(o1, o[r].fields, c, perms, rank, if n then rank[r] else MaxRank(rank) );
      fuel := f + 1;
    }
  }

  ghost function MaxRank(rank: map<Ref, nat>): (m: nat)
    ensures forall r :: r in rank ==> rank[r] < m
    decreases |rank|
  {
    if rank == map[] then 0
    else
      var r :| r in rank;
      var m := MaxRank(rank - {r});
      assert forall q :: q in rank ==> q == r || q in rank - {r};
      if rank[r] < m then m else rank[r] + 1
  }

  ghost predicate Below(o: Objs, xs: seq<Option<Ref>>, rank: map<Ref, nat>, top: nat) {
    forall i :: 0 <= i < |xs| ==> Height(o, xs[i], rank) <= top
  }

  lemma {:induction false} MarkAllStops(o: Objs, xs: seq<Option<Ref>>, c: Mark, perms: set<Ref>, rank: map<Ref, nat>,
                                        top: nat) returns (fuel: nat)
    requires Perms(o, perms) && Ranks(o, perms, rank) && Below(o, xs, rank, top) && (c == Red || c == Black)
    ensures !MarkAll(fuel, o, xs, c).OutOfFuel?
    decreases Unpainted(o, c), top, 1 + |xs|
  {
    fuel := 0;
    if xs != [] {
      assert Height(o, xs[0], rank) <= top;
      var f := MarkOneStops(o, xs[0], c, perms, rank);
      fuel := f;
      var m := MarkOne(f, o, xs[0], c);
      if m.Done? {
        MarkOnePaints(f, o, xs[0], c);
        PaintsLess(o, m.objs, c);
        assert Below(m.objs, xs[1..], rank, top) by {
          forall i | 0 <= i < |xs| - 1 ensures Height(m.objs, xs[1..][i], rank) <= top {
            assert Height(o, xs[i + 1], rank) <= top;
          }
        }
        var g := MarkAllStops(m.objs, xs[1..], c, perms, rank, top);
        fuel := if f < g then g else f;
        MarkOneFuel(f, fuel, o, xs[0], c);
        MarkAllFuel(g, fuel, m.objs, xs[1..], c);
      }
    }
  }
}
