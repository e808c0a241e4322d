/** The mark/sweep heap: its three lists, sweeping, allocation and their mutual recursion.

    `pick` stands for the C allocator: given the addresses in use it returns one that is not.
    `fuel` bounds the recursion of marking; `nest` bounds how often a sweep may start another one
    through pre_alloc.  Both are only there to make the functions total: theorems quantify over
    them or show that a fixed value always suffices. */
module Heaps {
  import opened Machine
  import opened Marking

  type Slot = nat

  datatype Heap = Heap(objs: Objs, active: seq<Ref>, dead: seq<Ref>, perm: seq<Ref>,
                       roots: seq<Slot>, slots: map<Slot, Option<Ref>>, protect: nat, mark: Mark, cell: nat)

  /** `Loops` when marking needs more fuel, `Assertion` for a failed assertion of the collector,
      `WildPointer` for marking through freed memory, `TooDeep` when sweeps nest beyond `nest`. */
  datatype Result = Ok(h: Heap) | Loops | Assertion | WildPointer | TooDeep

  type Supply = set<Ref> -> Ref

  ghost predicate Fresh(pick: Supply) { forall s: set<Ref> :: pick(s) !in s }

  const PRE_ALLOC: nat := 1000

  function Flip(c: Mark): Mark { if c == Red then Black else Red }

  function SlotValue(slots: map<Slot, Option<Ref>>, s: Slot): Option<Ref> {
    if s in slots then slots[s] else None
  }

  function RootRefs(h: Heap): seq<Option<Ref>> {
    seq(|h.roots|, i requires 0 <= i < |h.roots| => SlotValue(h.slots, h.roots[i]))
  }

  function Somes(xs: seq<Ref>): seq<Option<Ref>> {
    seq(|xs|, i requires 0 <= i < |xs| => Some(xs[i]))
  }

  // ---------- sweeping ----------

  datatype Swept = Swept(active: seq<Ref>, dead: seq<Ref>, objs: Objs)

  function SweepOne(r: Ref, acc: Swept, c: Mark, cell: nat): Swept {
    if r !in acc.objs then acc
    else if acc.objs[r].mark == c then acc.(active := [r] + acc.active)
    else if acc.objs[r].size == cell then
      acc.(dead := [r] + acc.dead, objs := acc.objs[r := acc.objs[r].(mark := Dead)])
    else acc.(objs := acc.objs - {r})
  }

  /** sweep_list. */
  function SweepList(todo: seq<Ref>, acc: Swept, c: Mark, cell: nat): Swept {
    if todo == [] then acc else SweepList(todo[1..], SweepOne(todo[0], acc, c, cell), c, cell)
  }

  function OfMarked(m: Marked): Result
    requires !m.Done?
  {
    match m
    case OutOfFuel => Loops
    case DeadFound => Assertion
    case _ => WildPointer
  }

  function MarkPhase(fuel: nat, h: Heap, c: Mark): Marked {
    match MarkAll(fuel, h.objs, Somes(h.perm), c)
    case Done(o1) => MarkAll(fuel, o1, RootRefs(h), c)
    case m => m
  }

  /** A sweep up to the test for an empty dead list. */
  function SweepCore(fuel: nat, h: Heap): Result {
    var c := Flip(h.mark);
    match MarkPhase(fuel, h, c)
    case Done(o) =>
      var s := SweepList(h.active, Swept([], h.dead, o), c, h.cell);
      Ok(h.(objs := s.objs, active := s.active, dead := s.dead, mark := c))
    case m => OfMarked(m)
  }

  /** sweep. */
  function Sweep(nest: nat, fuel: nat, h: Heap, pick: Supply): Result
    decreases nest, 0, 0
  {
    if h.protect > 0 then Ok(h)
    else match SweepCore(fuel, h)
      case Ok(h1) => if h1.dead != [] then Ok(h1) else if nest == 0 then TooDeep else PreAlloc(nest - 1, fuel, h1, pick)
      case r => r
  }

  // ---------- allocation ----------

  /** The end of internal_alloc: recycle or allocate, then link. */
  function Take(h: Heap, perm: bool, size: nat, fields: nat, pick: Supply): Heap {
    var reuse := size == h.cell && h.dead != [];
    var r := if reuse then h.dead[0] else pick(h.objs.Keys);
    var o := Obj(if perm then Permanent else h.mark, size, seq(fields, _ => None));
    h.(objs := h.objs[r := o], dead := if reuse then h.dead[1..] else h.dead,
       active := if perm then h.active else [r] + h.active, perm := if perm then [r] + h.perm else h.perm)
  }

  /** internal_alloc; the new object heads the active or the permanent list. */
  function Alloc(nest: nat, fuel: nat, h: Heap, perm: bool, size: nat, fields: nat, pick: Supply): Result
    decreases nest, 1, 0
  {
    if size == h.cell && h.dead == [] then
      match Sweep(nest, fuel, h, pick)
      case Ok(h1) => Ok(Take(h1, perm, size, fields, pick))
      case r => r
    else Ok(Take(h, perm, size, fields, pick))
  }

  function AllocMany(n: nat, nest: nat, fuel: nat, h: Heap, pick: Supply): Result
    decreases nest, 2, n
  {
    if n == 0 then Ok(h)
    else match Alloc(nest, fuel, h, false, h.cell, 0, pick)
      case Ok(h1) => AllocMany(n - 1, nest, fuel, h1, pick)
      case r => r
  }

  /** gc_unprotect. */
  function Unprotect(nest: nat, fuel: nat, h: Heap, pick: Supply): Result
    decreases nest, 1, 0
  {
    if h.protect == 0 then Assertion
    else
      var h1 := h.(protect := h.protect - 1);
      if h1.protect == 0 && h1.dead == [] then Sweep(nest, fuel, h1, pick) else Ok(h1)
  }

  function PreAlloc(nest: nat, fuel: nat, h: Heap, pick: Supply): Result
    decreases nest, 3, 0
  {
    match AllocMany(PRE_ALLOC, nest, fuel, h.(protect := h.protect + 1), pick)
    case Ok(h1) =>
      (match Unprotect(nest, fuel, h1, pick)
       case Ok(h2) => Sweep(nest, fuel, h2, pick)
       case r => r)
    case r => r
  }

  // ---------- the invariant ----------

  ghost predicate Distinct(xs: seq<Ref>) { forall i, j :: 0 <= i < j < |xs| ==> xs[i] != xs[j] }

  ghost predicate Apart(xs: seq<Ref>, ys: seq<Ref>) { forall r :: r in xs ==> r !in ys }

  ghost function Live(h: Heap): set<Ref> { (set r | r in h.active) + (set r | r in h.perm) }

  /** No list has an object twice, no two lists share one, and every object is on one of them. */
  ghost predicate Lists(h: Heap) {
    && Distinct(h.active) && Distinct(h.dead) && Distinct(h.perm)
    && Apart(h.active, h.dead) && Apart(h.active, h.perm) && Apart(h.dead, h.perm)
    && forall r :: r in h.objs <==> r in h.active || r in h.dead || r in h.perm
  }

  ghost predicate Marks(h: Heap) {
    && (h.mark == Red || h.mark == Black)
    && (forall r :: r in h.active && r in h.objs ==> h.objs[r].mark == h.mark)
    && (forall r :: r in h.dead && r in h.objs ==> h.objs[r].mark == Dead && h.objs[r].size == h.cell)
    && (forall r :: r in h.perm && r in h.objs ==> h.objs[r].mark == Permanent)
  }

  /** Objects in use and registered roots point to objects in use. */
  ghost predicate Pointers(h: Heap) {
    ClosedSet(h.objs, Live(h)) && AllIn(RootRefs(h), Live(h))
  }

  ghost predicate Inv(h: Heap) { Lists(h) && Marks(h) && Pointers(h) }

  /** Where marking starts. */
  ghost function Starts(h: Heap): set<Ref> {
    (set r | r in h.perm) + (set s | s in h.roots && SlotValue(h.slots, s).Some? :: SlotValue(h.slots, s).value)
  }

  ghost predicate Used(h: Heap, r: Ref) { Reachable(h.objs, Starts(h), r) }

  lemma StartsLive(h: Heap)
    requires Inv(h)
    ensures Starts(h) <= Live(h) && forall i :: 0 <= i < |RootRefs(h)| ==> In(RootRefs(h)[i], Starts(h))
  {
    forall s | s in h.roots && SlotValue(h.slots, s).Some? ensures SlotValue(h.slots, s).value in Live(h) {
      var i :| 0 <= i < |h.roots| && h.roots[i] == s;
      assert In(RootRefs(h)[i], Live(h));
    }
  }

  // ---------- the marking phase paints exactly what is used ----------

  /** Marking inside any closed set that holds the starts. */
  lemma PhaseWithin(fuel: nat, h: Heap, s: set<Ref>)
    requires Inv(h) && ClosedSet(h.objs, s) && Starts(h) <= s <= Live(h)
    ensures var m := MarkPhase(fuel, h, Flip(h.mark));
      m.OutOfFuel? || (m.Done? && Paints(h.objs, m.objs, Flip(h.mark)) && Untouched(h.objs, m.objs, s))
  {
    var c := Flip(h.mark);
    StartsLive(h);
    assert NoneDead(h.objs, s);
    MarkAllWithin(fuel, h.objs, Somes(h.perm), c, s);
    var m := MarkAll(fuel, h.objs, Somes(h.perm), c);
    if m.Done? {
      PaintsClosed(h.objs, m.objs, c, s);
      MarkAllWithin(fuel, m.objs, RootRefs(h), c, s);
      var m2 := MarkAll(fuel, m.objs, RootRefs(h), c);
      if m2.Done? { PaintsTrans(h.objs, m.objs, m2.objs, c); }
    }
  }

  /** After marking, what is painted or permanent is closed and holds the starts. */
  lemma PhaseCovers(fuel: nat, h: Heap, o: Objs) returns (s: set<Ref>)
    requires Inv(h) && MarkPhase(fuel, h, Flip(h.mark)) == Done(o) && Paints(h.objs, o, Flip(h.mark))
    ensures forall r :: r in s <==> r in o && (o[r].mark == Flip(h.mark) || o[r].mark == Permanent)
    ensures ClosedSet(h.objs, s) && Starts(h) <= s
  {
    var c := Flip(h.mark);
    var o1 := MarkAll(fuel, h.objs, Somes(h.perm), c).objs;
    StartSettled(h, c);
    hide MarkAll, Covered, AllCovered, Settled;
    MarkAllSettles(fuel, h.objs, Somes(h.perm), c, {});
    MarkAllSettles(fuel, o1, RootRefs(h), c, {});
    s := set r | r in o && (o[r].mark == c || o[r].mark == Permanent);
    forall r | r in s ensures r in h.objs && AllCovered(o, h.objs[r].fields, c) {
      if o[r].mark == Permanent {
        PermanentCovered(h, o1, c, r);
        CoveredMono(o1, o, h.objs[r].fields, c);
      } else {
        SettledAt(o, c, r);
        assert o[r].fields == h.objs[r].fields;
      }
    }
    CoveredClosed(h.objs, o, c, s);
    PhaseStarts(h, o, c, s);
  }

  lemma StartSettled(h: Heap, c: Mark)
    requires Inv(h) && c == Flip(h.mark)
    ensures Settled(h.objs, c, {})
  {
    hide Pointers, AllCovered;
  }

  lemma SettledAt(o: Objs, c: Mark, r: Ref)
    requires Settled(o, c, {}) && r in o && o[r].mark == c
    ensures AllCovered(o, o[r].fields, c)
  {
  }

  lemma PermanentCovered(h: Heap, o1: Objs, c: Mark, r: Ref)
    requires Inv(h) && r in h.objs && h.objs[r].mark == Permanent
    requires forall i :: (0 <= i < |Somes(h.perm)| && Somes(h.perm)[i].Some? && Somes(h.perm)[i].value in h.objs
      && h.objs[Somes(h.perm)[i].value].mark == Permanent) ==> AllCovered(o1, h.objs[Somes(h.perm)[i].value].fields, c)
    ensures AllCovered(o1, h.objs[r].fields, c)
  {
    hide Pointers, AllCovered;
    var i :| 0 <= i < |h.perm| && h.perm[i] == r;
    assert Somes(h.perm)[i] == Some(r);
  }

  lemma CoveredClosed(o0: Objs, o: Objs, c: Mark, s: set<Ref>)
    requires forall r :: r in s <==> r in o && (o[r].mark == c || o[r].mark == Permanent)
    requires forall r :: r in s ==> r in o0 && AllCovered(o, o0[r].fields, c)
    ensures ClosedSet(o0, s)
  {
    forall r, i | r in s && 0 <= i < |o0[r].fields| ensures In(o0[r].fields[i], s) {
      assert Covered(o, o0[r].fields[i], c);
    }
  }

  lemma PhaseStarts(h: Heap, o: Objs, c: Mark, s: set<Ref>)
    requires Inv(h) && o.Keys == h.objs.Keys && AllCovered(o, RootRefs(h), c) && Paints(h.objs, o, c)
    requires forall r :: r in s <==> r in o && (o[r].mark == c || o[r].mark == Permanent)
    ensures Starts(h) <= s
  {
    forall r | r in Starts(h) ensures r in s {
      if r !in h.perm {
        var t :| t in h.roots && SlotValue(h.slots, t) == Some(r);
        var i :| 0 <= i < |h.roots| && h.roots[i] == t;
        assert Covered(o, RootRefs(h)[i], c);
      }
    }
  }

  /** The painted objects are the ordinary ones that are used. */
  lemma PhaseExact(fuel: nat, h: Heap)
    requires Inv(h)
    ensures var m := MarkPhase(fuel, h, Flip(h.mark));
      m.OutOfFuel? || (m.Done? && Paints(h.objs, m.objs, Flip(h.mark))
        && forall r :: r in h.active ==> (m.objs[r].mark == Flip(h.mark) <==> Used(h, r)))
  {
    var c := Flip(h.mark);
    StartsLive(h);
    var all := ReachableClosed(h.objs, Live(h), Starts(h));
    PhaseWithin(fuel, h, all);
    var m := MarkPhase(fuel, h, c);
    if m.Done? {
      var s := PhaseCovers(fuel, h, m.objs);
      forall r | r in h.active ensures m.objs[r].mark == c <==> Used(h, r) {
        assert h.objs[r].mark == h.mark != c;
        if r in all { ReachableStays(h.objs, s, Starts(h), r); }
      }
    }
  }

  // ---------- sweep_list ----------

  ghost predicate Sweepable(todo: seq<Ref>, acc: Swept) {
    && Distinct(todo) && Distinct(acc.active) && Distinct(acc.dead)
    && Apart(todo, acc.active) && Apart(todo, acc.dead) && (forall r :: r in todo ==> r in acc.objs)
  }

  predicate Keep(o: Obj, c: Mark) { o.mark == c }
  predicate Recycle(o: Obj, c: Mark, cell: nat) { o.mark != c && o.size == cell }
  predicate Free(o: Obj, c: Mark, cell: nat) { o.mark != c && o.size != cell }

  ghost predicate SplitActive(todo: seq<Ref>, acc: Swept, out: seq<Ref>, c: Mark) {
    Distinct(out) && forall r :: r in out <==> r in acc.active || (r in todo && r in acc.objs && Keep(acc.objs[r], c))
  }

  ghost predicate SplitDead(todo: seq<Ref>, acc: Swept, out: seq<Ref>, c: Mark, cell: nat) {
    Distinct(out)
      && forall r :: r in out <==> r in acc.dead || (r in todo && r in acc.objs && Recycle(acc.objs[r], c, cell))
  }

  ghost predicate SplitObjs(todo: seq<Ref>, acc: Swept, out: Objs, c: Mark, cell: nat) {
    && (forall r :: r in out <==> r in acc.objs && !(r in todo && Free(acc.objs[r], c, cell)))
    && (forall r :: r in out && r in acc.objs ==>
          out[r] == if r in todo && !Keep(acc.objs[r], c) then acc.objs[r].(mark := Dead) else acc.objs[r])
  }

  ghost predicate Splits(todo: seq<Ref>, acc: Swept, out: Swept, c: Mark, cell: nat) {
    SplitActive(todo, acc, out.active, c) && SplitDead(todo, acc, out.dead, c, cell)
      && SplitObjs(todo, acc, out.objs, c, cell)
  }

  /** Every object of the active list stays, is recycled, or is freed, by its mark and size. */
  lemma {:induction false} SweepListSplits(todo: seq<Ref>, acc: Swept, c: Mark, cell: nat)
    requires Sweepable(todo, acc) && c != Dead
    ensures Splits(todo, acc, SweepList(todo, acc, c, cell), c, cell)
    decreases |todo|
  {
    if todo != [] {
      var r := todo[0];
      var acc1 := SweepOne(r, acc, c, cell);
      assert todo == [r] + todo[1..];
      assert r !in todo[1..];
      hide SweepList;
      SweepOneSplits(todo, acc, c, cell);
      SweepListSplits(todo[1..], acc1, c, cell);
      SplitsStep(todo, acc, acc1, SweepList(todo[1..], acc1, c, cell), c, cell);
      SweepListUnfold(todo, acc, c, cell);
    }
  }

  lemma SweepListUnfold(todo: seq<Ref>, acc: Swept, c: Mark, cell: nat)
    requires todo != []
    ensures SweepList(todo, acc, c, cell) == SweepList(todo[1..], SweepOne(todo[0], acc, c, cell), c, cell)
  {
  }

  lemma SweepOneSplits(todo: seq<Ref>, acc: Swept, c: Mark, cell: nat)
    requires todo != [] && Sweepable(todo, acc) && todo[0] !in todo[1..]
    ensures Sweepable(todo[1..], SweepOne(todo[0], acc, c, cell))
  {
    var r, acc1 := todo[0], SweepOne(todo[0], acc, c, cell);
    assert forall q :: q in todo[1..] ==> q in todo;
    DistinctTail(todo);
    DistinctCons(r, acc.active);
    DistinctCons(r, acc.dead);
    assert acc1.active == acc.active || acc1.active == [r] + acc.active;
    assert acc1.dead == acc.dead || acc1.dead == [r] + acc.dead;
    hide Distinct;
  }

  lemma DistinctCons(r: Ref, xs: seq<Ref>)
    requires Distinct(xs) && r !in xs
    ensures Distinct([r] + xs)
  {
    var ys := [r] + xs;
    forall i, j | 0 <= i < j < |ys| ensures ys[i] != ys[j] {
      assert ys[j] == xs[j - 1];
      if i > 0 { assert ys[i] == xs[i - 1]; }
    }
  }

  lemma DistinctTail(xs: seq<Ref>)
    requires Distinct(xs) && xs != []
    ensures Distinct(xs[1..])
  {
  }

  lemma SplitsStep(todo: seq<Ref>, acc: Swept, acc1: Swept, out: Swept, c: Mark, cell: nat)
    requires todo != [] && Sweepable(todo, acc) && todo[0] !in todo[1..] && acc1 == SweepOne(todo[0], acc, c, cell)
    requires Splits(todo[1..], acc1, out, c, cell)
    ensures Splits(todo, acc, out, c, cell)
  {
    hide Splits, SplitActive, SplitDead, SplitObjs;
    var r := todo[0];
    assert forall q :: q in todo <==> q == r || q in todo[1..];
    assert SplitActive(todo, acc, out.active, c) by { ActiveStep(todo, acc, acc1, out, c, cell); }
    assert SplitDead(todo, acc, out.dead, c, cell) by { DeadStep(todo, acc, acc1, out, c, cell); }
    assert SplitObjs(todo, acc, out.objs, c, cell) by { ObjsStep(todo, acc, acc1, out, c, cell); }
    assert Splits(todo, acc, out, c, cell) by { SplitsAll(todo, acc, out, c, cell); }
  }

  lemma SplitsAll(todo: seq<Ref>, acc: Swept, out: Swept, c: Mark, cell: nat)
    requires SplitActive(todo, acc, out.active, c) && SplitDead(todo, acc, out.dead, c, cell)
      && SplitObjs(todo, acc, out.objs, c, cell)
    ensures Splits(todo, acc, out, c, cell)
  {
    hide SplitActive, SplitDead, SplitObjs;
  }

  lemma ActiveStep(todo: seq<Ref>, acc: Swept, acc1: Swept, out: Swept, c: Mark, cell: nat)
    requires todo != [] && todo[0] in acc.objs && todo[0] !in todo[1..] && acc1 == SweepOne(todo[0], acc, c, cell)
    requires (forall q :: q in todo <==> q == todo[0] || q in todo[1..]) && Splits(todo[1..], acc1, out, c, cell)
    ensures SplitActive(todo, acc, out.active, c)
  {
    hide Distinct, SplitDead, SplitObjs;
    assert acc1.active == acc.active || acc1.active == [todo[0]] + acc.active;
  }

  lemma DeadStep(todo: seq<Ref>, acc: Swept, acc1: Swept, out: Swept, c: Mark, cell: nat)
    requires todo != [] && todo[0] in acc.objs && todo[0] !in todo[1..] && acc1 == SweepOne(todo[0], acc, c, cell)
    requires (forall q :: q in todo <==> q == todo[0] || q in todo[1..]) && Splits(todo[1..], acc1, out, c, cell)
    ensures SplitDead(todo, acc, out.dead, c, cell)
  {
    hide Distinct, SplitActive, SplitObjs;
    assert acc1.dead == acc.dead || acc1.dead == [todo[0]] + acc.dead;
  }

  lemma ObjsStep(todo: seq<Ref>, acc: Swept, acc1: Swept, out: Swept, c: Mark, cell: nat)
    requires todo != [] && todo[0] in acc.objs && todo[0] !in todo[1..] && acc1 == SweepOne(todo[0], acc, c, cell)
    requires (forall q :: q in todo <==> q == todo[0] || q in todo[1..]) && Splits(todo[1..], acc1, out, c, cell)
    ensures SplitObjs(todo, acc, out.objs, c, cell)
  {
    hide SplitActive, SplitDead;
  }

  // ---------- a sweep keeps the invariant and collects exactly ----------

  /** What a sweep leaves: used objects with their contents, everything else recycled or freed. */
  ghost predicate Collected(h: Heap, h': Heap) {
    && h'.perm == h.perm && h'.roots == h.roots && h'.slots == h.slots && h'.protect == h.protect && h'.cell == h.cell
    && (forall r :: r in h'.active <==> r in h.active && Used(h, r))
    && (forall r :: r in Live(h') ==>
          && r in h.objs && r in h'.objs
          && h'.objs[r].fields == h.objs[r].fields && h'.objs[r].size == h.objs[r].size)
  }

  ghost predicate Discarded(h: Heap, h': Heap) {
    && (forall r :: r in h.active && r in h.objs && !Used(h, r) ==>
          if h.objs[r].size == h.cell then r in h'.dead else r !in h'.objs)
    && (forall r :: r in h.dead ==> r in h'.dead)
    && (forall r :: r in h'.dead ==> r in h.dead || (r in h.active && !Used(h, r)))
  }

  lemma CoreExact(fuel: nat, h: Heap)
    requires Inv(h)
    ensures var r := SweepCore(fuel, h);
      r.Loops? || (r.Ok? && Inv(r.h) && r.h.mark == Flip(h.mark) && Collected(h, r.h) && Discarded(h, r.h))
  {
    hide Used, MarkPhase, SweepList;
    PhaseExact(fuel, h);
    var c := Flip(h.mark);
    var m := MarkPhase(fuel, h, c);
    if m.Done? {
      var acc := Swept([], h.dead, m.objs);
      assert Sweepable(h.active, acc);
      SweepListSplits(h.active, acc, c, h.cell);
      CoreKeeps(h, m.objs, SweepList(h.active, acc, c, h.cell));
    }
  }

  lemma CoreKeeps(h: Heap, o: Objs, s: Swept)
    requires Inv(h) && Paints(h.objs, o, Flip(h.mark))
      && Splits(h.active, Swept([], h.dead, o), s, Flip(h.mark), h.cell)
    requires forall r :: r in h.active ==> (o[r].mark == Flip(h.mark) <==> Used(h, r))
    ensures var h' := h.(objs := s.objs, active := s.active, dead := s.dead, mark := Flip(h.mark));
      Inv(h') && Collected(h, h') && Discarded(h, h')
  {
    var h' := h.(objs := s.objs, active := s.active, dead := s.dead, mark := Flip(h.mark));
    CoreLists(h, o, s);
    CoreMarks(h, o, s);
    CoreCollects(h, o, s);
    hide Lists, Marks, Collected, Discarded, Splits;
    CoreClosed(h, h');
  }

  lemma CoreLists(h: Heap, o: Objs, s: Swept)
    requires Inv(h) && Paints(h.objs, o, Flip(h.mark))
      && Splits(h.active, Swept([], h.dead, o), s, Flip(h.mark), h.cell)
    ensures Lists(h.(objs := s.objs, active := s.active, dead := s.dead, mark := Flip(h.mark)))
  {
    hide Marks, Pointers, Distinct;
    var h' := h.(objs := s.objs, active := s.active, dead := s.dead, mark := Flip(h.mark));
    assert forall r :: r in h'.active ==> r in h.active;
    assert forall r :: r in h'.dead ==> r in h.dead || r in h.active;
  }

  lemma CoreMarks(h: Heap, o: Objs, s: Swept)
    requires Inv(h) && Paints(h.objs, o, Flip(h.mark))
      && Splits(h.active, Swept([], h.dead, o), s, Flip(h.mark), h.cell)
    ensures Marks(h.(objs := s.objs, active := s.active, dead := s.dead, mark := Flip(h.mark)))
  {
    hide Pointers, Distinct;
  }

  lemma CoreCollects(h: Heap, o: Objs, s: Swept)
    requires Inv(h) && Paints(h.objs, o, Flip(h.mark))
      && Splits(h.active, Swept([], h.dead, o), s, Flip(h.mark), h.cell)
    requires forall r :: r in h.active ==> (o[r].mark == Flip(h.mark) <==> Used(h, r))
    ensures var h' := h.(objs := s.objs, active := s.active, dead := s.dead, mark := Flip(h.mark));
      Collected(h, h') && Discarded(h, h')
  {
    hide Pointers, Distinct, Used;
  }

  lemma CoreClosed(h: Heap, h': Heap)
    requires Inv(h) && Lists(h') && Collected(h, h')
    ensures Pointers(h')
  {
    StartsLive(h);
    var all := ReachableClosed(h.objs, Live(h), Starts(h));
    assert forall r :: r in all <==> Used(h, r);
    hide Used, Marks, Reachable;
    LiveIsUsed(h, h', all);
    hide Inv, Lists, Live;
    assert RootRefs(h') == RootRefs(h);
    PointersIn(h, h', all);
  }

  lemma LiveIsUsed(h: Heap, h': Heap, all: set<Ref>)
    requires Collected(h, h') && (forall r :: r in all <==> Used(h, r)) && all <= Live(h) && Starts(h) <= all
    ensures all == Live(h')
  {
    hide Used;
    forall r | r in h.perm ensures r in all { assert r in Starts(h); }
  }

  lemma PointersIn(h: Heap, h': Heap, all: set<Ref>)
    requires Live(h') == all && ClosedSet(h.objs, all) && Starts(h) <= all && RootRefs(h') == RootRefs(h)
      && Collected(h, h')
    requires forall i :: 0 <= i < |RootRefs(h)| ==> In(RootRefs(h)[i], Starts(h))
    ensures Pointers(h')
  {
    hide Used, Live, Starts, RootRefs;
    forall r, i | r in all && 0 <= i < |h'.objs[r].fields| ensures In(h'.objs[r].fields[i], all) {
      assert In(h.objs[r].fields[i], all);
    }
  }
}
