/** The collector object.  Its methods follow the routines of the same name step by step and are
    held to the heap functions; the entry points at the end are what a client calls. */
module Collector {
  import opened Machine
  import opened Marking
  import opened Heaps
  import opened Collection
  import opened Termination
  import opened Mutator

  class Collector {
    var objs: Objs
    var active: seq<Ref>
    var dead: seq<Ref>
    var perm: seq<Ref>
    var roots: seq<Slot>
    var slots: map<Slot, Option<Ref>>
    var protect: nat
    var mark: Mark
    const cell: nat

    ghost function Snap(): Heap
      reads this
    {
      Heap(objs, active, dead, perm, roots, slots, protect, mark, cell)
    }

    constructor (cellSize: nat)
      ensures Snap() == Created(cellSize) && Inv(Snap())
    {
      objs, active, dead, perm := map[], [], [], [];
      roots, slots, protect, mark := [], map[], 0, Red;
      cell := cellSize;
      new;
      CreatedInv(cellSize);
    }

    // ---------- marking ----------

    /** mark_graph. */
    method MarkGraph(x: Option<Ref>, c: Mark, ghost fuel: nat)
      requires MarkOne(fuel, objs, x, c).Done?
      modifies this`objs
      ensures MarkOne(fuel, old(objs), x, c) == Done(objs)
      decreases fuel, 0
    {
      if x.None? { return; }
      var m := objs[x.value];
      if m.mark == c { return; }
      if m.mark != Permanent { objs := objs[x.value := m.(mark := c)]; }
      MarkEach(m.fields, c, fuel - 1);
    }

    /** The loops that mark the pointers of an object, a list or the roots in turn. */
    method MarkEach(xs: seq<Option<Ref>>, c: Mark, ghost fuel: nat)
      requires MarkAll(fuel, objs, xs, c).Done?
      modifies this`objs
      ensures MarkAll(fuel, old(objs), xs, c) == Done(objs)
      decreases fuel, 1
    {
      ghost var goal := MarkAll(fuel, objs, xs, c);
      for i := 0 to |xs|
        invariant MarkAll(fuel, objs, xs[i..], c) == goal
      {
        assert xs[i..][0] == xs[i] && xs[i..][1..] == xs[i + 1..];
        MarkGraph(xs[i], c, fuel);
      }
    }

    method SetNextMark() returns (c: Mark)
      modifies this`mark
      ensures c == Flip(old(mark)) && mark == c
    {
      c := if mark == Red then Black else Red;
      mark := c;
    }

    // ---------- sweeping ----------

    method SweepActive(c: Mark)
      requires protect == 0 && forall i :: 0 <= i < |active| ==> active[i] in objs
      requires Distinct(active)
      modifies this`objs, this`active, this`dead
      ensures Swept(active, dead, objs) == SweepList(old(active), Swept([], old(dead), old(objs)), c, cell)
    {
      var newActive: seq<Ref> := [];
      ghost var goal := SweepList(active, Swept([], dead, objs), c, cell);
      for i := 0 to |active|
        invariant active == old(active)
        invariant forall j :: i <= j < |active| ==> active[j] in objs
        invariant SweepList(active[i..], Swept(newActive, dead, objs), c, cell) == goal
      {
        var r := active[i];
        assert active[i..][0] == r && active[i..][1..] == active[i + 1..];
        if objs[r].mark == c {
          newActive := [r] + newActive;
        } else if objs[r].size == cell {
          objs := objs[r := objs[r].(mark := Dead)];
          dead := [r] + dead;
        } else {
          objs := objs - {r};
        }
      }
      active := newActive;
    }

    /** sweep. */
    method SweepAll(pick: Supply, ghost nest: nat, ghost fuel: nat)
      requires nest <= 1 && Sweep(nest, fuel, Snap(), pick).Ok? && Inv(Snap()) && Fresh(pick)
      modifies this
      ensures Ok(Snap()) == Sweep(nest, fuel, old(Snap()), pick)
      decreases nest, 0, 0
    {
      if protect > 0 { return; }
      ghost var h := Snap();
      CoreExact(fuel, h);
      PhaseExact(fuel, h);
      var c := SetNextMark();
      MarkEach(Somes(perm), c, fuel);
      MarkEach(RootRefs(Heap(objs, active, dead, perm, roots, slots, protect, mark, cell)), c, fuel);
      hide Inv, Collected, Discarded, SweepList;
      SweepReady(h, objs, c);
      SweepActive(c);
      if dead == [] {
        PreAllocate(pick, nest - 1, fuel);
      }
    }

    // ---------- allocation ----------

    /** internal_alloc. */
    method InternalAlloc(isPerm: bool, size: nat, fields: nat, pick: Supply, ghost nest: nat, ghost fuel: nat)
      returns (r: Ref)
      requires nest <= 1 && Alloc(nest, fuel, Snap(), isPerm, size, fields, pick).Ok? && Inv(Snap()) && Fresh(pick)
      modifies this
      ensures Ok(Snap()) == Alloc(nest, fuel, old(Snap()), isPerm, size, fields, pick)
      ensures (if isPerm then perm else active) != [] && r == (if isPerm then perm[0] else active[0])
      decreases nest, 1, 0
    {
      var reuse := false;
      if size == cell {
        if dead == [] { SweepAll(pick, nest, fuel); }
        reuse := dead != [];
      }
      if reuse {
        r := dead[0];
        dead := dead[1..];
      } else {
        r := pick(objs.Keys);
      }
      objs := objs[r := Obj(if isPerm then Permanent else mark, size, seq(fields, _ => None))];
      if isPerm {
        perm := [r] + perm;
      } else {
        active := [r] + active;
      }
    }

    method Protect()
      modifies this`protect
      ensures protect == old(protect) + 1
    {
      protect := protect + 1;
    }

    /** gc_unprotect. */
    method Unguard(pick: Supply, ghost nest: nat, ghost fuel: nat)
      requires nest <= 1 && Unprotect(nest, fuel, Snap(), pick).Ok? && Inv(Snap()) && Fresh(pick)
      modifies this
      ensures Ok(Snap()) == Unprotect(nest, fuel, old(Snap()), pick)
      decreases nest, 1, 0
    {
      ProtectInv(Snap(), protect - 1);
      protect := protect - 1;
      if protect == 0 && dead == [] {
        SweepAll(pick, nest, fuel);
      }
    }

    /** pre_alloc. */
    method PreAllocate(pick: Supply, ghost nest: nat, ghost fuel: nat)
      requires nest == 0 && PreAlloc(nest, fuel, Snap(), pick).Ok? && Inv(Snap()) && Fresh(pick) && protect == 0
        && dead == []
      modifies this
      ensures Ok(Snap()) == PreAlloc(nest, fuel, old(Snap()), pick)
      decreases nest, 3, 0
    {
      hide Inv, Fresh, Sweep, Unprotect, AllocMany, PreAlloc, Live;
      PreAllocParts(nest, fuel, Snap(), pick);
      ProtectInv(Snap(), 1);
      Protect();
      AllocCells(PRE_ALLOC, pick, nest, fuel);
      UnguardInv(fuel, nest, Snap(), pick);
      Unguard(pick, nest, fuel);
      SweepAll(pick, nest, fuel);
    }

    /** The loop of pre_alloc. */
    method AllocCells(n: nat, pick: Supply, ghost nest: nat, ghost fuel: nat)
      requires nest == 0 && Inv(Snap()) && Fresh(pick) && protect == 1 && dead == []
      modifies this
      ensures Ok(Snap()) == AllocMany(n, nest, fuel, old(Snap()), pick)
      ensures Inv(Snap()) && protect == 1 && dead == []
      decreases nest, 2, n
    {
      ghost var goal := AllocMany(n, nest, fuel, Snap(), pick);
      for i := 0 to n
        invariant AllocMany(n - i, nest, fuel, Snap(), pick) == goal && Inv(Snap()) && protect == 1 && dead == []
      {
        SpareCell(n - i, nest, fuel, Snap(), pick);
        hide Inv, Fresh, AllocMany, Alloc;
        var obj := InternalAlloc(false, cell, 0, pick, nest, fuel);
      }
    }

    // ---------- roots and permanence ----------

    method RegisterRoot(s: Slot)
      modifies this`roots
      ensures roots == [s] + old(roots)
    {
      roots := [s] + roots;
    }

    /** gc_unregister_root: the search stops at the first match or the last entry. */
    method UnregisterRoot(s: Slot)
      requires s in roots
      modifies this`roots
      ensures roots == Without(old(roots), s)
    {
      var i := 0;
      while i + 1 < |roots| && roots[i] != s
        invariant 0 <= i < |roots| && s !in roots[..i]
      {
        i := i + 1;
      }
      assert roots[i] == s by { assert roots == roots[..i] + roots[i..]; }
      WithoutAt(roots, s, i);
      roots := roots[..i] + roots[i + 1..];
    }

    /** gc_de_perm. */
    method DePermanent(r: Ref)
      requires r in objs && (objs[r].mark == Permanent ==> r in perm)
      modifies this`objs, this`perm, this`active
      ensures Ok(Snap()) == Step(0, DePerm(r), old(Snap()), _ => 0)
    {
      if objs[r].mark != Permanent { return; }
      objs := objs[r := objs[r].(mark := mark)];
      var i := 0;
      while i + 1 < |perm| && perm[i] != r
        invariant 0 <= i < |perm| && r !in perm[..i]
      {
        i := i + 1;
      }
      assert perm[i] == r by { assert perm == perm[..i] + perm[i..]; }
      WithoutAt(perm, r, i);
      perm := perm[..i] + perm[i + 1..];
      active := [r] + active;
    }

    // ---------- what a client calls ----------

    /** gc_sweep on a heap without permanent cycles. */
    method GcSweep(pick: Supply)
      requires Inv(Snap()) && Fresh(pick) && NoLoop(objs)
      modifies this
      ensures Inv(Snap()) && KeepsUsed(old(Snap()), Snap())
      ensures old(protect) == 0 ==> Collected(old(Snap()), Snap()) && Disposed(old(Snap()), Snap()) && dead != []
      ensures old(protect) > 0 ==> Snap() == old(Snap())
    {
      ghost var h := Snap();
      ghost var fuel := SweepPlan(h, pick);
      hide Inv, Fresh, NoLoop, Sweep, Used, KeepsUsed, Collected, Disposed;
      SweepAll(pick, 1, fuel);
    }

    /** gc_alloc_type and its siblings: the object handed out was not in use; a cell comes off the
        dead list, after a collection if that is empty and nothing protects. */
    method GcAlloc(isPerm: bool, size: nat, fields: nat, slot: Slot, pick: Supply)
      requires Inv(Snap()) && Fresh(pick) && NoLoop(objs)
      modifies this
      ensures Inv(Snap()) && KeepsUsed(old(Snap()), Snap())
      ensures slot in slots && slots[slot].Some? && !Used(old(Snap()), slots[slot].value)
      ensures exists h1 ::
        Source(old(Snap()), h1, size, slots[slot].value, dead)
        && Handed(h1, Snap(), isPerm, size, fields, slot, slots[slot].value)
    {
      ghost var h := Snap();
      ghost var cmd := New(isPerm, size, fields, slot);
      ghost var fuel := StepStops(cmd, h, pick);
      NewSafe(fuel, isPerm, size, fields, slot, h, pick);
      ghost var h1, taken := NewExact(fuel, isPerm, size, fields, slot, h, pick);
      hide Inv, Fresh, NoLoop, Alloc, Used, KeepsUsed, Source;
      var r := InternalAlloc(isPerm, size, fields, pick, 1, fuel);
      slots := slots[slot := Some(r)];
    }
  }

  lemma SweepIdle(nest: nat, fuel: nat, h: Heap, pick: Supply)
    requires h.protect > 0
    ensures Sweep(nest, fuel, h, pick) == Ok(h)
  {
  }

  lemma SweepPlan(h: Heap, pick: Supply) returns (fuel: nat)
    requires Inv(h) && Fresh(pick) && NoLoop(h.objs)
    ensures var r := Sweep(1, fuel, h, pick);
      && r.Ok? && Inv(r.h) && KeepsUsed(h, r.h)
      && (if h.protect == 0 then Collected(h, r.h) && Disposed(h, r.h) && r.h.dead != [] else r.h == h)
  {
    hide Inv, Fresh, NoLoop, Sweep, Used, KeepsUsed, Collected, Disposed;
    SweepSafe(0, h, pick);
    fuel :| Sweep(1, fuel, h, pick).Ok?;
    SweepSafe(fuel, h, pick);
    if h.protect == 0 { SweepExact(fuel, h, pick); } else { SweepIdle(1, fuel, h, pick); }
  }

  lemma SweepReady(h: Heap, o: Objs, c: Mark)
    requires Inv(h) && o.Keys == h.objs.Keys
    ensures Distinct(h.active) && forall i :: 0 <= i < |h.active| ==> h.active[i] in o
  {
    forall i | 0 <= i < |h.active| ensures h.active[i] in o { assert h.active[i] in h.active; }
  }

  lemma PreAllocParts(nest: nat, fuel: nat, h: Heap, pick: Supply)
    requires h.protect == 0 && PreAlloc(nest, fuel, h, pick).Ok?
    ensures var a := AllocMany(PRE_ALLOC, nest, fuel, h.(protect := 1), pick);
      a.Ok? && var b := Unprotect(nest, fuel, a.h, pick);
        b.Ok? && PreAlloc(nest, fuel, h, pick) == Sweep(nest, fuel, b.h, pick)
  {
    hide AllocMany, Unprotect, Sweep;
  }

  /** One turn of the pre-allocation loop. */
  lemma SpareCell(n: nat, nest: nat, fuel: nat, h: Heap, pick: Supply)
    requires n > 0 && Inv(h) && Fresh(pick) && h.protect == 1 && h.dead == []
    ensures var a := Alloc(nest, fuel, h, false, h.cell, 0, pick);
      && a.Ok? && Inv(a.h) && a.h.protect == 1 && a.h.dead == []
      && AllocMany(n, nest, fuel, h, pick) == AllocMany(n - 1, nest, fuel, a.h, pick)
  {
    AllocProtected(nest, fuel, h, false, h.cell, 0, pick);
    TakeInv(h, false, h.cell, 0, pick);
    hide Inv, Alloc;
  }

  lemma UnguardInv(fuel: nat, nest: nat, h: Heap, pick: Supply)
    requires Inv(h) && Fresh(pick) && h.protect == 1 && h.dead == [] && Unprotect(nest, fuel, h, pick).Ok? && nest == 0
    ensures Inv(Unprotect(nest, fuel, h, pick).h)
  {
    ProtectInv(h, 0);
    CoreExact(fuel, h.(protect := 0));
  }

  lemma {:induction false} WithoutAt<T>(xs: seq<T>, x: T, i: nat)
    requires i < |xs| && xs[i] == x && x !in xs[..i]
    ensures Without(xs, x) == xs[..i] + xs[i + 1..]
    decreases i
  {
    if i > 0 {
      assert xs[0] in xs[..i];
      assert xs[1..][..i - 1] == xs[..i][1..];
      WithoutAt(xs[1..], x, i - 1);
      assert xs[1..][i..] == xs[i + 1..];
    }
  }
}
