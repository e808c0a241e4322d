/** When a collection stops: exactly when no permanent objects form a cycle. */
module Termination {
  import opened Machine
  import opened Marking
  import opened Heaps
  import opened Collection

  ghost predicate NoLoop(o: Objs) { forall s: set<Ref> :: !PermanentLoop(o, s) }

  // ---------- more fuel changes nothing ----------

  lemma PhaseFuel(f: nat, g: nat, h: Heap, c: Mark)
    requires f <= g && !MarkPhase(f, h, c).OutOfFuel?
    ensures MarkPhase(g, h, c) == MarkPhase(f, h, c)
  {
    MarkAllFuel(f, g, h.objs, Somes(h.perm), c);
    var m := MarkAll(f, h.objs, Somes(h.perm), c);
    if m.Done? { MarkAllFuel(f, g, m.objs, RootRefs(h), c); }
  }

  lemma CoreFuel(f: nat, g: nat, h: Heap)
    requires f <= g && SweepCore(f, h).Ok?
    ensures SweepCore(g, h) == SweepCore(f, h)
  {
    hide MarkPhase, SweepList;
    PhaseFuel(f, g, h, Flip(h.mark));
  }

  lemma {:induction false} SweepFuel(nest: nat, f: nat, g: nat, h: Heap, pick: Supply)
    requires f <= g && Sweep(nest, f, h, pick).Ok?
    ensures Sweep(nest, g, h, pick) == Sweep(nest, f, h, pick)
    decreases nest, 0, 0
  {
    hide SweepCore, PreAlloc;
    if h.protect == 0 {
      CoreFuel(f, g, h);
      var h1 := SweepCore(f, h).h;
      if h1.dead == [] { PreAllocFuel(nest - 1, f, g, h1, pick); }
    }
  }

  lemma {:induction false} AllocFuel(nest: nat, f: nat, g: nat, h: Heap, perm: bool, size: nat, fields: nat,
                                     pick: Supply)
    requires f <= g && Alloc(nest, f, h, perm, size, fields, pick).Ok?
    ensures Alloc(nest, g, h, perm, size, fields, pick) == Alloc(nest, f, h, perm, size, fields, pick)
    decreases nest, 1, 0
  {
    hide Sweep, Take;
    if size == h.cell && h.dead == [] { SweepFuel(nest, f, g, h, pick); }
  }

  lemma {:induction false} AllocManyFuel(n: nat, nest: nat, f: nat, g: nat, h: Heap, pick: Supply)
    requires f <= g && AllocMany(n, nest, f, h, pick).Ok?
    ensures AllocMany(n, nest, g, h, pick) == AllocMany(n, nest, f, h, pick)
    decreases nest, 2, n
  {
    hide Alloc;
    if n > 0 {
      AllocFuel(nest, f, g, h, false, h.cell, 0, pick);
      AllocManyFuel(n - 1, nest, f, g, Alloc(nest, f, h, false, h.cell, 0, pick).h, pick);
    }
  }

  lemma UnprotectFuel(nest: nat, f: nat, g: nat, h: Heap, pick: Supply)
    requires f <= g && Unprotect(nest, f, h, pick).Ok?
    ensures Unprotect(nest, g, h, pick) == Unprotect(nest, f, h, pick)
    decreases nest, 1, 0
  {
    hide Sweep;
    var h1 := h.(protect := h.protect - 1);
    if h1.protect == 0 && h1.dead == [] { SweepFuel(nest, f, g, h1, pick); }
  }

  lemma {:induction false} PreAllocFuel(nest: nat, f: nat, g: nat, h: Heap, pick: Supply)
    requires f <= g && PreAlloc(nest, f, h, pick).Ok?
    ensures PreAlloc(nest, g, h, pick) == PreAlloc(nest, f, h, pick)
    decreases nest, 3, 0
  {
    hide AllocMany, Unprotect, Sweep;
    var hp := h.(protect := h.protect + 1);
    AllocManyFuel(PRE_ALLOC, nest, f, g, hp, pick);
    var h1 := AllocMany(PRE_ALLOC, nest, f, hp, pick).h;
    UnprotectFuel(nest, f, g, h1, pick);
    SweepFuel(nest, f, g, Unprotect(nest, f, h1, pick).h, pick);
  }

  // ---------- without a permanent cycle some fuel suffices ----------

  lemma PhaseStops(h: Heap) returns (fuel: nat)
    requires Inv(h) && NoLoop(h.objs)
    ensures !MarkPhase(fuel, h, Flip(h.mark)).OutOfFuel?
  {
    var c := Flip(h.mark);
    var perms := set r | r in h.objs && h.objs[r].mark == Permanent;
    var rank := NoLoopRanks(h.objs, perms);
    var g := 0;
    var f := AllStops(h.objs, Somes(h.perm), c, perms, rank);
    var m := MarkAll(f, h.objs, Somes(h.perm), c);
    if m.Done? {
      MarkAllPaints(f, h.objs, Somes(h.perm), c);
      assert Perms(m.objs, perms) && Ranks(m.objs, perms, rank);
      g := AllStops(m.objs, RootRefs(h), c, perms, rank);
    }
    fuel := if f < g then g else f;
    MarkAllFuel(f, fuel, h.objs, Somes(h.perm), c);
    if m.Done? { MarkAllFuel(g, fuel, m.objs, RootRefs(h), c); }
  }

  lemma AllStops(o: Objs, xs: seq<Option<Ref>>, c: Mark, perms: set<Ref>, rank: map<Ref, nat>) returns (fuel: nat)
    requires Perms(o, perms) && Ranks(o, perms, rank) && (c == Red || c == Black)
    ensures !MarkAll(fuel, o, xs, c).OutOfFuel?
  {
    fuel := MarkAllStops(o, xs, c, perms, rank, MaxRank(rank));
  }

  lemma CoreStops(h: Heap) returns (fuel: nat)
    requires Inv(h) && NoLoop(h.objs)
    ensures SweepCore(fuel, h).Ok?
  {
    fuel := PhaseStops(h);
    hide MarkPhase, SweepList, Inv, NoLoop;
    CoreExact(fuel, h);
  }

  // ---------- with one, none does ----------

  lemma CoreLoops(fuel: nat, h: Heap, s: set<Ref>)
    requires Inv(h) && PermanentLoop(h.objs, s)
    ensures SweepCore(fuel, h).Loops?
  {
    PhaseLoops(fuel, h, s);
    CoreExact(fuel, h);
    hide Inv, MarkPhase, SweepList, PermanentLoop, Collected, Discarded;
  }

  lemma PhaseLoops(fuel: nat, h: Heap, s: set<Ref>)
    requires Inv(h) && PermanentLoop(h.objs, s)
    ensures !MarkPhase(fuel, h, Flip(h.mark)).Done?
  {
    hide Inv, PermanentLoop, MarkAll;
    var r := LoopMember(h.objs, s);
    var i := PermIndex(h, r);
    assert Somes(h.perm)[i] == Some(r);
    LoopsAll(fuel, h.objs, Somes(h.perm), i, r, Flip(h.mark), s);
  }

  lemma LoopMember(o: Objs, s: set<Ref>) returns (r: Ref)
    requires PermanentLoop(o, s)
    ensures r in s && r in o && o[r].mark == Permanent
  {
    hide PointsInto;
    r :| r in s;
  }

  lemma PermIndex(h: Heap, r: Ref) returns (i: nat)
    requires Inv(h) && r in h.objs && h.objs[r].mark == Permanent
    ensures i < |h.perm| && h.perm[i] == r
  {
    hide Pointers;
    i :| 0 <= i < |h.perm| && h.perm[i] == r;
  }

  // ---------- permanent cycles under collection ----------

  /** Collecting and allocating ordinary objects neither makes nor breaks a permanent cycle. */
  ghost predicate SamePerm(h: Heap, h': Heap) {
    && h'.perm == h.perm
    && forall r :: r in h.perm && r in h.objs && r in h'.objs ==> h'.objs[r].fields == h.objs[r].fields
  }

  lemma LoopSame(h: Heap, h': Heap, s: set<Ref>)
    requires Inv(h) && Inv(h') && SamePerm(h, h')
    ensures PermanentLoop(h.objs, s) <==> PermanentLoop(h'.objs, s)
  {
    hide Pointers, PointsInto, Distinct;
    assert forall r :: r in h.objs && h.objs[r].mark == Permanent <==> r in h.perm;
    assert forall r :: r in h'.objs && h'.objs[r].mark == Permanent <==> r in h'.perm;
  }

  lemma NoLoopSame(h: Heap, h': Heap)
    requires Inv(h) && Inv(h') && SamePerm(h, h')
    ensures NoLoop(h.objs) <==> NoLoop(h'.objs)
  {
    hide PermanentLoop, Inv;
    forall s: set<Ref> ensures PermanentLoop(h.objs, s) <==> PermanentLoop(h'.objs, s) { LoopSame(h, h', s); }
  }

  lemma CollectedPerm(h: Heap, h': Heap)
    requires Collected(h, h')
    ensures SamePerm(h, h')
  {
    hide Used;
    forall r | r in h.perm ensures r in Live(h') {}
  }

  lemma PaddedPerm(h: Heap, h': Heap)
    requires Padded(h, h')
    ensures SamePerm(h, h')
  {
    forall r | r in h.perm ensures r in Live(h) {}
  }

  // ---------- sweep ----------

  lemma PreAllocStops(h: Heap, pick: Supply) returns (fuel: nat)
    requires Inv(h) && Fresh(pick) && h.protect == 0 && h.dead == [] && NoLoop(h.objs)
    ensures forall g :: g >= fuel ==> PreAlloc(0, g, h, pick).Ok?
  {
    hide Inv, Fresh, Used, Padded, NoLoop, AllocMany, SweepCore, PreAlloc, Unprotect;
    var h1, q := PreAllocFirst(0, 0, h, pick);
    PaddedPerm(h, h1);
    NoLoopSame(h, h1);
    var f1 := CoreStops(h1);
    CoreExact(f1, h1);
    var h2 := SweepCore(f1, h1).h;
    CollectedPerm(h1, h2);
    NoLoopSame(h1, h2);
    var f2 := CoreStops(h2);
    fuel := if f1 < f2 then f2 else f1;
    forall g | g >= fuel ensures PreAlloc(0, g, h, pick).Ok? { PreAllocAt(g, f1, f2, h, h1, q, h2, pick); }
  }

  lemma PreAllocAt(g: nat, f1: nat, f2: nat, h: Heap, h1: Heap, q: Ref, h2: Heap, pick: Supply)
    requires Inv(h) && Fresh(pick) && h.protect == 0 && h.dead == [] && g >= f1 && g >= f2
    requires Inv(h1) && Padded(h, h1) && h1.dead == [] && h1.protect == 0
    requires q in h1.active && q !in Live(h) && q in h1.objs && h1.objs[q].size == h1.cell
    requires AllocMany(PRE_ALLOC, 0, 0, h.(protect := 1), pick) == Ok(h1.(protect := 1))
    requires SweepCore(f1, h1) == Ok(h2) && Inv(h2) && SweepCore(f2, h2).Ok?
    ensures PreAlloc(0, g, h, pick).Ok?
  {
    ProtectInv(h, 1);
    ManyFuel(PRE_ALLOC, 0, 0, g, h.(protect := 1), pick);
    hide Inv, Used, Padded, AllocMany, SweepCore, PreAlloc, Unprotect, Sweep;
    CoreFuel(f1, g, h1);
    CoreFuel(f2, g, h2);
    PaddedUsed(h, h1);
    CoreFills(g, h1, q, Live(h));
    UnprotectSweeps(g, h1, pick);
    CoreExact(g, h1);
    CoreExact(g, h2);
    DeadStays(h1, h2, SweepCore(g, h2).h);
    PreAllocIs(g, h, h1, h2, SweepCore(g, h2).h, pick);
  }

  lemma DeadStays(h1: Heap, h2: Heap, h3: Heap)
    requires Collected(h1, h2) && h1.protect == 0 && h2.dead != [] && Discarded(h2, h3)
    ensures h3.dead != [] && h2.protect == 0
  {
    hide Used;
    assert h2.dead[0] in h3.dead;
  }

  lemma {:induction false} ManyFuel(n: nat, nest: nat, f: nat, g: nat, h: Heap, pick: Supply)
    requires h.protect > 0
    ensures AllocMany(n, nest, f, h, pick) == AllocMany(n, nest, g, h, pick)
    decreases n
  {
    if n > 0 {
      AllocProtected(nest, f, h, false, h.cell, 0, pick);
      AllocProtected(nest, g, h, false, h.cell, 0, pick);
      ManyFuel(n - 1, nest, f, g, Take(h, false, h.cell, 0, pick), pick);
    }
  }

  ghost predicate Stops(h: Heap, pick: Supply) { exists fuel: nat :: Sweep(1, fuel, h, pick).Ok? }

  /** An unprotected sweep stops if and only if no permanent objects form a cycle. */
  lemma SweepStops(h: Heap, pick: Supply)
    requires Inv(h) && Fresh(pick) && h.protect == 0
    ensures Stops(h, pick) <==> NoLoop(h.objs)
  {
    hide Inv, Fresh, SweepCore, PreAlloc, PermanentLoop;
    if NoLoop(h.objs) {
      var f := CoreStops(h);
      CoreExact(f, h);
      var h1 := SweepCore(f, h).h;
      CollectedPerm(h, h1);
      NoLoopSame(h, h1);
      if h1.dead == [] {
        CollectedFlat(h, h1);
        var g := PreAllocStops(h1, pick);
        var m := if f < g then g else f;
        CoreFuel(f, m, h);
        assert Sweep(1, m, h, pick).Ok?;
      } else {
        assert Sweep(1, f, h, pick).Ok?;
      }
    } else {
      var s: set<Ref> :| PermanentLoop(h.objs, s);
      forall fuel: nat ensures !Sweep(1, fuel, h, pick).Ok? { CoreLoops(fuel, h, s); }
    }
  }
}
