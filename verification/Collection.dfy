/** Whole collections: the recursion between sweeping and pre-allocation, exactness, termination,
    and safety of every run of a client. */
module Collection {
  import opened Machine
  import opened Marking
  import opened Heaps

  // ---------- reachability depends only on what is reachable ----------

  lemma {:induction false} UsedSame(h: Heap, h': Heap, s: set<Ref>)
    requires ClosedSet(h.objs, s) && Starts(h) <= s && Starts(h') == Starts(h)
    requires forall r :: r in s ==> r in h.objs && r in h'.objs && h'.objs[r].fields == h.objs[r].fields
    ensures forall r :: Used(h', r) <==> Used(h, r)
  {
    hide Reachable, ClosedSet, Starts;
    SameClosed(h.objs, h'.objs, s, s);
    var a := ReachableClosed(h.objs, s, Starts(h));
    var b := ReachableClosed(h'.objs, s, Starts(h));
    SameClosed(h.objs, h'.objs, s, a);
    SameClosed(h'.objs, h.objs, s, b);
    forall r ensures Used(h', r) <==> Used(h, r) {
      if r in a { ReachableStays(h.objs, b, Starts(h), r); }
      if r in b { ReachableStays(h'.objs, a, Starts(h), r); }
    }
  }

  lemma SameClosed(o: Objs, o': Objs, s: set<Ref>, t: set<Ref>)
    requires t <= s && ClosedSet(o, t) && forall r :: r in s ==> r in o && r in o' && o'[r].fields == o[r].fields
    ensures ClosedSet(o', t)
  {
    forall r, i | r in t && 0 <= i < |o'[r].fields| ensures In(o'[r].fields[i], t) { assert In(o[r].fields[i], t); }
  }

  lemma UsedLive(h: Heap, r: Ref)
    requires Inv(h) && Used(h, r)
    ensures r in Live(h)
  {
    StartsLive(h);
    ReachableStays(h.objs, Live(h), Starts(h), r);
  }

  lemma CollectedLive(h: Heap, h': Heap)
    requires Collected(h, h')
    ensures forall r :: r in Live(h') <==> r in h.perm || (r in h.active && Used(h, r))
  {
    hide Used;
  }

  lemma CollectedStarts(h: Heap, h': Heap)
    requires Collected(h, h')
    ensures Starts(h') == Starts(h)
  {
    hide Used;
  }

  /** A sweep does not change what is used. */
  lemma CollectedUsed(h: Heap, h': Heap)
    requires Inv(h) && Collected(h, h')
    ensures forall r :: Used(h', r) <==> Used(h, r)
    ensures forall r :: r in Live(h') <==> r in h.perm || (r in h.active && Used(h, r))
  {
    StartsLive(h);
    var all := ReachableClosed(h.objs, Live(h), Starts(h));
    assert forall r :: r in all <==> Used(h, r);
    CollectedStarts(h, h');
    CollectedLive(h, h');
    hide Used, Reachable, ClosedSet, Inv, Starts;
    forall r | r in all ensures r in h.objs && r in h'.objs && h'.objs[r].fields == h.objs[r].fields {
      assert Used(h, r) && r in Live(h);
      assert r in Live(h');
    }
    UsedSame(h, h', all);
  }

  // ---------- taking an object ----------

  ghost predicate Extends(h: Heap, h': Heap) {
    && h'.roots == h.roots && h'.slots == h.slots && h'.mark == h.mark && h'.cell == h.cell && h'.protect == h.protect
    && (forall r :: r in Live(h) ==> r in h.objs && r in h'.objs && h'.objs[r] == h.objs[r])
    && Live(h) <= Live(h')
  }

  function Taken(h: Heap, size: nat, pick: Supply): Ref {
    if size == h.cell && h.dead != [] then h.dead[0] else pick(h.objs.Keys)
  }

  lemma TakeLists(h: Heap, perm: bool, size: nat, fields: nat, pick: Supply)
    requires Inv(h) && Fresh(pick)
    ensures Lists(Take(h, perm, size, fields, pick)) && Taken(h, size, pick) !in Live(h)
  {
    hide Marks, Pointers;
    var h' := Take(h, perm, size, fields, pick);
    var r := Taken(h, size, pick);
    assert r !in h.active && r !in h.perm;
    assert size == h.cell && h.dead != [] ==> h.dead == [r] + h.dead[1..] && r !in h.dead[1..];
    assert !(size == h.cell && h.dead != []) ==> r !in h.dead && h'.dead == h.dead;
    assert h'.active == (if perm then h.active else [r] + h.active);
    assert h'.perm == (if perm then [r] + h.perm else h.perm);
    assert Distinct(h'.dead) && Distinct(h'.active) && Distinct(h'.perm);
    hide Distinct, Take, Taken;
    TakenLists(h, h', perm, r);
  }

  lemma TakenLists(h: Heap, h': Heap, perm: bool, r: Ref)
    requires Lists(h) && r !in h.active && r !in h.perm && Distinct(h'.active) && Distinct(h'.dead) && Distinct(h'.perm)
    requires h'.active == (if perm then h.active else [r] + h.active)
      && h'.perm == (if perm then [r] + h.perm else h.perm)
    requires (h.dead == [r] + h'.dead && r !in h'.dead) || (h'.dead == h.dead && r !in h.dead)
    requires h'.objs.Keys == h.objs.Keys + {r}
    ensures Lists(h')
  {
    hide Distinct;
    assert forall q :: q in h'.active <==> q in h.active || (!perm && q == r);
    assert forall q :: q in h'.perm <==> q in h.perm || (perm && q == r);
    assert forall q :: q in h'.dead <==> q in h.dead && q != r;
  }

  /** The new object was not in use, nothing points to it yet, and nothing else changes. */
  lemma TakeInv(h: Heap, perm: bool, size: nat, fields: nat, pick: Supply)
    requires Inv(h) && Fresh(pick)
    ensures var h' := Take(h, perm, size, fields, pick); var r := Taken(h, size, pick);
      && Inv(h') && Extends(h, h') && r !in Live(h) && Live(h') == Live(h) + {r}
      && r in h'.objs && h'.objs[r] == Obj(if perm then Permanent else h.mark, size, seq(fields, _ => None))
      && (if perm then h'.perm == [r] + h.perm && h'.active == h.active
          else h'.active == [r] + h.active && h'.perm == h.perm)
  {
    TakeLists(h, perm, size, fields, pick);
    var h' := Take(h, perm, size, fields, pick);
    var r := Taken(h, size, pick);
    assert Live(h') == Live(h) + {r};
    assert forall q :: q in h'.dead ==> q in h.dead && q != r by {
      hide Pointers, Marks;
      TakenDead(h, h', r, size, pick, perm, fields);
    }
    hide Distinct, Apart;
    TakenMarks(h, h', perm, r, size, fields);
    hide Lists, Marks;
    TakenPointers(h, h', perm, r, size, fields);
  }

  lemma TakenDead(h: Heap, h': Heap, r: Ref, size: nat, pick: Supply, perm: bool, fields: nat)
    requires Lists(h) && Fresh(pick) && h' == Take(h, perm, size, fields, pick) && r == Taken(h, size, pick)
    ensures forall q :: q in h'.dead ==> q in h.dead && q != r
  {
    if size == h.cell && h.dead != [] { assert h.dead == [r] + h.dead[1..]; }
  }

  lemma TakenMarks(h: Heap, h': Heap, perm: bool, r: Ref, size: nat, fields: nat)
    requires Marks(h) && Lists(h) && r !in Live(h) && (forall q :: q in h'.dead ==> q in h.dead && q != r)
    requires h'.objs == h.objs[r := Obj(if perm then Permanent else h.mark, size, seq(fields, _ => None))]
      && h'.mark == h.mark && h'.cell == h.cell
    requires if perm then h'.perm == [r] + h.perm && h'.active == h.active
             else h'.active == [r] + h.active && h'.perm == h.perm
    ensures Marks(h')
  {
    hide Lists;
    assert forall q :: q in h'.active ==> q in h.active || (!perm && q == r);
    assert forall q :: q in h'.perm ==> q in h.perm || (perm && q == r);
  }

  lemma TakenPointers(h: Heap, h': Heap, perm: bool, r: Ref, size: nat, fields: nat)
    requires Pointers(h) && Live(h') == Live(h) + {r} && h'.roots == h.roots && h'.slots == h.slots
    requires h'.objs == h.objs[r := Obj(if perm then Permanent else h.mark, size, seq(fields, _ => None))]
    ensures Pointers(h')
  {
    assert RootRefs(h') == RootRefs(h);
    forall q, i | q in Live(h') && 0 <= i < |h'.objs[q].fields| ensures In(h'.objs[q].fields[i], Live(h')) {
      if q != r { assert In(h.objs[q].fields[i], Live(h)); }
    }
  }

  // ---------- pre-allocation ----------

  /** Allocation under protection never sweeps. */
  lemma AllocProtected(nest: nat, fuel: nat, h: Heap, perm: bool, size: nat, fields: nat, pick: Supply)
    requires h.protect > 0
    ensures Alloc(nest, fuel, h, perm, size, fields, pick) == Ok(Take(h, perm, size, fields, pick))
  {
  }

  lemma ExtendsTrans(a: Heap, b: Heap, c: Heap)
    requires Extends(a, b) && Extends(b, c)
    ensures Extends(a, c)
  {
  }

  lemma {:induction false} ManyInv(n: nat, nest: nat, fuel: nat, h: Heap, pick: Supply)
    requires Inv(h) && Fresh(pick) && h.protect > 0 && h.dead == []
    ensures var r := AllocMany(n, nest, fuel, h, pick);
      && r.Ok? && Inv(r.h) && Extends(h, r.h) && r.h.dead == [] && r.h.perm == h.perm
      && (forall q :: q in h.active ==> q in r.h.active)
      && (n > 0 ==> exists q :: q in r.h.active && q !in Live(h) && q in r.h.objs && r.h.objs[q].size == h.cell)
    decreases n
  {
    if n > 0 {
      AllocProtected(nest, fuel, h, false, h.cell, 0, pick);
      TakeInv(h, false, h.cell, 0, pick);
      var h1 := Take(h, false, h.cell, 0, pick);
      var q := Taken(h, h.cell, pick);
      hide Inv, Fresh, Take, Alloc;
      ManyInv(n - 1, nest, fuel, h1, pick);
      var h2 := AllocMany(n - 1, nest, fuel, h1, pick).h;
      ExtendsTrans(h, h1, h2);
      assert q in h1.active;
      assert q in h2.active && q !in Live(h) && q in h2.objs && h2.objs[q].size == h.cell;
    }
  }

  /** With cells in the active list that nobody uses, a sweep fills the dead list. */
  lemma CoreFills(fuel: nat, h: Heap, q: Ref, s: set<Ref>)
    requires Inv(h) && q in h.active && h.objs[q].size == h.cell && ClosedSet(h.objs, s) && Starts(h) <= s && q !in s
    ensures SweepCore(fuel, h).Ok? ==> SweepCore(fuel, h).h.dead != []
  {
    CoreExact(fuel, h);
    if Used(h, q) { ReachableStays(h.objs, s, Starts(h), q); }
  }

  lemma ProtectInv(h: Heap, n: nat)
    requires Inv(h)
    ensures Inv(h.(protect := n)) && Starts(h.(protect := n)) == Starts(h) && Live(h.(protect := n)) == Live(h)
  {
    var h' := h.(protect := n);
    assert RootRefs(h') == RootRefs(h);
  }

  /** What both sweeps after pre-allocation find: the objects of h and unused cells. */
  ghost predicate Padded(h: Heap, h': Heap) {
    && h'.roots == h.roots && h'.slots == h.slots && h'.cell == h.cell && h'.protect == h.protect && h'.perm == h.perm
    && (forall r :: r in Live(h) ==>
          && r in h.objs && r in h'.objs
          && h'.objs[r].fields == h.objs[r].fields && h'.objs[r].size == h.objs[r].size)
    && Live(h) <= Live(h')
  }

  /** The heap between gc_protect and gc_unprotect has spare cells. */
  lemma PreAllocFirst(nest: nat, fuel: nat, h: Heap, pick: Supply) returns (h1: Heap, q: Ref)
    requires Inv(h) && Fresh(pick) && h.protect == 0 && h.dead == []
    ensures AllocMany(PRE_ALLOC, nest, fuel, h.(protect := 1), pick) == Ok(h1.(protect := 1))
    ensures Inv(h1) && Padded(h, h1) && h1.dead == [] && h1.protect == 0
    ensures q in h1.active && q !in Live(h) && q in h1.objs && h1.objs[q].size == h1.cell
  {
    var hp := h.(protect := 1);
    ProtectInv(h, 1);
    ManyInv(PRE_ALLOC, nest, fuel, hp, pick);
    hide Inv;
    var h2 := AllocMany(PRE_ALLOC, nest, fuel, hp, pick).h;
    h1 := h2.(protect := 0);
    ProtectInv(h2, 0);
    q :| q in h2.active && q !in Live(hp) && q in h2.objs && h2.objs[q].size == hp.cell;
    assert h2 == h1.(protect := 1);
  }

  lemma PaddedUsed(h: Heap, h': Heap)
    requires Inv(h) && Padded(h, h')
    ensures (forall r :: Used(h', r) <==> Used(h, r)) && Starts(h') == Starts(h) && ClosedSet(h'.objs, Live(h))
      && Starts(h) <= Live(h)
  {
    StartsLive(h);
    assert ClosedSet(h'.objs, Live(h));
    hide Used;
    UsedSame(h, h', Live(h));
  }

  /** Pre-allocation on a just-swept heap whose dead list is empty: the nested sweep finds spare
      cells, so no further nesting happens, the dead list ends up filled and what is active is
      again exactly what is used. */
  lemma PreAllocExact(fuel: nat, h: Heap, pick: Supply)
    requires Inv(h) && Fresh(pick) && h.protect == 0 && h.dead == []
    ensures var r := PreAlloc(0, fuel, h, pick);
      r.Loops? || (r.Ok? && Inv(r.h) && Collected(h, r.h) && r.h.dead != [])
  {
    var h1, q := PreAllocFirst(0, fuel, h, pick);
    hide AllocMany, Inv, Used, Padded;
    PaddedUsed(h, h1);
    CoreFills(fuel, h1, q, Live(h));
    CoreExact(fuel, h1);
    var c := SweepCore(fuel, h1);
    assert Unprotect(0, fuel, h1.(protect := 1), pick) == c by { UnprotectSweeps(fuel, h1, pick); }
    if c.Ok? {
      CoreExact(fuel, c.h);
      var d := SweepCore(fuel, c.h);
      if d.Ok? {
        assert PreAlloc(0, fuel, h, pick) == d by { PreAllocIs(fuel, h, h1, c.h, d.h, pick); }
        CollectTwice(h, h1, c.h, d.h);
      } else {
        assert PreAlloc(0, fuel, h, pick) == Loops by { hide SweepCore; PreAllocLoops(fuel, h, h1, c.h, pick); }
      }
    } else {
      assert PreAlloc(0, fuel, h, pick) == Loops by { hide SweepCore; }
    }
  }

  lemma UnprotectSweeps(fuel: nat, h: Heap, pick: Supply)
    requires h.protect == 0 && h.dead == [] && (SweepCore(fuel, h).Ok? ==> SweepCore(fuel, h).h.dead != [])
    ensures Unprotect(0, fuel, h.(protect := 1), pick) == SweepCore(fuel, h)
  {
    hide SweepCore;
    assert h.(protect := 1).(protect := 0) == h;
  }

  lemma PreAllocIs(fuel: nat, h: Heap, h1: Heap, h2: Heap, h3: Heap, pick: Supply)
    requires h.protect == 0 && AllocMany(PRE_ALLOC, 0, fuel, h.(protect := 1), pick) == Ok(h1.(protect := 1))
    requires Unprotect(0, fuel, h1.(protect := 1), pick) == Ok(h2) && h2.protect == 0
      && SweepCore(fuel, h2) == Ok(h3) && h3.dead != []
    ensures PreAlloc(0, fuel, h, pick) == Ok(h3)
  {
    hide SweepCore, AllocMany, Unprotect;
  }

  lemma PreAllocLoops(fuel: nat, h: Heap, h1: Heap, h2: Heap, pick: Supply)
    requires h.protect == 0 && AllocMany(PRE_ALLOC, 0, fuel, h.(protect := 1), pick) == Ok(h1.(protect := 1))
    requires Unprotect(0, fuel, h1.(protect := 1), pick) == Ok(h2) && h2.protect == 0 && SweepCore(fuel, h2).Loops?
    ensures PreAlloc(0, fuel, h, pick) == Loops
  {
    hide SweepCore, AllocMany, Unprotect;
  }

  lemma CollectTwice(h: Heap, h1: Heap, h2: Heap, h3: Heap)
    requires Inv(h) && Inv(h1) && Inv(h2) && Padded(h, h1) && Collected(h1, h2) && Collected(h2, h3)
    ensures Collected(h, h3)
  {
    PaddedUsed(h, h1);
    CollectedUsed(h1, h2);
    CollectedUsed(h2, h3);
    hide Used;
    forall r | r in h1.active && Used(h, r) ensures r in h.active { OldActive(h, h1, r); }
    OldStays(h, h1);
    hide Inv, Starts, Padded, Collected, Live;
    LiveBack(h, h1, h2, h3);
    Chained(h, h1, h2, h3);
  }

  lemma Chained(h: Heap, h1: Heap, h2: Heap, h3: Heap)
    requires Padded(h, h1) && Collected(h1, h2) && Collected(h2, h3)
    requires forall r :: r in h1.active && Used(h, r) ==> r in h.active
    requires forall r :: r in h.active ==> r in h1.active
    requires forall r :: (Used(h1, r) <==> Used(h, r)) && (Used(h2, r) <==> Used(h, r))
    requires forall r :: r in Live(h3) ==> r in Live(h2) && r in Live(h)
    ensures Collected(h, h3)
  {
    hide Used, Live;
  }

  lemma OldActive(h: Heap, h1: Heap, r: Ref)
    requires Inv(h) && Inv(h1) && h1.perm == h.perm && r in h1.active && Used(h, r)
    ensures r in h.active
  {
    UsedLive(h, r);
    hide Marks, Pointers, Used;
    assert Apart(h1.active, h1.perm);
  }

  lemma OldStays(h: Heap, h1: Heap)
    requires Inv(h) && Padded(h, h1)
    ensures forall r :: r in h.active ==> r in h1.active
  {
    hide Marks, Pointers;
    forall r | r in h.active ensures r in h1.active {
      assert r in Live(h);
      assert r in Live(h1);
      assert Apart(h.active, h.perm);
    }
  }

  lemma LiveBack(h: Heap, h1: Heap, h2: Heap, h3: Heap)
    requires Inv(h) && Collected(h1, h2) && Collected(h2, h3) && h1.perm == h.perm
    requires forall r :: r in h1.active && Used(h, r) ==> r in h.active
    requires forall r :: Used(h1, r) <==> Used(h, r)
    ensures forall r :: r in Live(h3) ==> r in Live(h2) && r in Live(h)
  {
    hide Used, Inv;
  }

  // ---------- sweep ----------

  /** Where the objects nobody uses end up: cells on the dead list, others freed, though the address
      of a freed one may have come back as a spare cell; and what was dead stays dead. */
  ghost predicate Disposed(h: Heap, h': Heap) {
    && (forall r :: r in h.active && r in h.objs && !Used(h, r) ==>
          (h.objs[r].size == h.cell ==> r in h'.dead) && (r in h'.objs ==> r in h'.dead))
    && (forall r :: r in h.dead ==> r in h'.dead)
  }

  lemma CoreDisposes(h: Heap, h': Heap)
    requires Collected(h, h') && Discarded(h, h') && Inv(h) && Inv(h')
    ensures Disposed(h, h')
  {
    hide Used, Marks, Pointers, Distinct;
  }

  /** When the first sweep leaves the dead list empty there was no unused cell, and pre-allocation
      brings nothing else back. */
  lemma PreAllocDisposes(h: Heap, h1: Heap, h2: Heap)
    requires Inv(h) && Discarded(h, h1) && h1.dead == [] && Inv(h2) && Collected(h, h2)
    ensures Disposed(h, h2)
  {
    hide Used, Marks, Pointers, Distinct;
    forall r | r in h.active && r in h.objs && !Used(h, r) && r in h2.objs ensures r in h2.dead {
      assert r !in h2.active && r !in h2.perm;
    }
  }

  /** An unprotected sweep ends with exactly the used objects active, every other one disposed of,
      and a dead list that is not empty, and nests at most once; the only other outcome is that
      marking does not stop. */
  lemma SweepExact(fuel: nat, h: Heap, pick: Supply)
    requires Inv(h) && Fresh(pick) && h.protect == 0
    ensures var r := Sweep(1, fuel, h, pick);
      r.Loops? || (r.Ok? && Inv(r.h) && Collected(h, r.h) && Disposed(h, r.h) && r.h.dead != [])
  {
    hide Used, Inv, Fresh, Collected, Discarded, Disposed, SweepCore, PreAlloc;
    CoreExact(fuel, h);
    var c := SweepCore(fuel, h);
    if c.Ok? && c.h.dead == [] {
      CollectedFlat(h, c.h);
      PreAllocExact(fuel, c.h, pick);
      var d := PreAlloc(0, fuel, c.h, pick);
      if d.Ok? {
        CollectOnTop(h, c.h, d.h);
        PreAllocDisposes(h, c.h, d.h);
      }
    } else if c.Ok? {
      CoreDisposes(h, c.h);
      assert Sweep(1, fuel, h, pick) == c;
    }
  }

  lemma CollectedFlat(h: Heap, h': Heap)
    requires Collected(h, h')
    ensures h'.protect == h.protect
  {
  }

  lemma CollectOnTop(h: Heap, h1: Heap, h2: Heap)
    requires Inv(h) && Inv(h1) && Collected(h, h1) && Collected(h1, h2)
    ensures Collected(h, h2)
  {
    CollectedUsed(h, h1);
    CollectedUsed(h1, h2);
    hide Used, Inv;
  }

  // ---------- how many cells pre-allocation gives ----------

  /** The n new cells of an allocation loop under protection. */
  lemma {:induction false} ManyCells(n: nat, nest: nat, fuel: nat, h: Heap, pick: Supply) returns (cells: set<Ref>)
    requires Inv(h) && Fresh(pick) && h.protect > 0 && h.dead == []
    ensures var r := AllocMany(n, nest, fuel, h, pick);
      && r.Ok? && |cells| == n && cells !! Live(h)
      && (forall q :: q in cells ==> q in r.h.active && q in r.h.objs && r.h.objs[q].size == h.cell)
      && (forall q :: q in r.h.active ==> q in h.active || q in cells)
    decreases n
  {
    hide Inv, Fresh, Take, Taken, Alloc, Live;
    cells := {};
    if n > 0 {
      OneCell(nest, fuel, h, pick);
      var h1 := Take(h, false, h.cell, 0, pick);
      var q := Taken(h, h.cell, pick);
      var more := ManyCells(n - 1, nest, fuel, h1, pick);
      ManyInv(n - 1, nest, fuel, h1, pick);
      var h2 := AllocMany(n - 1, nest, fuel, h1, pick).h;
      assert q in Live(h1) && q in h2.active && h2.objs[q] == h1.objs[q];
      cells := more + {q};
      assert q !in more;
    }
  }

  lemma OneCell(nest: nat, fuel: nat, h: Heap, pick: Supply)
    requires Inv(h) && Fresh(pick) && h.protect > 0 && h.dead == []
    ensures var h1 := Take(h, false, h.cell, 0, pick); var q := Taken(h, h.cell, pick);
      && Alloc(nest, fuel, h, false, h.cell, 0, pick) == Ok(h1) && Inv(h1)
      && h1.protect == h.protect && h1.cell == h.cell && h1.dead == [] && h1.active == [q] + h.active
      && q !in Live(h) && Live(h1) == Live(h) + {q} && q in h1.objs && h1.objs[q].size == h.cell
  {
    AllocProtected(nest, fuel, h, false, h.cell, 0, pick);
    TakeInv(h, false, h.cell, 0, pick);
    hide Inv, Fresh;
  }

  /** Objects on the active list that a sweep would put on the dead list. */
  ghost predicate Spare(h: Heap, r: Ref) { r in h.active && r in h.objs && h.objs[r].size == h.cell && !Used(h, r) }

  /** What the two sweeps after pre-allocation make of the new cells, with every older active object
      in use. */
  lemma NewDie(h: Heap, h1: Heap, h2: Heap, h3: Heap, cells: set<Ref>)
    requires Inv(h) && Inv(h1) && Inv(h2) && Padded(h, h1) && h1.dead == [] && cells !! Live(h)
    requires forall r :: r in h.active ==> Used(h, r)
    requires forall q :: q in cells ==> q in h1.active && q in h1.objs && h1.objs[q].size == h1.cell
    requires forall q :: q in h1.active ==> q in h.active || q in cells
    requires Collected(h1, h2) && Discarded(h1, h2) && Discarded(h2, h3)
    ensures forall q :: q in h3.dead <==> q in cells
  {
    PaddedUsed(h, h1);
    CollectedUsed(h1, h2);
    forall q | q in cells ensures !Used(h1, q) { if Used(h, q) { UsedLive(h, q); } }
    hide Used, Inv;
  }

  lemma DistinctSize(xs: seq<Ref>, s: set<Ref>)
    requires Distinct(xs) && forall q :: q in xs <==> q in s
    ensures |xs| == |s|
    decreases |xs|
  {
    if xs == [] {
      assert s == {};
    } else {
      assert xs == [xs[0]] + xs[1..];
      assert xs[0] !in xs[1..];
      DistinctSize(xs[1..], s - {xs[0]});
    }
  }

  /** Pre-allocation on a heap with nothing to collect ends with its thousand cells dead. */
  lemma PreAllocThousand(fuel: nat, h: Heap, pick: Supply)
    requires Inv(h) && Fresh(pick) && h.protect == 0 && h.dead == [] && forall r :: r in h.active ==> Used(h, r)
    ensures var r := PreAlloc(0, fuel, h, pick); r.Ok? ==> |r.h.dead| == 1000
  {
    var h1, q := PreAllocFirst(0, fuel, h, pick);
    ProtectInv(h, 1);
    var cells := ManyCells(PRE_ALLOC, 0, fuel, h.(protect := 1), pick);
    hide AllocMany, Inv, Used, Padded;
    PaddedUsed(h, h1);
    CoreFills(fuel, h1, q, Live(h));
    CoreExact(fuel, h1);
    var c := SweepCore(fuel, h1);
    assert Unprotect(0, fuel, h1.(protect := 1), pick) == c by { UnprotectSweeps(fuel, h1, pick); }
    if c.Ok? {
      CoreExact(fuel, c.h);
      var d := SweepCore(fuel, c.h);
      if d.Ok? {
        CollectedFlat(h1, c.h);
        NewDie(h, h1, c.h, d.h, cells);
        assert cells != {} by { assert |cells| == 1000; }
        PreAllocIs(fuel, h, h1, c.h, d.h, pick);
        DeadDistinct(d.h);
        DistinctSize(d.h.dead, cells);
      } else {
        assert PreAlloc(0, fuel, h, pick) == Loops by { hide SweepCore; PreAllocLoops(fuel, h, h1, c.h, pick); }
      }
    } else {
      assert PreAlloc(0, fuel, h, pick) == Loops by { hide SweepCore; }
    }
  }

  lemma DeadDistinct(h: Heap)
    requires Inv(h)
    ensures Distinct(h.dead)
  {
  }

  /** An unprotected sweep that finds no dead and no spare cell ends with a thousand dead cells, and
      one that finds any ends with just those. */
  lemma SweepThousand(fuel: nat, h: Heap, pick: Supply)
    requires Inv(h) && Fresh(pick) && h.protect == 0 && Sweep(1, fuel, h, pick).Ok?
    ensures var d := Sweep(1, fuel, h, pick).h.dead;
      if h.dead == [] && forall r :: !Spare(h, r) then |d| == 1000
      else forall r :: r in d <==> r in h.dead || Spare(h, r)
  {
    hide Inv, Fresh, Used, SweepCore, PreAlloc;
    CoreExact(fuel, h);
    var c := SweepCore(fuel, h);
    DeadThere(h, c.h);
    if h.dead != [] { assert h.dead[0] in c.h.dead; }
    if c.h.dead != [] {
      assert c.h.dead[0] in h.dead || Spare(h, c.h.dead[0]);
    } else {
      CollectedUsed(h, c.h);
      CollectedFlat(h, c.h);
      PreAllocThousand(fuel, c.h, pick);
    }
  }

  lemma DeadThere(h: Heap, h': Heap)
    requires Inv(h) && Inv(h') && Discarded(h, h')
    ensures forall r :: r in h'.dead <==> r in h.dead || Spare(h, r)
  {
    hide Used, Marks, Pointers, Distinct;
  }
}
