/** Clients of the collector: every run of allocations, stores, root and protect operations. */
module Mutator {
  import opened Machine
  import opened Marking
  import opened Heaps
  import opened Collection
  import opened Termination

  datatype Command =
    | New(perm: bool, size: nat, fields: nat, slot: Slot)
    | Store(obj: Ref, i: nat, val: Option<Ref>)
    | Assign(slot: Slot, val: Option<Ref>)
    | Register(slot: Slot)
    | Unregister(slot: Slot)
    | Guard
    | Unguard
    | Collect
    | DePerm(obj: Ref)

  /** What a client may do: hand the collector only pointers to objects in use, unregister what it
      registered, and pair its protects. */
  ghost predicate Allowed(cmd: Command, h: Heap) {
    match cmd
    case New(_, _, _, _) => true
    case Store(r, i, v) => r in Live(h) && r in h.objs && i < |h.objs[r].fields| && In(v, Live(h))
    case Assign(s, v) => s in h.roots ==> In(v, Live(h))
    case Register(s) => In(SlotValue(h.slots, s), Live(h))
    case Unregister(s) => s in h.roots
    case Guard => true
    case Unguard => h.protect > 0
    case Collect => true
    case DePerm(r) => r in Live(h)
  }

  /** The first occurrence of x taken out. */
  function Without<T(==)>(xs: seq<T>, x: T): seq<T> {
    if xs == [] then [] else if xs[0] == x then xs[1..] else [xs[0]] + Without(xs[1..], x)
  }

  function Step(fuel: nat, cmd: Command, h: Heap, pick: Supply): Result {
    match cmd
    case New(perm, size, fields, slot) =>
      (match Alloc(1, fuel, h, perm, size, fields, pick)
       case Ok(h1) =>
         var list := if perm then h1.perm else h1.active;
         if list == [] then Assertion else Ok(h1.(slots := h1.slots[slot := Some(list[0])]))
       case r => r)
    case Store(r, i, v) =>
      if r in h.objs
        && i < |h.objs[r].fields| then Ok(h.(objs := h.objs[r := h.objs[r].(fields := h.objs[r].fields[i := v])]))
      else WildPointer
    case Assign(s, v) => Ok(h.(slots := h.slots[s := v]))
    case Register(s) => Ok(h.(roots := [s] + h.roots))
    case Unregister(s) => if s in h.roots then Ok(h.(roots := Without(h.roots, s))) else Assertion
    case Guard => Ok(h.(protect := h.protect + 1))
    case Unguard => Unprotect(1, fuel, h, pick)
    case Collect => Sweep(1, fuel, h, pick)
    case DePerm(r) =>
      if r !in h.objs then WildPointer
      else if h.objs[r].mark != Permanent then Ok(h)
      else Ok(h.(objs := h.objs[r := h.objs[r].(mark := h.mark)], perm := Without(h.perm, r), active := [r] + h.active))
  }

  // ---------- lists without an element ----------

  lemma {:induction false} WithoutElems<T>(xs: seq<T>, x: T)
    ensures forall y :: y in Without(xs, x) ==> y in xs
    ensures forall y :: y in xs && y != x ==> y in Without(xs, x)
    decreases |xs|
  {
    if xs != [] {
      WithoutElems(xs[1..], x);
      assert xs == [xs[0]] + xs[1..];
    }
  }

  lemma {:induction false} WithoutDistinct(xs: seq<Ref>, x: Ref)
    requires Distinct(xs)
    ensures Distinct(Without(xs, x)) && x !in Without(xs, x)
    decreases |xs|
  {
    if xs != [] {
      assert xs == [xs[0]] + xs[1..];
      WithoutElems(xs[1..], x);
      assert Distinct(xs[1..]);
      var rest := Without(xs[1..], x);
      if xs[0] != x {
        WithoutDistinct(xs[1..], x);
        assert xs[0] !in rest;
        assert Without(xs, x) == [xs[0]] + rest;
      } else {
        assert Without(xs, x) == xs[1..];
      }
    }
  }

  // ---------- the plain commands ----------

  ghost predicate SameObjects(h: Heap, h': Heap) {
    h'.objs == h.objs && h'.active == h.active && h'.dead == h.dead && h'.perm == h.perm && h'.mark == h.mark
      && h'.cell == h.cell
  }

  lemma RootsInv(h: Heap, h': Heap)
    requires Inv(h) && SameObjects(h, h')
    requires forall s :: s in h'.roots ==> In(SlotValue(h'.slots, s), Live(h))
    ensures Inv(h') && Live(h') == Live(h)
  {
    assert Live(h') == Live(h);
    forall i | 0 <= i < |RootRefs(h')| ensures In(RootRefs(h')[i], Live(h)) { assert h'.roots[i] in h'.roots; }
  }

  lemma RootIn(h: Heap, s: Slot)
    requires Inv(h) && s in h.roots
    ensures In(SlotValue(h.slots, s), Live(h))
  {
    var i :| 0 <= i < |h.roots| && h.roots[i] == s;
    assert In(RootRefs(h)[i], Live(h));
  }

  lemma StoreInv(h: Heap, r: Ref, i: nat, v: Option<Ref>)
    requires Inv(h) && Allowed(Store(r, i, v), h)
    ensures var h' := h.(objs := h.objs[r := h.objs[r].(fields := h.objs[r].fields[i := v])]);
      Inv(h') && Live(h') == Live(h)
  {
    var h' := h.(objs := h.objs[r := h.objs[r].(fields := h.objs[r].fields[i := v])]);
    assert Lists(h') && Marks(h') by { hide Pointers, Distinct; }
    hide Lists, Marks;
    assert Live(h') == Live(h);
    assert RootRefs(h') == RootRefs(h);
    forall q, j | q in Live(h') && 0 <= j < |h'.objs[q].fields| ensures In(h'.objs[q].fields[j], Live(h')) {
      if !(q == r && j == i) { assert In(h.objs[q].fields[j], Live(h)); }
    }
  }

  lemma MovedMarks(h: Heap, h': Heap, r: Ref)
    requires Lists(h) && Marks(h) && r in h.objs && (forall q :: q in h'.perm ==> q in h.perm && q != r) && r !in h.dead
    requires h' == h.(objs := h.objs[r := h.objs[r].(mark := h.mark)], perm := h'.perm, active := [r] + h.active)
    ensures Marks(h')
  {
    hide Lists;
  }

  lemma MovedLists(h: Heap, h': Heap, r: Ref)
    requires Lists(h) && r in h.perm && r !in h.active && r !in h.dead && Distinct(h'.perm) && Distinct(h'.active)
    requires (forall q :: q in h'.perm ==> q in h.perm && q != r)
      && (forall q :: q in h.perm && q != r ==> q in h'.perm)
    requires h' == h.(objs := h.objs[r := h.objs[r].(mark := h.mark)], perm := h'.perm, active := [r] + h.active)
    ensures Lists(h') && Live(h') == Live(h)
  {
    hide Distinct;
    assert forall q :: q in h'.active <==> q == r || q in h.active;
  }

  lemma DePermLists(h: Heap, r: Ref)
    requires Lists(h) && Marks(h) && r in h.objs && h.objs[r].mark == Permanent
    ensures var h' := h.(objs := h.objs[r := h.objs[r].(mark := h.mark)], perm := Without(h.perm, r),
                         active := [r] + h.active);
      Lists(h') && Marks(h') && Live(h') == Live(h)
  {
    var h' := h.(objs := h.objs[r := h.objs[r].(mark := h.mark)], perm := Without(h.perm, r), active := [r] + h.active);
    WithoutDistinct(h.perm, r);
    WithoutElems(h.perm, r);
    assert r in h.perm && r !in h.active && r !in h.dead;
    hide Without;
    assert Distinct(h'.active);
    hide Distinct;
    MovedMarks(h, h', r);
    MovedLists(h, h', r);
  }

  lemma DePermInv(h: Heap, r: Ref)
    requires Inv(h) && r in h.objs && h.objs[r].mark == Permanent
    ensures var h' := h.(objs := h.objs[r := h.objs[r].(mark := h.mark)], perm := Without(h.perm, r),
                         active := [r] + h.active);
      Inv(h') && Live(h') == Live(h)
  {
    var h' := h.(objs := h.objs[r := h.objs[r].(mark := h.mark)], perm := Without(h.perm, r), active := [r] + h.active);
    DePermLists(h, r);
    hide Lists, Marks;
    assert RootRefs(h') == RootRefs(h);
    forall q, j | q in Live(h') && 0 <= j < |h'.objs[q].fields| ensures In(h'.objs[q].fields[j], Live(h')) {
      assert In(h.objs[q].fields[j], Live(h));
    }
  }

  // ---------- the commands that may collect ----------

  /** What a client can rely on: objects it uses are still there, with their contents. */
  ghost predicate KeepsUsed(h: Heap, h': Heap) {
    forall r :: Used(h, r) ==>
      r in Live(h') && r in h.objs && r in h'.objs && h'.objs[r].fields == h.objs[r].fields
        && h'.objs[r].size == h.objs[r].size
  }

  lemma CollectedKeeps(h: Heap, h': Heap)
    requires Inv(h) && Collected(h, h')
    ensures KeepsUsed(h, h')
  {
    CollectedLive(h, h');
    forall r | Used(h, r) ensures r in Live(h') { UsedLive(h, r); }
    hide Used;
  }

  lemma SameKeeps(h: Heap, h': Heap)
    requires Inv(h) && Live(h) <= Live(h') && forall r :: r in Live(h) ==>
      r in h.objs && r in h'.objs && h'.objs[r].fields == h.objs[r].fields && h'.objs[r].size == h.objs[r].size
    ensures KeepsUsed(h, h')
  {
    forall r | Used(h, r) ensures r in Live(h) { UsedLive(h, r); }
    hide Used;
  }

  lemma SweepSafe(fuel: nat, h: Heap, pick: Supply)
    requires Inv(h) && Fresh(pick)
    ensures var r := Sweep(1, fuel, h, pick); r.Loops? || (r.Ok? && Inv(r.h) && KeepsUsed(h, r.h))
    ensures NoLoop(h.objs) ==> exists f :: Sweep(1, f, h, pick).Ok?
  {
    if h.protect > 0 {
      assert Sweep(1, fuel, h, pick) == Ok(h);
      SameKeeps(h, h);
    } else {
      SweepExact(fuel, h, pick);
      SweepStops(h, pick);
      hide Inv, Used, SweepCore, PreAlloc;
      var r := Sweep(1, fuel, h, pick);
      if r.Ok? { CollectedKeeps(h, r.h); }
    }
  }

  lemma TakeKeeps(h: Heap, perm: bool, size: nat, fields: nat, slot: Slot, pick: Supply)
    requires Inv(h) && Fresh(pick)
    ensures var h1 := Take(h, perm, size, fields, pick); var r := Taken(h, size, pick);
      var h2 := h1.(slots := h1.slots[slot := Some(r)]);
      && Inv(h2) && KeepsUsed(h, h2) && !Used(h, r)
      && r == (if perm then h1.perm[0] else h1.active[0])
  {
    TakeInv(h, perm, size, fields, pick);
    var h1 := Take(h, perm, size, fields, pick);
    var r := Taken(h, size, pick);
    var h2 := h1.(slots := h1.slots[slot := Some(r)]);
    forall s | s in h2.roots ensures In(SlotValue(h2.slots, s), Live(h1)) { if s != slot { RootIn(h1, s); } }
    RootsInv(h1, h2);
    SameKeeps(h, h2);
    if Used(h, r) { UsedLive(h, r); }
  }

  lemma KeepsUsedTrans(h: Heap, h1: Heap, h2: Heap)
    requires KeepsUsed(h, h1) && KeepsUsed(h1, h2) && forall r :: Used(h, r) ==> Used(h1, r)
    ensures KeepsUsed(h, h2)
  {
    hide Used;
  }

  /** Allocation, recycling included, never hands out an object in use. */
  lemma NewSafe(fuel: nat, perm: bool, size: nat, fields: nat, slot: Slot, h: Heap, pick: Supply)
    requires Inv(h) && Fresh(pick)
    ensures var r := Step(fuel, New(perm, size, fields, slot), h, pick);
      r.Loops? || (r.Ok? && Inv(r.h) && KeepsUsed(h, r.h)
        && slot in r.h.slots && r.h.slots[slot].Some? && !Used(h, r.h.slots[slot].value))
  {
    hide Used, Inv, KeepsUsed, Take;
    if size == h.cell && h.dead == [] {
      var r := Sweep(1, fuel, h, pick);
      SweepSafe(fuel, h, pick);
      if r.Ok? {
        SweepUsed(fuel, h, pick);
        TakeKeeps(r.h, perm, size, fields, slot, pick);
        TakeHead(r.h, perm, size, fields, pick);
        var h1 := Take(r.h, perm, size, fields, pick);
        KeepsUsedTrans(h, r.h, h1.(slots := h1.slots[slot := Some(Taken(r.h, size, pick))]));
      }
    } else {
      TakeKeeps(h, perm, size, fields, slot, pick);
      TakeHead(h, perm, size, fields, pick);
    }
  }

  /** From h to h': a new object r heads its list, with null pointers, and the slot holds it. */
  ghost predicate Handed(h: Heap, h': Heap, perm: bool, size: nat, fields: nat, slot: Slot, r: Ref) {
    && h'.objs.Keys == h.objs.Keys + {r} && (forall q :: q in h.objs && q != r ==> h'.objs[q] == h.objs[q])
    && h'.objs[r].size == size && h'.objs[r].mark == (if perm then Permanent else h.mark)
    && |h'.objs[r].fields| == fields && (forall i :: 0 <= i < fields ==> h'.objs[r].fields[i].None?)
    && h'.active == (if perm then h.active else [r] + h.active)
    && h'.perm == (if perm then [r] + h.perm else h.perm)
    && h'.slots == h.slots[slot := Some(r)] && h'.roots == h.roots && h'.protect == h.protect
  }

  /** Where the object r that an allocation hands out comes from, the heap before being h, the heap
      it is taken from h1, and what it leaves of the dead list dead: a cell is the first dead one, and
      where none is dead an unprotected collector collects everything nobody uses before it takes
      one; anything else comes from the C allocator. */
  ghost predicate Source(h: Heap, h1: Heap, size: nat, r: Ref, dead: seq<Ref>) {
    if size == h.cell && h.dead != [] then h1 == h && h.dead == [r] + dead
    else if size == h.cell && h.protect == 0 then
      Inv(h1) && Collected(h, h1) && Disposed(h, h1) && h1.dead == [r] + dead
    else h1 == h && r !in h.objs && dead == h.dead
  }

  /** Allocation collects when it has no cell left, recycles the first dead cell, and puts the new
      object at the head of its list. */
  lemma NewExact(fuel: nat, perm: bool, size: nat, fields: nat, slot: Slot, h: Heap, pick: Supply)
    returns (h1: Heap, r: Ref)
    requires Inv(h) && Fresh(pick) && Step(fuel, New(perm, size, fields, slot), h, pick).Ok?
    ensures var h2 := Step(fuel, New(perm, size, fields, slot), h, pick).h;
      Source(h, h1, size, r, h2.dead) && Handed(h1, h2, perm, size, fields, slot, r)
  {
    hide Inv, Fresh, Collected, Disposed, SweepCore, PreAlloc;
    h1 := h;
    if size == h.cell && h.dead == [] {
      if h.protect == 0 { SweepExact(fuel, h, pick); }
      h1 := Sweep(1, fuel, h, pick).h;
      if h.protect == 0 { CollectedFlat(h, h1); CollectedCell(h, h1); }
    }
    r := Taken(h1, size, pick);
    hide Sweep;
    TakeHanded(h1, perm, size, fields, slot, pick);
  }

  lemma CollectedCell(h: Heap, h1: Heap)
    requires Collected(h, h1)
    ensures h1.cell == h.cell
  {
  }

  lemma TakeHanded(h: Heap, perm: bool, size: nat, fields: nat, slot: Slot, pick: Supply)
    requires Fresh(pick)
    ensures var h1 := Take(h, perm, size, fields, pick); var r := Taken(h, size, pick);
      && (if perm then h1.perm else h1.active) != [] && (if perm then h1.perm else h1.active)[0] == r
      && Handed(h, h1.(slots := h1.slots[slot := Some(r)]), perm, size, fields, slot, r)
      && (if size == h.cell && h.dead != [] then h.dead == [r] + h1.dead else r !in h.objs && h1.dead == h.dead)
  {
  }

  lemma TakeHead(h: Heap, perm: bool, size: nat, fields: nat, pick: Supply)
    ensures var h1 := Take(h, perm, size, fields, pick); (if perm then h1.perm else h1.active) != []
  {
  }

  lemma SweepUsed(fuel: nat, h: Heap, pick: Supply)
    requires Inv(h) && Fresh(pick) && Sweep(1, fuel, h, pick).Ok?
    ensures forall r :: Used(h, r) <==> Used(Sweep(1, fuel, h, pick).h, r)
  {
    hide Used, Inv, SweepCore, PreAlloc;
    if h.protect == 0 {
      SweepExact(fuel, h, pick);
      CollectedUsed(h, Sweep(1, fuel, h, pick).h);
    }
  }

  // ---------- every command, every run ----------

  ghost predicate Safe(cmd: Command, h: Heap, r: Result) {
    r.Loops? || (r.Ok? && Inv(r.h) && (cmd.Store? || KeepsUsed(h, r.h)))
  }

  /** No command makes an assertion of the collector fail, marks through freed memory or nests
      sweeps more than once, and none but a store changes an object in use. */
  lemma StepSafe(fuel: nat, cmd: Command, h: Heap, pick: Supply)
    requires Inv(h) && Fresh(pick) && Allowed(cmd, h)
    ensures Safe(cmd, h, Step(fuel, cmd, h, pick))
  {
    match cmd
    case New(perm, size, fields, slot) =>
      hide Used, Inv, KeepsUsed, Step;
      NewSafe(fuel, perm, size, fields, slot, h, pick);
    case Store(r, i, v) => StoreInv(h, r, i, v);
    case Assign(s, v) => PlainSafe(fuel, cmd, h, pick);
    case Register(s) => PlainSafe(fuel, cmd, h, pick);
    case Unregister(s) => PlainSafe(fuel, cmd, h, pick);
    case Guard => PlainSafe(fuel, cmd, h, pick);
    case Unguard => UnguardSafe(fuel, h, pick);
    case Collect => hide Used, Inv, KeepsUsed, Sweep; SweepSafe(fuel, h, pick);
    case DePerm(r) => DePermSafe(fuel, h, r, pick);
  }

  lemma PlainSafe(fuel: nat, cmd: Command, h: Heap, pick: Supply)
    requires Inv(h) && Allowed(cmd, h) && (cmd.Assign? || cmd.Register? || cmd.Unregister? || cmd.Guard?)
    ensures Safe(cmd, h, Step(fuel, cmd, h, pick))
  {
    var h' := Step(fuel, cmd, h, pick).h;
    if cmd.Unregister? { WithoutElems(h.roots, cmd.slot); }
    forall s | s in h'.roots ensures In(SlotValue(h'.slots, s), Live(h)) { if s in h.roots { RootIn(h, s); } }
    RootsInv(h, h');
    SameKeeps(h, h');
  }

  lemma UnguardSafe(fuel: nat, h: Heap, pick: Supply)
    requires Inv(h) && Fresh(pick) && h.protect > 0
    ensures Safe(Unguard, h, Unprotect(1, fuel, h, pick))
  {
    hide Used, Inv, Sweep, KeepsUsed;
    var h1 := h.(protect := h.protect - 1);
    GuardKeeps(h, h.protect - 1);
    SweepSafe(fuel, h1, pick);
    var r := Sweep(1, fuel, h1, pick);
    if r.Ok? { KeepsUsedTrans(h, h1, r.h); }
  }

  lemma GuardKeeps(h: Heap, n: nat)
    requires Inv(h)
    ensures var h1 := h.(protect := n); Inv(h1) && KeepsUsed(h, h1) && forall r :: Used(h, r) ==> Used(h1, r)
  {
    var h1 := h.(protect := n);
    ProtectInv(h, n);
    assert forall r :: Used(h, r) ==> Used(h1, r) by { hide Inv, Reachable; }
    hide Used;
    SameKeeps(h, h1);
  }

  lemma DePermSafe(fuel: nat, h: Heap, r: Ref, pick: Supply)
    requires Inv(h) && r in Live(h)
    ensures Safe(DePerm(r), h, Step(fuel, DePerm(r), h, pick))
  {
    var h' := Step(fuel, DePerm(r), h, pick).h;
    if h.objs[r].mark == Permanent { DePermInv(h, r); }
    SameKeeps(h, h');
  }

  function Run(fuel: nat, cmds: seq<Command>, h: Heap, pick: Supply): Result {
    if cmds == [] then Ok(h)
    else match Step(fuel, cmds[0], h, pick)
      case Ok(h1) => Run(fuel, cmds[1..], h1, pick)
      case r => r
  }

  ghost predicate AllowedRun(fuel: nat, cmds: seq<Command>, h: Heap, pick: Supply) {
    cmds == [] || (Allowed(cmds[0], h)
      && (Step(fuel, cmds[0], h, pick).Ok? ==> AllowedRun(fuel, cmds[1..], Step(fuel, cmds[0], h, pick).h, pick)))
  }

  /** Run safety: over every run of allowed commands the three lists stay disjoint, free of
      repetition and together the whole heap, active objects carry the current mark, pointers in
      use lead to objects in use, and no assertion fails. */
  lemma {:induction false} RunSafe(fuel: nat, cmds: seq<Command>, h: Heap, pick: Supply)
    requires Inv(h) && Fresh(pick) && AllowedRun(fuel, cmds, h, pick)
    ensures var r := Run(fuel, cmds, h, pick); r.Loops? || (r.Ok? && Inv(r.h))
    decreases |cmds|
  {
    hide Inv, Fresh, Step, Allowed, KeepsUsed;
    if cmds != [] {
      StepSafe(fuel, cmds[0], h, pick);
      if Step(fuel, cmds[0], h, pick).Ok? { RunSafe(fuel, cmds[1..], Step(fuel, cmds[0], h, pick).h, pick); }
    }
  }

  // ---------- runs that stop ----------

  /** Without a permanent cycle every command stops. */
  lemma StepStops(cmd: Command, h: Heap, pick: Supply) returns (fuel: nat)
    requires Inv(h) && Fresh(pick) && Allowed(cmd, h) && NoLoop(h.objs)
    ensures Step(fuel, cmd, h, pick).Ok?
  {
    fuel := 0;
    var h1 := if cmd.Unguard? then h.(protect := h.protect - 1) else h;
    ProtectInv(h, h1.protect);
    hide Inv, Fresh, Sweep, NoLoop, Take;
    if cmd.New? || cmd.Unguard? || cmd.Collect? {
      SweepSafe(0, h1, pick);
      fuel :| Sweep(1, fuel, h1, pick).Ok?;
    }
    if cmd.New? { NewStops(fuel, cmd, h, pick); }
    if cmd.Store? || cmd.DePerm? { LiveObject(h, cmd.obj); }
  }

  lemma LiveObject(h: Heap, r: Ref)
    requires Inv(h)
    ensures r in Live(h) ==> r in h.objs
  {
  }

  lemma NewStops(fuel: nat, cmd: Command, h: Heap, pick: Supply)
    requires cmd.New? && Sweep(1, fuel, h, pick).Ok?
    ensures Step(fuel, cmd, h, pick).Ok?
  {
    hide Sweep, Take;
    TakeHead(h, cmd.perm, cmd.size, cmd.fields, pick);
    TakeHead(Sweep(1, fuel, h, pick).h, cmd.perm, cmd.size, cmd.fields, pick);
  }

  lemma StepFuel(f: nat, g: nat, cmd: Command, h: Heap, pick: Supply)
    requires f <= g && Step(f, cmd, h, pick).Ok?
    ensures Step(g, cmd, h, pick) == Step(f, cmd, h, pick)
  {
    hide Alloc, Unprotect, Sweep;
    match cmd
    case New(perm, size, fields, slot) => AllocFuel(1, f, g, h, perm, size, fields, pick);
    case Unguard => UnprotectFuel(1, f, g, h, pick);
    case Collect => SweepFuel(1, f, g, h, pick);
    case _ =>
  }

  /** A client that allocates nothing permanent, as every caller in the system does. */
  predicate Ordinary(cmds: seq<Command>) { forall i :: 0 <= i < |cmds| ==> cmds[i].New? ==> !cmds[i].perm }

  lemma NoPermanentNoLoop(h: Heap)
    requires Inv(h) && h.perm == []
    ensures NoLoop(h.objs)
  {
    hide Pointers;
    forall s: set<Ref> ensures !PermanentLoop(h.objs, s) {}
  }

  lemma SweepNoPermanent(fuel: nat, h: Heap, pick: Supply)
    requires Inv(h) && Fresh(pick) && h.perm == [] && Sweep(1, fuel, h, pick).Ok?
    ensures Sweep(1, fuel, h, pick).h.perm == []
  {
    hide Inv, Fresh, Used, SweepCore, PreAlloc;
    if h.protect == 0 { SweepExact(fuel, h, pick); }
  }

  lemma StepNoPermanent(fuel: nat, cmd: Command, h: Heap, pick: Supply)
    requires Inv(h) && Fresh(pick) && h.perm == [] && (cmd.New? ==> !cmd.perm) && Step(fuel, cmd, h, pick).Ok?
    ensures Step(fuel, cmd, h, pick).h.perm == []
  {
    var h1 := if cmd.Unguard? && h.protect > 0 then h.(protect := h.protect - 1) else h;
    ProtectInv(h, h1.protect);
    hide Inv, Fresh, Sweep;
    if Sweep(1, fuel, h1, pick).Ok? { SweepNoPermanent(fuel, h1, pick); }
  }

  /** Every run of such a client, from any consistent heap, comes to its end. */
  lemma {:induction false} RunStops(cmds: seq<Command>, h: Heap, pick: Supply) returns (fuel: nat)
    requires Inv(h) && Fresh(pick) && h.perm == [] && Ordinary(cmds) && forall f: nat :: AllowedRun(f, cmds, h, pick)
    ensures Run(fuel, cmds, h, pick).Ok? && Inv(Run(fuel, cmds, h, pick).h)
    decreases |cmds|
  {
    fuel := 0;
    hide Inv, Fresh, Step, Allowed, KeepsUsed, NoLoop;
    if cmds != [] {
      NoPermanentNoLoop(h);
      assert AllowedRun(0, cmds, h, pick);
      var f := StepStops(cmds[0], h, pick);
      StepSafe(f, cmds[0], h, pick);
      StepNoPermanent(f, cmds[0], h, pick);
      var h1 := Step(f, cmds[0], h, pick).h;
      forall g: nat ensures AllowedRun(g, cmds[1..], h1, pick) { RestAllowed(f, g, cmds, h, pick); }
      var g := RunStops(cmds[1..], h1, pick);
      fuel := if f < g then g else f;
      StepFuel(f, fuel, cmds[0], h, pick);
      RunFuel(g, fuel, cmds[1..], h1, pick);
    }
  }

  lemma {:induction false} RunFuel(f: nat, g: nat, cmds: seq<Command>, h: Heap, pick: Supply)
    requires f <= g && Run(f, cmds, h, pick).Ok?
    ensures Run(g, cmds, h, pick) == Run(f, cmds, h, pick)
    decreases |cmds|
  {
    hide Step;
    if cmds != [] {
      StepFuel(f, g, cmds[0], h, pick);
      RunFuel(f, g, cmds[1..], Step(f, cmds[0], h, pick).h, pick);
    }
  }

  /** Being allowed does not depend on the fuel once the first command has stopped. */
  lemma RestAllowed(f: nat, g: nat, cmds: seq<Command>, h: Heap, pick: Supply)
    requires cmds != [] && Step(f, cmds[0], h, pick).Ok? && forall e: nat :: AllowedRun(e, cmds, h, pick)
    ensures AllowedRun(g, cmds[1..], Step(f, cmds[0], h, pick).h, pick)
  {
    hide Step, Allowed;
    var h1 := Step(f, cmds[0], h, pick).h;
    var m := if f < g then g else f;
    StepFuel(f, m, cmds[0], h, pick);
    assert AllowedRun(m, cmds, h, pick);
    AllowedLess(g, m, cmds[1..], h1, pick);
  }

  lemma {:induction false} AllowedLess(g: nat, m: nat, cmds: seq<Command>, h: Heap, pick: Supply)
    requires g <= m && AllowedRun(m, cmds, h, pick)
    ensures AllowedRun(g, cmds, h, pick)
    decreases |cmds|
  {
    hide Step, Allowed;
    if cmds != [] && Step(g, cmds[0], h, pick).Ok? {
      StepFuel(g, m, cmds[0], h, pick);
      AllowedLess(g, m, cmds[1..], Step(g, cmds[0], h, pick).h, pick);
    }
  }

  function Created(cell: nat): Heap { Heap(map[], [], [], [], [], map[], 0, Red, cell) }

  lemma CreatedInv(cell: nat)
    ensures Inv(Created(cell))
  {
    assert RootRefs(Created(cell)) == [];
  }

  // ---------- a run that does not stop ----------

  /** A permanent object that points to itself. */
  function Cycle(cell: nat, pick: Supply): Heap {
    var r := pick({});
    Heap(map[r := Obj(Permanent, cell + 1, [Some(r)])], [], [], [r], [], map[0 := Some(r)], 0, Red, cell)
  }

  /** Two allowed commands make one: a permanent allocation and a store of the object into itself.
      After them a collection goes on for ever. */
  lemma PermanentCycleHangs(cell: nat, pick: Supply) returns (cmds: seq<Command>, h: Heap)
    requires Fresh(pick)
    ensures forall fuel: nat ::
      AllowedRun(fuel, cmds, Created(cell), pick) && Run(fuel, cmds, Created(cell), pick) == Ok(h)
    ensures Inv(h) && !NoLoop(h.objs) && forall fuel: nat :: Step(fuel, Collect, h, pick) == Loops
  {
    var r := pick({});
    cmds := [New(true, cell + 1, 1, 0), Store(r, 0, Some(r))];
    h := Cycle(cell, pick);
    CycleMade(cell, pick, cmds);
    CycleInv(cell, pick);
    hide Inv, Fresh, SweepCore, PreAlloc, Cycle;
    forall fuel: nat ensures Step(fuel, Collect, h, pick) == Loops { CoreLoops(fuel, h, {r}); }
  }

  lemma CycleInv(cell: nat, pick: Supply)
    ensures var h := Cycle(cell, pick); Inv(h) && PermanentLoop(h.objs, {pick({})}) && !NoLoop(h.objs) && h.protect == 0
  {
    var h, r := Cycle(cell, pick), pick({});
    assert h.objs[r].fields[0] == Some(r);
    assert PermanentLoop(h.objs, {r});
    assert RootRefs(h) == [];
    assert Live(h) == {r};
  }

  lemma CycleMade(cell: nat, pick: Supply, cmds: seq<Command>)
    requires Fresh(pick) && cmds == [New(true, cell + 1, 1, 0), Store(pick({}), 0, Some(pick({})))]
    ensures forall fuel: nat ::
      AllowedRun(fuel, cmds, Created(cell), pick) && Run(fuel, cmds, Created(cell), pick) == Ok(Cycle(cell, pick))
  {
    var r := pick({});
    var h1 := Heap(map[r := Obj(Permanent, cell + 1, [None])], [], [], [r], [], map[0 := Some(r)], 0, Red, cell);
    forall fuel: nat
      ensures AllowedRun(fuel, cmds, Created(cell), pick)
      ensures Run(fuel, cmds, Created(cell), pick) == Ok(Cycle(cell, pick))
    {
      FirstMade(fuel, cell, pick);
      var nulls: seq<Option<Ref>> := [None];
      assert nulls[0 := Some(r)] == [Some(r)];
      assert h1.objs[r := h1.objs[r].(fields := [Some(r)])] == Cycle(cell, pick).objs;
      assert Step(fuel, cmds[1], h1, pick) == Ok(Cycle(cell, pick));
      assert cmds[1..] == [cmds[1]] && cmds[1..][1..] == [];
      assert Run(fuel, [], Cycle(cell, pick), pick) == Ok(Cycle(cell, pick));
      assert Run(fuel, cmds[1..], h1, pick) == Ok(Cycle(cell, pick));
      assert r in Live(h1);
      assert AllowedRun(fuel, [], Cycle(cell, pick), pick);
      assert AllowedRun(fuel, cmds[1..], h1, pick);
    }
  }

  lemma FirstMade(fuel: nat, cell: nat, pick: Supply)
    ensures var r := pick({});
      Step(fuel, New(true, cell + 1, 1, 0), Created(cell), pick)
        == Ok(Heap(map[r := Obj(Permanent, cell + 1, [None])], [], [], [r], [], map[0 := Some(r)], 0, Red, cell))
  {
    var h := Created(cell);
    assert h.objs.Keys == {};
    var nulls: seq<Option<Ref>> := seq(1, _ => None);
    assert nulls == [None];
    assert Alloc(1, fuel, h, true, cell + 1, 1, pick) == Ok(Take(h, true, cell + 1, 1, pick));
  }
}
