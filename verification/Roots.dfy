/** What a client gets from roots, protection and permanence: what a registered slot holds survives
    every collection, nothing is collected between a protect and its unprotect, and an object that
    is no longer permanent is collected once nobody uses it. */
module Roots {
  import opened Machine
  import opened Marking
  import opened Heaps
  import opened Collection
  import opened Mutator

  // ---------- registered slots ----------

  ghost predicate Rooted(h: Heap, s: Slot, r: Ref) { s in h.roots && SlotValue(h.slots, s) == Some(r) }

  lemma RootedUsed(h: Heap, s: Slot, r: Ref)
    requires Inv(h) && Rooted(h, s, r)
    ensures Used(h, r) && r in Live(h)
  {
    assert r in Starts(h);
    assert IsPath(h.objs, [r]) by { RootIn(h, s); }
    assert [r][0] in Starts(h) && [r][|[r]| - 1] == r;
    UsedLive(h, r);
  }

  lemma RegisterRoots(fuel: nat, s: Slot, r: Ref, h: Heap, pick: Supply)
    requires SlotValue(h.slots, s) == Some(r)
    ensures Step(fuel, Register(s), h, pick).Ok? && Rooted(Step(fuel, Register(s), h, pick).h, s, r)
  {
  }

  lemma AssignRoots(fuel: nat, s: Slot, r: Ref, h: Heap, pick: Supply)
    requires s in h.roots
    ensures var o := Step(fuel, Assign(s, Some(r)), h, pick);
      o.Ok? && Rooted(o.h, s, r) && forall t, q :: t != s && Rooted(h, t, q) ==> Rooted(o.h, t, q)
  {
  }

  /** A command that neither unregisters slot s nor puts something else into it. */
  predicate Leaves(cmd: Command, s: Slot) {
    match cmd
    case Unregister(t) => t != s
    case Assign(t, _) => t != s
    case New(_, _, _, t) => t != s
    case _ => true
  }

  lemma StepRooted(fuel: nat, cmd: Command, h: Heap, pick: Supply, s: Slot, r: Ref)
    requires Inv(h) && Fresh(pick) && Allowed(cmd, h) && Leaves(cmd, s) && Rooted(h, s, r)
    requires Step(fuel, cmd, h, pick).Ok?
    ensures Rooted(Step(fuel, cmd, h, pick).h, s, r)
  {
    match cmd
    case New(perm, size, fields, slot) =>
      hide Step, Inv, Fresh, Disposed;
      var h1, q := NewExact(fuel, perm, size, fields, slot, h, pick);
    case Unregister(t) => WithoutElems(h.roots, t);
    case Unguard =>
      ProtectInv(h, h.protect - 1);
      hide Inv, Fresh;
      if h.protect == 1 && h.dead == [] { SweepRoots(fuel, h.(protect := 0), pick); }
    case Collect =>
      hide Inv, Fresh;
      SweepRoots(fuel, h, pick);
    case _ =>
  }

  lemma SweepRoots(fuel: nat, h: Heap, pick: Supply)
    requires Inv(h) && Fresh(pick) && Sweep(1, fuel, h, pick).Ok?
    ensures var h1 := Sweep(1, fuel, h, pick).h; h1.roots == h.roots && h1.slots == h.slots && h1.protect == h.protect
  {
    hide Inv, Fresh, SweepCore, PreAlloc, Used, Disposed;
    if h.protect == 0 { SweepExact(fuel, h, pick); }
  }

  /** A command that does not store into object r. */
  predicate Spares(cmd: Command, r: Ref) { cmd.Store? ==> cmd.obj != r }

  ghost predicate SameThing(h: Heap, h': Heap, r: Ref) {
    r in h.objs && r in h'.objs && h'.objs[r].fields == h.objs[r].fields && h'.objs[r].size == h.objs[r].size
  }

  lemma StepKeeps(fuel: nat, cmd: Command, h: Heap, pick: Supply, r: Ref)
    requires Inv(h) && Fresh(pick) && Allowed(cmd, h) && Used(h, r) && Spares(cmd, r) && Step(fuel, cmd, h, pick).Ok?
    ensures SameThing(h, Step(fuel, cmd, h, pick).h, r)
  {
    hide Used;
    StepSafe(fuel, cmd, h, pick);
    if cmd.Store? {
      UsedLive(h, r);
      hide Inv, Fresh;
      LiveObject(h, r);
    } else {
      hide Inv, Fresh, Step;
    }
  }

  /** What a registered slot holds survives every run that leaves the slot alone, collections
      included: the object stays in use, and keeps its contents unless the client stores into it. */
  lemma {:induction false} RunRooted(fuel: nat, cmds: seq<Command>, h: Heap, pick: Supply, s: Slot, r: Ref)
    requires Inv(h) && Fresh(pick) && AllowedRun(fuel, cmds, h, pick) && Run(fuel, cmds, h, pick).Ok?
    requires Rooted(h, s, r) && forall i :: 0 <= i < |cmds| ==> Leaves(cmds[i], s)
    ensures var h' := Run(fuel, cmds, h, pick).h;
      && Rooted(h', s, r) && Used(h', r) && r in Live(h')
      && ((forall i :: 0 <= i < |cmds| ==> Spares(cmds[i], r)) ==> SameThing(h, h', r))
    decreases |cmds|
  {
    RootedUsed(h, s, r);
    LiveObject(h, r);
    hide Inv, Fresh, Step, Allowed, Used, Rooted, Leaves, Spares;
    if cmds != [] {
      StepSafe(fuel, cmds[0], h, pick);
      StepRooted(fuel, cmds[0], h, pick, s, r);
      var h1 := Step(fuel, cmds[0], h, pick).h;
      forall i | 0 <= i < |cmds[1..]| ensures Leaves(cmds[1..][i], s) { assert cmds[1..][i] == cmds[i + 1]; }
      RunRooted(fuel, cmds[1..], h1, pick, s, r);
      if forall i :: 0 <= i < |cmds| ==> Spares(cmds[i], r) {
        StepKeeps(fuel, cmds[0], h, pick, r);
        forall i | 0 <= i < |cmds[1..]| ensures Spares(cmds[1..][i], r) { assert cmds[1..][i] == cmds[i + 1]; }
      }
    }
  }

  /** Unregistering takes one registration of the slot away and leaves the others. */
  lemma UnregisterOne(fuel: nat, s: Slot, h: Heap, pick: Supply)
    requires s in h.roots
    ensures var o := Step(fuel, Unregister(s), h, pick);
      o.Ok? && multiset(o.h.roots) == multiset(h.roots) - multiset{s} && o.h.slots == h.slots
  {
    WithoutOne(h.roots, s);
  }

  lemma {:induction false} WithoutOne(xs: seq<Slot>, x: Slot)
    requires x in xs
    ensures multiset(Without(xs, x)) == multiset(xs) - multiset{x}
    decreases |xs|
  {
    assert xs == [xs[0]] + xs[1..];
    if xs[0] != x { WithoutOne(xs[1..], x); }
  }

  // ---------- protection ----------

  /** Between d protects and the end of cmds there is never an unprotect too many. */
  predicate StaysGuarded(d: nat, cmds: seq<Command>)
    decreases |cmds|
  {
    d > 0 && (cmds == []
      || StaysGuarded(if cmds[0].Guard? then d + 1 else if cmds[0].Unguard? then d - 1 else d, cmds[1..]))
  }

  lemma StepGuarded(fuel: nat, cmd: Command, h: Heap, pick: Supply)
    requires Inv(h) && Fresh(pick) && Allowed(cmd, h) && h.protect > 0 && Step(fuel, cmd, h, pick).Ok?
    requires cmd.Unguard? ==> h.protect > 1
    ensures var h' := Step(fuel, cmd, h, pick).h;
      && h'.protect == (if cmd.Guard? then h.protect + 1 else if cmd.Unguard? then h.protect - 1 else h.protect)
      && Live(h) <= Live(h') && forall r :: r in Live(h) && Spares(cmd, r) ==> SameThing(h, h', r)
  {
    forall r | r in Live(h) ensures r in h.objs { LiveObject(h, r); }
    match cmd
    case New(perm, size, fields, slot) =>
      var h1, q := NewExact(fuel, perm, size, fields, slot, h, pick);
      hide Step;
      assert h1 == h;
      if size == h.cell && h.dead != [] { assert q in h.dead; DeadApart(h, q); }
      hide Inv, Fresh, Source;
    case DePerm(r) => if h.objs[r].mark == Permanent { DePermInv(h, r); }
    case _ => hide Inv, Fresh;
  }

  lemma DeadApart(h: Heap, q: Ref)
    requires Inv(h) && q in h.dead
    ensures q !in Live(h)
  {
  }

  /** Nothing is collected between a protect and the unprotect that pairs with it, in use or not. */
  lemma {:induction false} RunGuarded(fuel: nat, cmds: seq<Command>, h: Heap, pick: Supply)
    requires Inv(h) && Fresh(pick) && AllowedRun(fuel, cmds, h, pick) && Run(fuel, cmds, h, pick).Ok?
    requires StaysGuarded(h.protect, cmds)
    ensures var h' := Run(fuel, cmds, h, pick).h;
      && Live(h) <= Live(h')
      && forall r :: r in Live(h) && (forall i :: 0 <= i < |cmds| ==> Spares(cmds[i], r)) ==> SameThing(h, h', r)
    decreases |cmds|
  {
    forall r | r in Live(h) ensures r in h.objs { LiveObject(h, r); }
    hide Inv, Fresh, Step, Allowed, Live, Spares;
    if cmds != [] {
      GuardedNext(h.protect, cmds);
      StepSafe(fuel, cmds[0], h, pick);
      StepGuarded(fuel, cmds[0], h, pick);
      var h1 := Step(fuel, cmds[0], h, pick).h;
      RunGuarded(fuel, cmds[1..], h1, pick);
      var h' := Run(fuel, cmds, h, pick).h;
      forall r | r in Live(h) && (forall i :: 0 <= i < |cmds| ==> Spares(cmds[i], r)) ensures SameThing(h, h', r) {
        assert Spares(cmds[0], r);
        forall i | 0 <= i < |cmds[1..]| ensures Spares(cmds[1..][i], r) { assert cmds[1..][i] == cmds[i + 1]; }
      }
    }
  }

  lemma GuardedNext(d: nat, cmds: seq<Command>)
    requires StaysGuarded(d, cmds) && cmds != []
    ensures d > 0 && (cmds[0].Unguard? ==> d > 1)
    ensures StaysGuarded(if cmds[0].Guard? then d + 1 else if cmds[0].Unguard? then d - 1 else d, cmds[1..])
  {
  }

  /** A protect starts such a stretch from any heap. */
  lemma GuardHolds(fuel: nat, cmds: seq<Command>, h: Heap, pick: Supply)
    requires Inv(h) && Fresh(pick) && AllowedRun(fuel, [Guard] + cmds, h, pick)
    requires Run(fuel, [Guard] + cmds, h, pick).Ok? && StaysGuarded(1, cmds)
    ensures Live(h) <= Live(Run(fuel, [Guard] + cmds, h, pick).h)
  {
    var h1 := Step(fuel, Guard, h, pick).h;
    assert ([Guard] + cmds)[1..] == cmds;
    ProtectInv(h, h.protect + 1);
    GuardedMore(1, h.protect + 1, cmds);
    RunGuarded(fuel, cmds, h1, pick);
  }

  lemma {:induction false} GuardedMore(d: nat, e: nat, cmds: seq<Command>)
    requires StaysGuarded(d, cmds) && d <= e
    ensures StaysGuarded(e, cmds)
    decreases |cmds|
  {
    if cmds != [] {
      GuardedNext(d, cmds);
      GuardedMore(if cmds[0].Guard? then d + 1 else if cmds[0].Unguard? then d - 1 else d,
                  if cmds[0].Guard? then e + 1 else if cmds[0].Unguard? then e - 1 else e, cmds[1..]);
    }
  }

  /** The last unprotect collects if no cell is dead; every other one only counts. */
  lemma UnguardExact(fuel: nat, h: Heap, pick: Supply)
    requires Inv(h) && Fresh(pick) && h.protect > 0 && Step(fuel, Unguard, h, pick).Ok?
    ensures var h0 := h.(protect := h.protect - 1); var h' := Step(fuel, Unguard, h, pick).h;
      if h.protect == 1 && h.dead == [] then Collected(h0, h') && Disposed(h0, h') && h'.dead != [] else h' == h0
  {
    hide Inv, Fresh, Collected, Disposed, Sweep;
    var h0 := h.(protect := h.protect - 1);
    ProtectInv(h, h.protect - 1);
    if h.protect == 1 { SweepExact(fuel, h0, pick); }
  }

  // ---------- objects that are no longer permanent ----------

  /** An object loses its permanence and nothing else. */
  lemma DePermMoves(fuel: nat, r: Ref, h: Heap, pick: Supply)
    requires Inv(h) && r in h.perm
    ensures var o := Step(fuel, DePerm(r), h, pick);
      && o.Ok? && Inv(o.h) && r in o.h.active && r !in o.h.perm && Live(o.h) == Live(h) && SameThing(h, o.h, r)
      && (forall q :: q in h.perm && q != r ==> q in o.h.perm) && o.h.protect == h.protect && o.h.cell == h.cell
  {
    PermThere(h, r);
    DePermInv(h, r);
    WithoutElems(h.perm, r);
    PermDistinct(h);
    WithoutDistinct(h.perm, r);
    hide Inv, Live;
  }

  /** If nobody uses it, the next collection takes it back. */
  lemma DePermCollected(fuel: nat, r: Ref, h: Heap, pick: Supply)
    requires Inv(h) && Fresh(pick) && r in h.perm && h.protect == 0
    ensures var o := Step(fuel, DePerm(r), h, pick); o.Ok?
    ensures var h1 := Step(fuel, DePerm(r), h, pick).h; var c := Step(fuel, Collect, h1, pick);
      c.Ok? && !Used(h1, r) ==>
        && r !in Live(c.h) && (r in c.h.objs ==> r in c.h.dead) && (h.objs[r].size == h.cell ==> r in c.h.dead)
  {
    hide Inv, Fresh, Used, Sweep, Disposed, Without;
    PermThere(h, r);
    DePermMoves(fuel, r, h, pick);
    var h1 := Step(fuel, DePerm(r), h, pick).h;
    SweepExact(fuel, h1, pick);
    if Sweep(1, fuel, h1, pick).Ok? && !Used(h1, r) { Unused(h1, Sweep(1, fuel, h1, pick).h, r); }
  }

  lemma Unused(h: Heap, h': Heap, r: Ref)
    requires Inv(h) && Collected(h, h') && Disposed(h, h') && r in h.active && !Used(h, r)
    ensures r in h.objs && r !in Live(h') && (h.objs[r].size == h.cell ==> r in h'.dead)
    ensures r in h'.objs ==> r in h'.dead
  {
    hide Used, Marks, Pointers, Distinct;
  }

  lemma PermThere(h: Heap, r: Ref)
    requires Inv(h) && r in h.perm
    ensures r in h.objs && h.objs[r].mark == Permanent
  {
  }

  lemma PermDistinct(h: Heap)
    requires Inv(h)
    ensures Distinct(h.perm)
  {
  }
}
