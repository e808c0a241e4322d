/** call/cc: the preamble routine that drains the stack into a list and refills it, run on the
    machine, and the captured continuation as something that can be invoked any number of times. */
module CallCc {
  import opened Machine
  import opened Runs
  import opened Code
  import opened Stages
  import Emit

  function Sym(x: string): Item { Emit.Put(LitSymbol(x)) }
  function Num(i: int): Item { Emit.Put(LitFixnum(i)) }
  function To(k: JumpKind, l: string): Item { Ins(Jump(k, Named(l))) }
  function Label(l: string): Item { Mark(Named(l)) }

  const STACK_SAVE := "stack-save"
  const RET_VAL := "ret-val"
  const RETURN := "return"
  const PROC := "proc"

  const EXIT := 27
  const ENTRY := 33
  const AFTER := 62
  const SIZE := 65

  /** scheme-call-cc-return and scheme-call-cc-empty: drop everything, fetch the saved list. */
  ghost predicate EmptyPart(code: seq<Item>, b: int)
    requires 0 <= b && b + SIZE <= |code|
  {
    && code[b + 0] == Label("scheme-call-cc-return") && code[b + 1] == Label("scheme-call-cc-empty")
    && code[b + 2] == Emit.Do(GetDepth) && code[b + 3] == Num(0) && code[b + 4] == Emit.Do(Math(NumEq))
    && code[b + 5] == To(Jnf, "scheme-call-cc-empty-done") && code[b + 6] == Emit.Do(Drop)
    && code[b + 7] == To(Jmp, "scheme-call-cc-empty") && code[b + 8] == Label("scheme-call-cc-empty-done")
    && code[b + 9] == Sym(STACK_SAVE) && code[b + 10] == Emit.Do(Read)
  }

  /** scheme-call-cc-restore: push the saved values, fetch the value and the return, return. */
  ghost predicate RestorePart(code: seq<Item>, b: int)
    requires 0 <= b && b + SIZE <= |code|
  {
    && code[b + 11] == Label("scheme-call-cc-restore") && code[b + 12] == Emit.Do(Dup)
    && code[b + 13] == Emit.Do(IsEmpty) && code[b + 14] == To(Jnf, "scheme-call-cc-restore-done")
    && code[b + 15] == Emit.Do(Dup) && code[b + 16] == Emit.Do(Car) && code[b + 17] == Emit.Do(Swap)
    && code[b + 18] == Emit.Do(Cdr) && code[b + 19] == To(Jmp, "scheme-call-cc-restore")
    && code[b + 20] == Label("scheme-call-cc-restore-done") && code[b + 21] == Emit.Do(Drop)
    && code[b + 22] == Sym(RET_VAL) && code[b + 23] == Emit.Do(Read) && code[b + 24] == Sym(RETURN)
    && code[b + 25] == Emit.Do(Read) && code[b + 26] == Emit.Do(Ret)
  }

  /** scheme-call-cc-exit: the body of the continuation. */
  ghost predicate ExitPart(code: seq<Item>, b: int)
    requires 0 <= b && b + SIZE <= |code|
  {
    && code[b + 27] == Label("scheme-call-cc-exit") && code[b + 28] == Emit.Do(Drop) && code[b + 29] == Emit.Do(Car)
    && code[b + 30] == Sym(RET_VAL) && code[b + 31] == Emit.Do(Bind)
    && code[b + 32] == To(Jmp, "scheme-call-cc-return")
  }

  /** scheme-call-cc: bind the procedure, the return and an empty list. */
  ghost predicate EntryPart(code: seq<Item>, b: int)
    requires 0 <= b && b + SIZE <= |code|
  {
    && code[b + 33] == Label("scheme-call-cc") && code[b + 34] == Emit.Do(Swap) && code[b + 35] == Emit.Do(Car)
    && code[b + 36] == Sym(PROC) && code[b + 37] == Emit.Do(Bind) && code[b + 38] == Sym(RETURN)
    && code[b + 39] == Emit.Do(Bind) && code[b + 40] == Emit.Put(LitEmpty) && code[b + 41] == Sym(STACK_SAVE)
    && code[b + 42] == Emit.Do(Bind)
  }

  /** scheme-call-cc-save: move the stack into the list. */
  ghost predicate SavePart(code: seq<Item>, b: int)
    requires 0 <= b && b + SIZE <= |code|
  {
    && code[b + 43] == Label("scheme-call-cc-save") && code[b + 44] == Emit.Do(GetDepth) && code[b + 45] == Num(0)
    && code[b + 46] == Emit.Do(Math(NumEq)) && code[b + 47] == To(Jnf, "scheme-call-cc-stack-save-exit")
    && code[b + 48] == Sym(STACK_SAVE) && code[b + 49] == Emit.Do(Read) && code[b + 50] == Emit.Do(Swap)
    && code[b + 51] == Emit.Do(Op.Cons) && code[b + 52] == Sym(STACK_SAVE) && code[b + 53] == Emit.Do(Set)
    && code[b + 54] == To(Jmp, "scheme-call-cc-save") && code[b + 55] == Label("scheme-call-cc-stack-save-exit")
  }

  /** Call the procedure with the continuation, then return its value. */
  ghost predicate CallPart(code: seq<Item>, b: int)
    requires 0 <= b && b + SIZE <= |code|
  {
    && code[b + 56] == Emit.Put(LitEmpty) && code[b + 57] == To(Proc, "scheme-call-cc-exit")
    && code[b + 58] == Emit.Do(Op.Cons) && code[b + 59] == Sym(PROC) && code[b + 60] == Emit.Do(Read)
    && code[b + 61] == Emit.Do(CallIn) && code[b + 62] == Sym(RET_VAL) && code[b + 63] == Emit.Do(Bind)
    && code[b + 64] == To(Jmp, "scheme-call-cc-return")
  }

  /** The program holds the routine at b. */
  ghost predicate Loaded(code: seq<Item>, b: int) {
    && UniqueLabels(code) && 0 <= b && b + SIZE <= |code|
    && EmptyPart(code, b) && RestorePart(code, b) && ExitPart(code, b)
    && EntryPart(code, b) && SavePart(code, b) && CallPart(code, b)
  }

  // ---------- runs without adopt ----------

  /** The machine, stopped in front of an adopt: the routine is shown to execute none. */
  function Walker(code: seq<Item>): State -> Option<State> {
    (s: State) =>
      if s.cur < |s.envs| && 0 <= s.Ip() < |code| && code[s.Ip()] == Emit.Do(Adopt) then None else Stepper(code)(s)
  }

  ghost predicate Walks(code: seq<Item>, s: State, t: State) { ReachesBy(Walker(code), s, t) }

  lemma WalksRefl(code: seq<Item>, s: State)
    ensures Walks(code, s, s)
  {
    ByRefl(Walker(code), s);
  }

  lemma WalksTrans(code: seq<Item>, s: State, t: State, u: State)
    requires Walks(code, s, t) && Walks(code, t, u)
    ensures Walks(code, s, u)
  {
    ByTrans(Walker(code), s, t, u);
  }

  lemma WalksStep(code: seq<Item>, s: State, t: State)
    requires s.Ok() && 0 <= s.Ip() < |code| && code[s.Ip()] != Emit.Do(Adopt) && Step(code, s) == Next(t)
    ensures Walks(code, s, t)
  {
    assert Stepper(code)(s) == Some(t);
    assert Walker(code)(s) == Some(t);
    ByStep(Walker(code), s, t);
  }

  lemma {:induction false} WalksReach(code: seq<Item>, s: State, t: State)
    requires Walks(code, s, t)
    ensures Reaches(code, s, t)
  {
    var n: nat :| Iterate(Walker(code), s, n) == Some(t);
    WalkIterates(code, s, n, t);
  }

  lemma {:induction false} WalkIterates(code: seq<Item>, s: State, n: nat, t: State)
    requires Iterate(Walker(code), s, n) == Some(t)
    ensures Iterate(Stepper(code), s, n) == Some(t)
    decreases n
  {
    hide Exec, Step;
    if n > 0 { WalkIterates(code, Walker(code)(s).value, n - 1, t); }
  }

  lemma PureWalk(code: seq<Item>, t: State, k': Stack)
    requires t.Ok() && 0 <= t.Ip() < |code| && Pure(code[t.Ip()], t.stack) == Some(k')
    ensures Walks(code, t, Moved(t, k', t.Ip() + 1))
  {
    WalksStep(code, t, Moved(t, k', t.Ip() + 1));
  }

  // ---------- calls ----------

  /** About to call the closure of record e on an argument list, by either call instruction. */
  ghost predicate Calling(code: seq<Item>, s: State, e: nat, args: Value) {
    && s.Ok() && 0 <= s.Ip() < |code| && e < |s.envs|
    && s.stack.On? && s.stack.top == Closure(e) && s.stack.rest.On? && s.stack.rest.top == args
    && (code[s.Ip()] == Emit.Do(CallIn) || (code[s.Ip()] == Emit.Do(TailCallIn) && s.stack.rest.rest.On?))
  }

  /** What the callee finds on top: a new return to here, or for a tail call the one of the caller. */
  ghost function ReturnOf(code: seq<Item>, s: State, e: nat, args: Value): Value
    requires Calling(code, s, e, args)
  {
    if code[s.Ip()] == Emit.Do(CallIn) then Closure(s.cur) else s.stack.rest.rest.top
  }

  /** The stack below the return and the arguments. */
  ghost function Below(code: seq<Item>, s: State, e: nat, args: Value): Stack
    requires Calling(code, s, e, args)
  {
    if code[s.Ip()] == Emit.Do(CallIn) then s.stack.rest.rest else s.stack.rest.rest.rest
  }

  lemma CallWalk(code: seq<Item>, s: State, e: nat, args: Value)
    requires Calling(code, s, e, args) && e != s.cur
    ensures Walks(code, s, Entered(s, e, On(ReturnOf(code, s, e, args), On(args, Below(code, s, e, args)))))
  {
    WalksStep(code, s, Entered(s, e, On(ReturnOf(code, s, e, args), On(args, Below(code, s, e, args)))));
  }

  // ---------- the saved stack ----------

  /** The list the save loop builds: the deepest value ends up first. */
  function SaveList(k: Stack, acc: Value): Value {
    match k
    case Bottom => acc
    case On(v, rest) => SaveList(rest, Pair(v, acc))
  }

  /** The stack the restore loop builds from such a list. */
  function Refill(list: Value, k: Stack): Stack {
    match list
    case Pair(v, rest) => Refill(rest, On(v, k))
    case _ => k
  }

  ghost predicate IsList(v: Value) { v == Empty || (v.Pair? && IsList(v.cdr)) }

  lemma {:induction false} RefillSaved(k: Stack, acc: Value)
    requires IsList(acc)
    ensures IsList(SaveList(k, acc)) && Refill(SaveList(k, acc), Bottom) == Refill(acc, k)
    decreases k
  {
    if k.On? { RefillSaved(k.rest, Pair(k.top, acc)); }
  }

  // ---------- steps within one frame ----------

  /** State t with stack k, at address p of the routine, and current table tab. */
  function Conf(t: State, k: Stack, p: int, tab: Table): State
    requires t.Ok() && t.envs[t.cur].table < |t.tables|
  {
    Moved(t, k, p).(tables := t.tables[t.envs[t.cur].table := tab])
  }

  ghost predicate Frame(t: State) { t.Ok() && t.envs[t.cur].table < |t.tables| }

  lemma ConfMoved(t: State, k: Stack, p: int, tab: Table, k': Stack, p': int)
    requires Frame(t)
    ensures Moved(Conf(t, k, p, tab), k', p') == Conf(t, k', p', tab)
  {
    var e := t.envs[t.cur];
    assert t.envs[t.cur := e.(ip := p)][t.cur := e.(ip := p')] == t.envs[t.cur := e.(ip := p')];
  }

  lemma Go(code: seq<Item>, s: State, t: State, k: Stack, p: int, tab: Table, k': Stack)
    requires Frame(t) && Walks(code, s, Conf(t, k, p, tab)) && 0 <= p < |code| && Pure(code[p], k) == Some(k')
    ensures Walks(code, s, Conf(t, k', p + 1, tab))
  {
    hide Exec, Walker, Walks;
    PureWalk(code, Conf(t, k, p, tab), k');
    ConfMoved(t, k, p, tab, k', p + 1);
    WalksTrans(code, s, Conf(t, k, p, tab), Conf(t, k', p + 1, tab));
  }

  lemma GoJump(code: seq<Item>, s: State, t: State, k: Stack, p: int, tab: Table, l: string, q: int)
    requires Frame(t) && Walks(code, s, Conf(t, k, p, tab)) && 0 <= p < |code| && code[p] == To(Jmp, l)
    requires UniqueLabels(code) && 0 <= q < |code| && code[q] == Label(l)
    ensures Walks(code, s, Conf(t, k, q, tab))
  {
    JumpConf(code, t, k, p, tab, l, q);
    hide Exec, Walker, Walks;
    WalksTrans(code, s, Conf(t, k, p, tab), Conf(t, k, q, tab));
  }

  lemma JumpConf(code: seq<Item>, t: State, k: Stack, p: int, tab: Table, l: string, q: int)
    requires Frame(t) && 0 <= p < |code| && code[p] == To(Jmp, l)
    requires UniqueLabels(code) && 0 <= q < |code| && code[q] == Label(l)
    ensures Walks(code, Conf(t, k, p, tab), Conf(t, k, q, tab))
  {
    LabelPosUnique(code, Named(l), q);
    var c := Conf(t, k, p, tab);
    ConfMoved(t, k, p, tab, k, p + 1);
    ConfMoved(t, k, p + 1, tab, k, q);
    WalksStep(code, c, Conf(t, k, q, tab));
  }

  lemma GoBranch(code: seq<Item>, s: State, t: State, a: bool, k: Stack, p: int, tab: Table, l: string, q: int)
    requires Frame(t) && Walks(code, s, Conf(t, On(Bool(a), k), p, tab)) && 0 <= p < |code| && code[p] == To(Jnf, l)
    requires UniqueLabels(code) && 0 <= q < |code| && code[q] == Label(l)
    ensures Walks(code, s, Conf(t, k, if a then q else p + 1, tab))
  {
    BranchConf(code, t, a, k, p, tab, l, q);
    hide Exec, Walker, Walks;
    WalksTrans(code, s, Conf(t, On(Bool(a), k), p, tab), Conf(t, k, if a then q else p + 1, tab));
  }

  lemma BranchConf(code: seq<Item>, t: State, a: bool, k: Stack, p: int, tab: Table, l: string, q: int)
    requires Frame(t) && 0 <= p < |code| && code[p] == To(Jnf, l)
    requires UniqueLabels(code) && 0 <= q < |code| && code[q] == Label(l)
    ensures Walks(code, Conf(t, On(Bool(a), k), p, tab), Conf(t, k, if a then q else p + 1, tab))
  {
    LabelPosUnique(code, Named(l), q);
    var c := Conf(t, On(Bool(a), k), p, tab);
    ConfMoved(t, On(Bool(a), k), p, tab, k, p + 1);
    ConfMoved(t, k, p + 1, tab, k, q);
    WalksStep(code, c, Conf(t, k, if a then q else p + 1, tab));
  }

  /** `depth 0 =` asks whether the stack is empty. */
  lemma GoDepth(code: seq<Item>, s: State, t: State, k: Stack, p: int, tab: Table)
    requires Frame(t) && Walks(code, s, Conf(t, k, p, tab)) && 0 <= p && p + 3 <= |code|
    requires code[p] == Emit.Do(GetDepth) && code[p + 1] == Num(0) && code[p + 2] == Emit.Do(Math(NumEq))
    ensures Walks(code, s, Conf(t, On(Bool(k.Bottom?), k), p + 3, tab))
  {
    hide Exec, Walker, Walks, Conf;
    DepthConf(code, t, k, p, tab);
    var k1 := On(Fixnum(Depth(k)), k);
    WalksTrans(code, s, Conf(t, k, p, tab), Conf(t, k1, p + 1, tab));
    Go(code, s, t, k1, p + 1, tab, On(Fixnum(0), k1));
    Go(code, s, t, On(Fixnum(0), k1), p + 2, tab, On(Bool(k.Bottom?), k));
  }

  lemma DepthConf(code: seq<Item>, t: State, k: Stack, p: int, tab: Table)
    requires Frame(t) && 0 <= p < |code| && code[p] == Emit.Do(GetDepth)
    ensures Walks(code, Conf(t, k, p, tab), Conf(t, On(Fixnum(Depth(k)), k), p + 1, tab))
  {
    ConfMoved(t, k, p, tab, On(Fixnum(Depth(k)), k), p + 1);
    WalksStep(code, Conf(t, k, p, tab), Conf(t, On(Fixnum(Depth(k)), k), p + 1, tab));
  }

  /** What a variable means in the frame of t when its table is tab. */
  ghost predicate Finds(t: State, tab: Table, x: string, v: Value)
    requires Frame(t)
  {
    var tables := t.tables[t.envs[t.cur].table := tab];
    var g := Lookup(t.envs, tables, t.cur, x);
    g.Some? && g.value < |tables| && x in tables[g.value] && tables[g.value][x] == v
  }

  lemma {:induction false} LookupIp(envs: seq<Env>, envs': seq<Env>, tables: seq<Table>, e: nat, x: string)
    requires |envs| == |envs'|
    requires forall i :: 0 <= i < |envs| ==> envs'[i].table == envs[i].table && envs'[i].parent == envs[i].parent
    ensures Lookup(envs', tables, e, x) == Lookup(envs, tables, e, x)
    decreases e
  {
    if e < |envs| && envs[e].table < |tables| && x !in tables[envs[e].table] && envs[e].parent.Some?
      && envs[e].parent.value < e {
      LookupIp(envs, envs', tables, envs[e].parent.value, x);
    }
  }

  lemma GoRead(code: seq<Item>, s: State, t: State, x: string, v: Value, k: Stack, p: int, tab: Table)
    requires Frame(t) && Walks(code, s, Conf(t, k, p, tab)) && 0 <= p && p + 2 <= |code|
    requires code[p] == Sym(x) && code[p + 1] == Emit.Do(Read) && Finds(t, tab, x, v)
    ensures Walks(code, s, Conf(t, On(v, k), p + 2, tab))
  {
    ReadConf(code, t, x, v, k, p + 1, tab);
    hide Exec, Walker, Walks, Finds;
    Go(code, s, t, k, p, tab, On(Symbol(x), k));
    WalksTrans(code, s, Conf(t, On(Symbol(x), k), p + 1, tab), Conf(t, On(v, k), p + 2, tab));
  }

  lemma ReadConf(code: seq<Item>, t: State, x: string, v: Value, k: Stack, p: int, tab: Table)
    requires Frame(t) && 0 <= p < |code| && code[p] == Emit.Do(Read) && Finds(t, tab, x, v)
    ensures Walks(code, Conf(t, On(Symbol(x), k), p, tab), Conf(t, On(v, k), p + 1, tab))
  {
    var c := Conf(t, On(Symbol(x), k), p, tab);
    var c1 := SetIp(c, p + 1);
    ConfMoved(t, On(Symbol(x), k), p, tab, On(v, k), p + 1);
    LookupIp(t.envs, c1.envs, c1.tables, t.cur, x);
    WalksStep(code, c, Conf(t, On(v, k), p + 1, tab));
  }

  /** `s"x" bind`. */
  lemma GoBind(code: seq<Item>, s: State, t: State, x: string, v: Value, k: Stack, p: int, tab: Table)
    requires Frame(t) && Walks(code, s, Conf(t, On(v, k), p, tab)) && 0 <= p && p + 2 <= |code|
    requires code[p] == Sym(x) && code[p + 1] == Emit.Do(Bind)
    ensures Walks(code, s, Conf(t, k, p + 2, tab[x := v]))
  {
    BindConf(code, t, x, v, k, p + 1, tab);
    hide Exec, Walker, Walks;
    Go(code, s, t, On(v, k), p, tab, On(Symbol(x), On(v, k)));
    WalksTrans(code, s, Conf(t, On(Symbol(x), On(v, k)), p + 1, tab), Conf(t, k, p + 2, tab[x := v]));
  }

  lemma BindConf(code: seq<Item>, t: State, x: string, v: Value, k: Stack, p: int, tab: Table)
    requires Frame(t) && 0 <= p < |code| && (code[p] == Emit.Do(Bind) || (code[p] == Emit.Do(Set) && x in tab))
    ensures Walks(code, Conf(t, On(Symbol(x), On(v, k)), p, tab), Conf(t, k, p + 1, tab[x := v]))
  {
    var c := Conf(t, On(Symbol(x), On(v, k)), p, tab);
    ConfMoved(t, On(Symbol(x), On(v, k)), p, tab, k, p + 1);
    var g := t.envs[t.cur].table;
    assert t.tables[g := tab][g := tab[x := v]] == t.tables[g := tab[x := v]];
    WalksStep(code, c, Conf(t, k, p + 1, tab[x := v]));
  }

  // ---------- the loops ----------

  lemma {:induction false} EmptyLoop(code: seq<Item>, b: int, s: State, t: State, k: Stack, tab: Table)
    requires Loaded(code, b) && Frame(t) && Walks(code, s, Conf(t, k, b + 1, tab))
    ensures Walks(code, s, Conf(t, Bottom, b + 9, tab))
    decreases k
  {
    hide Exec, Walker, Walks;
    Go(code, s, t, k, b + 1, tab, k);
    GoDepth(code, s, t, k, b + 2, tab);
    GoBranch(code, s, t, k.Bottom?, k, b + 5, tab, "scheme-call-cc-empty-done", b + 8);
    if k.On? {
      Go(code, s, t, k, b + 6, tab, k.rest);
      GoJump(code, s, t, k.rest, b + 7, tab, "scheme-call-cc-empty", b + 1);
      EmptyLoop(code, b, s, t, k.rest, tab);
    } else {
      Go(code, s, t, k, b + 8, tab, k);
    }
  }

  lemma {:induction false} RestoreLoop(code: seq<Item>, b: int, s: State, t: State, list: Value, k: Stack, tab: Table)
    requires Loaded(code, b) && Frame(t) && IsList(list) && Walks(code, s, Conf(t, On(list, k), b + 11, tab))
    ensures Walks(code, s, Conf(t, Refill(list, k), b + 22, tab))
    decreases list
  {
    hide Exec, Walker, Walks;
    var k1 := On(list, k);
    Go(code, s, t, k1, b + 11, tab, k1);
    Go(code, s, t, k1, b + 12, tab, On(list, k1));
    Go(code, s, t, On(list, k1), b + 13, tab, On(Bool(list == Empty), k1));
    GoBranch(code, s, t, list == Empty, k1, b + 14, tab, "scheme-call-cc-restore-done", b + 20);
    if list.Pair? {
      Go(code, s, t, k1, b + 15, tab, On(list, k1));
      Go(code, s, t, On(list, k1), b + 16, tab, On(list.car, k1));
      Go(code, s, t, On(list.car, k1), b + 17, tab, On(list, On(list.car, k)));
      Go(code, s, t, On(list, On(list.car, k)), b + 18, tab, On(list.cdr, On(list.car, k)));
      GoJump(code, s, t, On(list.cdr, On(list.car, k)), b + 19, tab, "scheme-call-cc-restore", b + 11);
      RestoreLoop(code, b, s, t, list.cdr, On(list.car, k), tab);
    } else {
      Go(code, s, t, k1, b + 20, tab, k1);
      Go(code, s, t, k1, b + 21, tab, k);
    }
  }

  lemma {:induction false} SaveLoop(code: seq<Item>, b: int, s: State, t: State, k: Stack, acc: Value, tab: Table)
    requires Loaded(code, b) && Frame(t) && Walks(code, s, Conf(t, k, b + 43, tab))
    requires STACK_SAVE in tab && tab[STACK_SAVE] == acc
    ensures Walks(code, s, Conf(t, Bottom, b + 56, tab[STACK_SAVE := SaveList(k, acc)]))
    decreases k
  {
    hide Exec, Walker, Walks;
    Go(code, s, t, k, b + 43, tab, k);
    GoDepth(code, s, t, k, b + 44, tab);
    GoBranch(code, s, t, k.Bottom?, k, b + 47, tab, "scheme-call-cc-stack-save-exit", b + 55);
    if k.On? {
      GoRead(code, s, t, STACK_SAVE, acc, k, b + 48, tab);
      Go(code, s, t, On(acc, k), b + 50, tab, On(k.top, On(acc, k.rest)));
      var p := Pair(k.top, acc);
      Go(code, s, t, On(k.top, On(acc, k.rest)), b + 51, tab, On(p, k.rest));
      Go(code, s, t, On(p, k.rest), b + 52, tab, On(Symbol(STACK_SAVE), On(p, k.rest)));
      BindConf(code, t, STACK_SAVE, p, k.rest, b + 53, tab);
      var tab' := tab[STACK_SAVE := p];
      WalksTrans(code, s, Conf(t, On(Symbol(STACK_SAVE), On(p, k.rest)), b + 53, tab), Conf(t, k.rest, b + 54, tab'));
      GoJump(code, s, t, k.rest, b + 54, tab', "scheme-call-cc-save", b + 43);
      SaveLoop(code, b, s, t, k.rest, p, tab');
      assert tab'[STACK_SAVE := SaveList(k, acc)] == tab[STACK_SAVE := SaveList(k, acc)];
    } else {
      assert tab[STACK_SAVE := acc] == tab;
      Go(code, s, t, k, b + 55, tab, k);
    }
  }

  // ---------- resuming ----------

  /** Resumed with v, by way of no adopt: the stack of the capture with v on top, in a copy of the return record r. */
  ghost predicate Resumes(code: seq<Item>, s: State, u: State, k: Stack, v: Value, r: nat) {
    && Walks(code, s, u) && u.Ok()
    && u.stack == On(v, k)
    && r < |s.envs| && u.cur >= |s.envs| && u.envs[u.cur] == s.envs[r]
  }

  /** scheme-call-cc-return: whatever is on the stack is replaced by the saved stack and the value. */
  lemma ReturnPath(code: seq<Item>, b: int, s: State, t: State, junk: Stack, tab: Table, k: Stack, v: Value, r: nat)
    returns (u: State)
    requires Loaded(code, b) && Frame(t) && Walks(code, s, Conf(t, junk, b, tab)) && |s.envs| <= |t.envs|
    requires Finds(t, tab, STACK_SAVE, SaveList(k, Empty)) && Finds(t, tab, RET_VAL, v)
      && Finds(t, tab, RETURN, Closure(r))
    requires r < |s.envs| && r != t.cur && t.envs[r] == s.envs[r]
    ensures Resumes(code, s, u, k, v, r)
    ensures u.tables == t.tables[t.envs[t.cur].table := tab]
  {
    hide Exec, Walker, Walks, Finds;
    Go(code, s, t, junk, b, tab, junk);
    EmptyLoop(code, b, s, t, junk, tab);
    var list := SaveList(k, Empty);
    RefillSaved(k, Empty);
    GoRead(code, s, t, STACK_SAVE, list, Bottom, b + 9, tab);
    RestoreLoop(code, b, s, t, list, Bottom, tab);
    GoRead(code, s, t, RET_VAL, v, k, b + 22, tab);
    GoRead(code, s, t, RETURN, Closure(r), On(v, k), b + 24, tab);
    var c := Conf(t, On(Closure(r), On(v, k)), b + 26, tab);
    u := Enter(SetIp(c, b + 27).(stack := On(v, k)), t.envs[r]);
    RetConf(code, c, r, On(v, k), u);
    WalksTrans(code, s, c, u);
  }

  lemma RetConf(code: seq<Item>, c: State, r: nat, k: Stack, u: State)
    requires c.Ok() && 0 <= c.Ip() < |code| && code[c.Ip()] == Emit.Do(Ret) && c.stack == On(Closure(r), k)
    requires r < |c.envs| && r != c.cur && u == Enter(SetIp(c, c.Ip() + 1).(stack := k), c.envs[r])
    ensures Walks(code, c, u)
  {
    WalksStep(code, c, u);
  }

  // ---------- capture ----------

  /** Table g holds a captured stack and return closure. */
  ghost predicate Saved(tables: seq<Table>, g: nat, k: Stack, r: nat) {
    && g < |tables|
    && STACK_SAVE in tables[g] && tables[g][STACK_SAVE] == SaveList(k, Empty)
    && RETURN in tables[g] && tables[g][RETURN] == Closure(r)
  }

  /** From the entry of scheme-call-cc to the call of its argument: the whole stack below is saved,
      and the procedure is called on the empty stack with a closure of the exit routine. */
  lemma Capture(code: seq<Item>, b: int, s: State, f: Value, more: Value, r: nat, k: Stack) returns (u: State)
    requires Loaded(code, b) && Frame(s) && s.Ip() == b + ENTRY && s.tables[s.envs[s.cur].table] == map[]
    requires s.stack == On(Closure(r), On(Pair(f, more), k))
    ensures Walks(code, s, u) && u.Ok() && u.Ip() == b + 61 && u.cur == s.cur
    ensures var e := |s.envs|; var g := s.envs[s.cur].table;
      && |u.envs| == e + 1 && u.envs[e] == s.envs[s.cur].(ip := b + EXIT)
      && u.stack == On(f, On(Pair(Closure(e), Empty), Bottom))
      && u.envs[u.cur] == s.envs[s.cur].(ip := b + 61)
      && Saved(u.tables, g, k, r) && |u.tables| == |s.tables|
      && (forall i :: 0 <= i < |s.tables| && i != g ==> u.tables[i] == s.tables[i])
      && (forall i :: 0 <= i < e && i != s.cur ==> u.envs[i] == s.envs[i])
  {
    hide Exec, Walker, Walks;
    var g := s.envs[s.cur].table;
    var tab := CaptureBindings(code, b, s, f, more, r, k);
    var c := Conf(s, On(Empty, Bottom), b + 57, tab);
    var d := ProcConf(code, c, "scheme-call-cc-exit", b + EXIT);
    WalksTrans(code, s, c, d);
    var e := |s.envs|;
    assert d.envs == s.envs[s.cur := s.envs[s.cur].(ip := b + 58)] + [s.envs[s.cur].(ip := b + EXIT)];
    u := CallContinuation(code, b, s, d, f, e, tab);
  }

  /** The bindings of the frame and the emptied stack. */
  lemma CaptureBindings(code: seq<Item>, b: int, s: State, f: Value, more: Value, r: nat, k: Stack) returns (tab: Table)
    requires Loaded(code, b) && Frame(s) && s.Ip() == b + ENTRY && s.tables[s.envs[s.cur].table] == map[]
    requires s.stack == On(Closure(r), On(Pair(f, more), k))
    ensures Walks(code, s, Conf(s, On(Empty, Bottom), b + 57, tab))
    ensures tab == map[PROC := f, RETURN := Closure(r), STACK_SAVE := SaveList(k, Empty)]
  {
    assert Conf(s, s.stack, b + ENTRY, map[]) == s;
    hide Exec, Walker, Walks, Conf, UniqueLabels;
    WalksRefl(code, s);
    Go(code, s, s, s.stack, b + 33, map[], s.stack);
    Go(code, s, s, s.stack, b + 34, map[], On(Pair(f, more), On(Closure(r), k)));
    Go(code, s, s, On(Pair(f, more), On(Closure(r), k)), b + 35, map[], On(f, On(Closure(r), k)));
    GoBind(code, s, s, PROC, f, On(Closure(r), k), b + 36, map[]);
    var tab1: Table := map[][PROC := f];
    GoBind(code, s, s, RETURN, Closure(r), k, b + 38, tab1);
    var tab2 := tab1[RETURN := Closure(r)];
    Go(code, s, s, k, b + 40, tab2, On(Empty, k));
    GoBind(code, s, s, STACK_SAVE, Empty, k, b + 41, tab2);
    SaveLoop(code, b, s, s, k, Empty, tab2[STACK_SAVE := Empty]);
    tab := tab2[STACK_SAVE := Empty][STACK_SAVE := SaveList(k, Empty)];
    Go(code, s, s, Bottom, b + 56, tab, On(Empty, Bottom));
  }

  lemma CallContinuation(code: seq<Item>, b: int, s: State, d: State, f: Value, e: nat, tab: Table) returns (u: State)
    requires Loaded(code, b) && Frame(d) && Walks(code, s, d) && d.Ip() == b + 58
      && d.stack == On(Closure(e), On(Empty, Bottom))
    requires d.tables[d.envs[d.cur].table] == tab && PROC in tab && tab[PROC] == f
    ensures Walks(code, s, u) && u == Moved(d, On(f, On(Pair(Closure(e), Empty), Bottom)), b + 61)
  {
    hide Exec, Walker, Walks, UniqueLabels;
    assert Conf(d, d.stack, b + 58, tab) == d by {
      assert d.tables[d.envs[d.cur].table := tab] == d.tables;
      assert d.envs[d.cur := d.envs[d.cur].(ip := b + 58)] == d.envs;
    }
    var k1 := On(Pair(Closure(e), Empty), Bottom);
    Go(code, s, d, d.stack, b + 58, tab, k1);
    GoRead(code, s, d, PROC, f, k1, b + 59, tab);
    u := Conf(d, On(f, k1), b + 61, tab);
    assert d.tables[d.envs[d.cur].table := tab] == d.tables;
  }

  lemma ProcConf(code: seq<Item>, c: State, l: string, q: int) returns (d: State)
    requires c.Ok() && 0 <= c.Ip() < |code| && code[c.Ip()] == To(Proc, l)
    requires UniqueLabels(code) && 0 <= q < |code| && code[q] == Label(l)
    ensures Walks(code, c, d)
    ensures d == c.(envs := c.envs[c.cur := c.envs[c.cur].(ip := c.Ip() + 1)] + [c.envs[c.cur].(ip := q)],
                    stack := On(Closure(|c.envs|), c.stack))
  {
    LabelPosUnique(code, Named(l), q);
    d := c.(envs := c.envs[c.cur := c.envs[c.cur].(ip := c.Ip() + 1)] + [c.envs[c.cur].(ip := q)],
            stack := On(Closure(|c.envs|), c.stack));
    WalksStep(code, c, d);
  }

  // ---------- invoking the continuation ----------

  /** Calling the continuation with v, by either call instruction and from any stack whatever,
      resumes the capture with v.  The captured table is left as it is, so this can be done again. */
  lemma Invoke(code: seq<Item>, b: int, s: State, e: nat, v: Value, more: Value, g: nat, k: Stack, r: nat)
    returns (u: State)
    requires Loaded(code, b) && Calling(code, s, e, Pair(v, more)) && e != s.cur
    requires s.envs[e].ip == b + EXIT && s.envs[e].table == g && Saved(s.tables, g, k, r)
    requires r < |s.envs| && r != s.cur
    ensures Resumes(code, s, u, k, v, r)
    ensures |u.tables| == |s.tables| + 1 && forall i :: 0 <= i < |s.tables| ==> u.tables[i] == s.tables[i]
  {
    hide Exec, Walker, Walks, Loaded;
    var t := InvokeEntry(code, b, s, e, v, more);
    var tab: Table := map[][RET_VAL := v];
    ChildFinds(t, tab, g, k, r, v);
    u := ReturnPath(code, b, s, t, Below(code, s, e, Pair(v, more)), tab, k, v, r);
  }

  /** From the call to the return path, with the value bound in the frame of the call. */
  lemma InvokeEntry(code: seq<Item>, b: int, s: State, e: nat, v: Value, more: Value) returns (t: State)
    requires Loaded(code, b) && Calling(code, s, e, Pair(v, more)) && e != s.cur && s.envs[e].ip == b + EXIT
    ensures var args := Pair(v, more);
      && t == Entered(s, e, On(ReturnOf(code, s, e, args), On(args, Below(code, s, e, args)))) && Frame(t)
      && Walks(code, s, Conf(t, Below(code, s, e, args), b, map[][RET_VAL := v]))
  {
    hide Exec, Walker, Walks;
    var ret, junk := ReturnOf(code, s, e, Pair(v, more)), Below(code, s, e, Pair(v, more));
    var k0 := On(ret, On(Pair(v, more), junk));
    CallWalk(code, s, e, Pair(v, more));
    t := Entered(s, e, k0);
    assert Conf(t, k0, b + EXIT, map[]) == t by {
      assert t.tables[|s.tables| := map[]] == t.tables;
      assert t.envs[t.cur := t.envs[t.cur].(ip := b + EXIT)] == t.envs;
    }
    Go(code, s, t, k0, b + 27, map[], k0);
    Go(code, s, t, k0, b + 28, map[], k0.rest);
    Go(code, s, t, k0.rest, b + 29, map[], On(v, junk));
    GoBind(code, s, t, RET_VAL, v, junk, b + 30, map[]);
    GoJump(code, s, t, junk, b + 32, map[][RET_VAL := v], "scheme-call-cc-return", b);
  }

  /** In the frame of the call the value is found at once, the rest in the captured table. */
  lemma ChildFinds(t: State, tab: Table, g: nat, k: Stack, r: nat, v: Value)
    requires Frame(t) && tab == map[RET_VAL := v] && t.envs[t.cur].parent.Some?
    requires var p := t.envs[t.cur].parent.value; p < t.cur && t.envs[p].table == g
    requires t.envs[t.cur].table != g && Saved(t.tables, g, k, r)
    ensures Finds(t, tab, STACK_SAVE, SaveList(k, Empty)) && Finds(t, tab, RET_VAL, v)
      && Finds(t, tab, RETURN, Closure(r))
  {
    var p := t.envs[t.cur].parent.value;
    var tables := t.tables[t.envs[t.cur].table := tab];
    assert Lookup(t.envs, tables, p, STACK_SAVE) == Some(g);
    assert Lookup(t.envs, tables, p, RETURN) == Some(g);
  }

  /** An ordinary return from the procedure resumes the capture with its value. */
  lemma NormalReturn(code: seq<Item>, b: int, s: State, v: Value, junk: Stack, k: Stack, r: nat) returns (u: State)
    requires Loaded(code, b) && Frame(s) && s.Ip() == b + AFTER && s.stack == On(v, junk)
    requires Saved(s.tables, s.envs[s.cur].table, k, r) && r < |s.envs| && r != s.cur
    ensures Resumes(code, s, u, k, v, r)
    ensures |u.tables| == |s.tables| && Saved(u.tables, s.envs[s.cur].table, k, r)
  {
    hide Exec, Walker, Walks;
    var g := s.envs[s.cur].table;
    var tab0 := s.tables[g];
    assert Conf(s, s.stack, b + AFTER, tab0) == s by {
      assert s.tables[g := tab0] == s.tables;
      assert s.envs[s.cur := s.envs[s.cur].(ip := b + AFTER)] == s.envs;
    }
    WalksRefl(code, s);
    GoBind(code, s, s, RET_VAL, v, junk, b + 62, tab0);
    var tab := tab0[RET_VAL := v];
    GoJump(code, s, s, junk, b + 64, tab, "scheme-call-cc-return", b);
    u := ReturnPath(code, b, s, s, junk, tab, k, v, r);
  }
}
