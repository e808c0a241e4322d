/** Runs of compiled code inside one frame, and the ways such a run can end. */
module Stages {
  import opened Machine
  import opened Syntax
  import opened Code
  import opened Emit
  import opened Eval
  import opened Simulation

  /** From s the machine reaches t in the same frame f, at address p with stack k, while the
      store goes from st to st'. */
  ghost predicate Stage(code: seq<Item>, s: State, t: State, st: Store, st': Store, f: nat, k: Stack, p: int) {
    && Reaches(code, s, t) && Grows(s, t) && StoreGrows(st, st') && Sim(code, st', f, t)
    && SameFrame(s.envs[s.cur], t.envs[t.cur])
    && t.stack == k && t.Ip() == p
  }

  lemma StageRefl(code: seq<Item>, s: State, st: Store, f: nat)
    requires Sim(code, st, f, s)
    ensures Stage(code, s, s, st, st, f, s.stack, s.Ip())
  {
    ReachesRefl(code, s);
  }

  lemma StageTrans(code: seq<Item>, s: State, t: State, u: State, st: Store, st1: Store, st2: Store, f: nat, k: Stack,
                   p: int, k': Stack, p': int)
    requires Stage(code, s, t, st, st1, f, k, p) && Stage(code, t, u, st1, st2, f, k', p')
    ensures Stage(code, s, u, st, st2, f, k', p')
  {
    ReachesTrans(code, s, t, u);
    GrowsTrans(s, t, u);
  }

  // ---------- single instructions within a frame ----------

  function Moved(t: State, k: Stack, p: int): State
    requires t.cur < |t.envs|
  {
    t.(stack := k, envs := t.envs[t.cur := t.envs[t.cur].(ip := p)])
  }

  lemma StageAt(code: seq<Item>, t: State, st: Store, f: nat, k: Stack, p: int)
    requires Sim(code, st, f, t) && Reaches(code, t, Moved(t, k, p))
    ensures Stage(code, t, Moved(t, k, p), st, st, f, k, p)
  {
    var u := Moved(t, k, p);
    StoreMono(code, t, u, st);
    EnvMono(t.envs, u.envs, st, st, t.cur, f);
  }

  /** The effect on the stack of an instruction that touches nothing else. */
  function Pure(it: Item, k: Stack): Option<Stack> {
    match it
    case Ins(Literal(l)) => Some(On(LitValue(l), k))
    case Ins(Plain(Dup)) => if k.On? then Some(On(k.top, k)) else None
    case Ins(Plain(Drop)) => if k.On? then Some(k.rest) else None
    case Ins(Plain(Not)) => if k.On? then Some(On(Bool(k.top == Bool(false)), k.rest)) else None
    case Ins(Plain(IsEmpty)) => if k.On? then Some(On(Bool(k.top == Empty), k.rest)) else None
    case Ins(Plain(Car)) => if k.On? && k.top.Pair? then Some(On(k.top.car, k.rest)) else None
    case Ins(Plain(Cdr)) => if k.On? && k.top.Pair? then Some(On(k.top.cdr, k.rest)) else None
    case Ins(Plain(Swap)) =>
      if k.On? && k.rest.On? then Some(On(k.rest.top, On(k.top, k.rest.rest))) else None
    case Ins(Plain(Cons)) =>
      if k.On? && k.rest.On? then Some(On(Pair(k.top, k.rest.top), k.rest.rest)) else None
    case Ins(Plain(Math(m))) =>
      if k.On? && k.rest.On? && k.top.Fixnum? && k.rest.top.Fixnum? then
        (match Arith(m, k.rest.top.i, k.top.i) case Some(v) => Some(On(v, k.rest.rest)) case None => None)
      else None
    case Mark(_) => Some(k)
    case _ => None
  }

  lemma PureStep(code: seq<Item>, t: State, k': Stack)
    requires t.Ok() && 0 <= t.Ip() < |code| && Pure(code[t.Ip()], t.stack) == Some(k')
    ensures Reaches(code, t, Moved(t, k', t.Ip() + 1))
  {
    ReachesStep(code, t, Moved(t, k', t.Ip() + 1));
  }

  lemma StagePure(code: seq<Item>, s: State, t: State, st: Store, st': Store, f: nat, k: Stack, p: int, k': Stack)
    returns (u: State)
    requires Stage(code, s, t, st, st', f, k, p)
    requires 0 <= p < |code| && Pure(code[p], k) == Some(k')
    ensures Stage(code, s, u, st, st', f, k', p + 1) && Grows(t, u)
  {
    hide StoreRep, EnvRep, Grows, Exec, Stepper;
    u := Moved(t, k', p + 1);
    PureStep(code, t, k');
    StageAt(code, t, st', f, k', p + 1);
    StageTrans(code, s, t, u, st, st', st', f, k, p, k', p + 1);
  }

  lemma JumpStep(code: seq<Item>, t: State, l: nat, q: int)
    requires t.Ok() && 0 <= t.Ip() < |code| && code[t.Ip()] == Go(Jmp, l)
    requires UniqueLabels(code) && 0 <= q < |code| && code[q] == Here(l)
    ensures Reaches(code, t, Moved(t, t.stack, q))
  {
    LabelPosUnique(code, Gen(l), q);
    assert t.envs[t.cur := t.envs[t.cur].(ip := t.Ip() + 1)][t.cur := t.envs[t.cur].(ip := q)]
        == t.envs[t.cur := t.envs[t.cur].(ip := q)];
    ReachesStep(code, t, Moved(t, t.stack, q));
  }

  lemma StageJump(code: seq<Item>, s: State, t: State, st: Store, st': Store, f: nat, k: Stack, p: int, l: nat, q: int)
    returns (u: State)
    requires Stage(code, s, t, st, st', f, k, p)
    requires 0 <= p < |code| && code[p] == Go(Jmp, l)
    requires UniqueLabels(code) && 0 <= q < |code| && code[q] == Here(l)
    ensures Stage(code, s, u, st, st', f, k, q) && Grows(t, u)
  {
    hide StoreRep, EnvRep, Grows, Exec, Stepper;
    u := Moved(t, k, q);
    JumpStep(code, t, l, q);
    StageAt(code, t, st', f, k, q);
    StageTrans(code, s, t, u, st, st', st', f, k, p, k, q);
  }

  lemma BranchStep(code: seq<Item>, t: State, l: nat, q: int)
    requires t.Ok() && 0 <= t.Ip() < |code| && code[t.Ip()] == Go(Jnf, l) && t.stack.On?
    requires UniqueLabels(code) && 0 <= q < |code| && code[q] == Here(l)
    ensures Reaches(code, t, Moved(t, t.stack.rest, if t.stack.top == Bool(false) then t.Ip() + 1 else q))
  {
    LabelPosUnique(code, Gen(l), q);
    assert t.envs[t.cur := t.envs[t.cur].(ip := t.Ip() + 1)][t.cur := t.envs[t.cur].(ip := q)]
        == t.envs[t.cur := t.envs[t.cur].(ip := q)];
    ReachesStep(code, t, Moved(t, t.stack.rest, if t.stack.top == Bool(false) then t.Ip() + 1 else q));
  }

  lemma StageBranch(code: seq<Item>, s: State, t: State, st: Store, st': Store, f: nat, a: Value, k: Stack, p: int,
                    l: nat, q: int)
    returns (u: State)
    requires Stage(code, s, t, st, st', f, On(a, k), p)
    requires 0 <= p < |code| && code[p] == Go(Jnf, l)
    requires UniqueLabels(code) && 0 <= q < |code| && code[q] == Here(l)
    ensures Stage(code, s, u, st, st', f, k, if a == Bool(false) then p + 1 else q) && Grows(t, u)
  {
    hide StoreRep, EnvRep, Grows, Exec, Stepper;
    var p' := if a == Bool(false) then p + 1 else q;
    u := Moved(t, k, p');
    BranchStep(code, t, l, q);
    StageAt(code, t, st', f, k, p');
    StageTrans(code, s, t, u, st, st', st', f, On(a, k), p, k, p');
  }

  // ---------- variables ----------

  lemma ReadStep(code: seq<Item>, st: Store, t: State, f: nat, x: string, k: Stack, g: nat)
    requires Sim(code, st, f, t) && 0 <= t.Ip() < |code| && code[t.Ip()] == Do(Read) && t.stack == On(Symbol(x), k)
    requires FindFrame(st, f, x) == Some(g) && g < |st| && x in st[g].vars
    ensures g < |t.tables| && x in t.tables[g] && ValRep(code, t.envs, t.cur, st, st[g].vars[x], t.tables[g][x])
    ensures Reaches(code, t, Moved(t, On(t.tables[g][x], k), t.Ip() + 1))
  {
    hide ValRep, VarsRep, Exec, Stepper, Reaches;
    ValueOfRep(code, st, t, g, x);
    var t1 := SetIp(t, t.Ip() + 1);
    StoreMono(code, t, t1, st);
    EnvMono(t.envs, t1.envs, st, st, t.cur, f);
    LookupRep(code, st, t1, t.cur, f, x);
    ReadIs(code, t, x, k, g);
  }

  lemma ReadIs(code: seq<Item>, t: State, x: string, k: Stack, g: nat)
    requires t.Ok() && 0 <= t.Ip() < |code| && code[t.Ip()] == Do(Read) && t.stack == On(Symbol(x), k)
    requires Lookup(SetIp(t, t.Ip() + 1).envs, t.tables, t.cur, x) == Some(g) && g < |t.tables| && x in t.tables[g]
    ensures Reaches(code, t, Moved(t, On(t.tables[g][x], k), t.Ip() + 1))
  {
    hide Throw, Lookup;
    ReachesStep(code, t, Moved(t, On(t.tables[g][x], k), t.Ip() + 1));
  }

  lemma StageRead(code: seq<Item>, s: State, t: State, st: Store, st': Store, f: nat, x: string, k: Stack, p: int,
                  g: nat)
    returns (u: State, w: Value)
    requires Stage(code, s, t, st, st', f, On(Symbol(x), k), p)
    requires 0 <= p < |code| && code[p] == Do(Read)
    requires FindFrame(st', f, x) == Some(g) && g < |st'| && x in st'[g].vars
    ensures Stage(code, s, u, st, st', f, On(w, k), p + 1) && Grows(t, u)
    ensures ValRep(code, u.envs, u.cur, st', st'[g].vars[x], w)
  {
    hide StoreRep, EnvRep, Grows, Exec, Stepper, ValRep;
    ReadStep(code, st', t, f, x, k, g);
    w := t.tables[g][x];
    u := Moved(t, On(w, k), p + 1);
    StageAt(code, t, st', f, On(w, k), p + 1);
    StageTrans(code, s, t, u, st, st', st', f, On(Symbol(x), k), p, On(w, k), p + 1);
    ValMono(code, t, u, st', st', st'[g].vars[x], w);
  }

  /** bind and set! write x in frame g, the current one for bind. */
  ghost predicate Writes(op: Op, st: Store, f: nat, x: string, g: nat) {
    g < |st| && ((op == Bind && g == f) || (op == Set && FindFrame(st, f, x) == Some(g)))
  }

  lemma WriteStep(code: seq<Item>, st: Store, t: State, f: nat, op: Op, x: string, w: Value, k: Stack, g: nat)
    requires Sim(code, st, f, t) && 0 <= t.Ip() < |code| && code[t.Ip()] == Do(op) && t.stack == On(Symbol(x), On(w, k))
    requires Writes(op, st, f, x, g)
    ensures g < |t.tables|
    ensures Reaches(code, t, Moved(t, k, t.Ip() + 1).(tables := t.tables[g := t.tables[g][x := w]]))
  {
    var t1 := SetIp(t, t.Ip() + 1);
    StoreMono(code, t, t1, st);
    EnvMono(t.envs, t1.envs, st, st, t.cur, f);
    LookupRep(code, st, t1, t.cur, f, x);
    ReachesStep(code, t, Moved(t, k, t.Ip() + 1).(tables := t.tables[g := t.tables[g][x := w]]));
  }

  lemma StageWrite(code: seq<Item>, s: State, t: State, st: Store, st': Store, f: nat, op: Op, x: string, v: Val,
                   w: Value, k: Stack, p: int, g: nat)
    returns (u: State)
    requires Stage(code, s, t, st, st', f, On(Symbol(x), On(w, k)), p)
    requires 0 <= p < |code| && code[p] == Do(op) && Writes(op, st', f, x, g)
    requires ValRep(code, t.envs, t.cur, st', v, w)
    ensures Stage(code, s, u, st, Define(st', g, x, v), f, k, p + 1) && Grows(t, u)
  {
    hide Exec, Stepper, ValRep, VarsRep;
    WriteStep(code, st', t, f, op, x, w, k, g);
    var t1 := Moved(t, k, p + 1);
    StoreMono(code, t, t1, st');
    EnvMono(t.envs, t1.envs, st', st', t.cur, f);
    ValMono(code, t, t1, st', st', v, w);
    DefineRep(code, st', t1, g, x, v, w);
    u := t1.(tables := t1.tables[g := t1.tables[g][x := w]]);
    EnvMono(t1.envs, u.envs, st', Define(st', g, x, v), t.cur, f);
    StageTrans(code, s, t, u, st, st', Define(st', g, x, v), f, On(Symbol(x), On(w, k)), p, k, p + 1);
  }

  // ---------- ends ----------

  /** The run left frame f by returning to the closure of record r with w on top of base. */
  ghost predicate Returned(code: seq<Item>, s: State, t: State, st: Store, st': Store, r: nat, base: Stack, w: Value) {
    && Reaches(code, s, t) && Grows(s, t) && StoreGrows(st, st') && StoreRep(code, st', t)
    && r < |s.envs| && t.cur >= |s.envs| && t.envs[t.cur] == s.envs[r]
    && t.stack == On(w, base)
  }

  /** In a tail position the stack of the frame holds the return closure and nothing above it. */
  ghost predicate TailReady(s: State, tail: bool, r: nat) {
    tail ==> s.stack.On? && s.stack.top == Closure(r) && r < |s.envs| && r != s.cur
  }

  /** Code that yields w: it falls through at q with w pushed, or in a tail position may already
      have returned w to the caller. */
  ghost predicate Ends(code: seq<Item>, s: State, t: State, st: Store, st': Store, f: nat, tail: bool, r: nat,
                       w: Value, q: int) {
    || Stage(code, s, t, st, st', f, On(w, s.stack), q)
    || (tail && s.stack.On? && Returned(code, s, t, st, st', r, s.stack.rest, w))
  }

  lemma EndsAfter(code: seq<Item>, s: State, t: State, u: State, st: Store, st1: Store, st2: Store, f: nat, p: int,
                  tail: bool, r: nat, w: Value, q: int)
    requires Stage(code, s, t, st, st1, f, s.stack, p) && Ends(code, t, u, st1, st2, f, tail, r, w, q)
    requires TailReady(s, tail, r)
    ensures Ends(code, s, u, st, st2, f, tail, r, w, q)
  {
    if Stage(code, t, u, st1, st2, f, On(w, t.stack), q) {
      StageTrans(code, s, t, u, st, st1, st2, f, s.stack, p, On(w, s.stack), q);
    } else {
      ReachesTrans(code, s, t, u);
      GrowsTrans(s, t, u);
    }
  }

  lemma EndsJump(code: seq<Item>, s: State, t: State, st: Store, st': Store, f: nat, tail: bool, r: nat, v: Val,
                 w: Value, p: int, l: nat, q: int)
    returns (u: State)
    requires Ends(code, s, t, st, st', f, tail, r, w, p) && ValRep(code, t.envs, t.cur, st', v, w)
    requires 0 <= p < |code| && code[p] == Go(Jmp, l)
    requires UniqueLabels(code) && 0 <= q < |code| && code[q] == Here(l)
    ensures Ends(code, s, u, st, st', f, tail, r, w, q) && ValRep(code, u.envs, u.cur, st', v, w)
  {
    u := t;
    if Stage(code, s, t, st, st', f, On(w, s.stack), p) {
      u := StageJump(code, s, t, st, st', f, On(w, s.stack), p, l, q);
      ValMono(code, t, u, st', st', v, w);
    }
  }

  lemma EndsMark(code: seq<Item>, s: State, t: State, st: Store, st': Store, f: nat, tail: bool, r: nat, v: Val,
                 w: Value, p: int)
    returns (u: State)
    requires Ends(code, s, t, st, st', f, tail, r, w, p) && ValRep(code, t.envs, t.cur, st', v, w)
    requires 0 <= p < |code| && code[p].Mark?
    ensures Ends(code, s, u, st, st', f, tail, r, w, p + 1) && ValRep(code, u.envs, u.cur, st', v, w)
  {
    u := t;
    if Stage(code, s, t, st, st', f, On(w, s.stack), p) {
      u := StagePure(code, s, t, st, st', f, On(w, s.stack), p, On(w, s.stack));
      ValMono(code, t, u, st', st', v, w);
    }
  }

  /** `swap ret` after code in a tail position returns its value, whichever way the code ended. */
  lemma FinishTail(code: seq<Item>, s: State, t: State, st: Store, st': Store, f: nat, r: nat, v: Val, w: Value, p: int)
    returns (u: State)
    requires Ends(code, s, t, st, st', f, true, r, w, p) && ValRep(code, t.envs, t.cur, st', v, w)
    requires TailReady(s, true, r) && CodeAt(code, p, [Do(Swap), Do(Ret)])
    ensures Returned(code, s, u, st, st', r, s.stack.rest, w) && ValRep(code, u.envs, u.cur, st', v, w)
  {
    hide Exec, Stepper, Reaches, StoreRep, EnvRep, ValRep, CodeAt, Stage, Returned;
    u := t;
    if Stage(code, s, t, st, st', f, On(w, s.stack), p) {
      CodeIndex(code, p, [Do(Swap), Do(Ret)], 0);
      CodeIndex(code, p, [Do(Swap), Do(Ret)], 1);
      u := ReturnFrom(code, s, t, st, st', f, r, v, w, s.stack.rest, p);
    }
  }

  lemma ReturnFrom(code: seq<Item>, s: State, t: State, st: Store, st': Store, f: nat, r: nat, v: Val, w: Value,
                   base: Stack, p: int)
    returns (u: State)
    requires Stage(code, s, t, st, st', f, On(w, On(Closure(r), base)), p) && ValRep(code, t.envs, t.cur, st', v, w)
    requires r < |s.envs| && r != s.cur
    requires 0 <= p && p + 1 < |code| && code[p] == Do(Swap) && code[p + 1] == Do(Ret)
    ensures Returned(code, s, u, st, st', r, base, w) && ValRep(code, u.envs, u.cur, st', v, w)
  {
    hide Exec, Stepper, Reaches, StoreRep, EnvRep, ValRep;
    var t1 := StagePure(code, s, t, st, st', f, On(w, On(Closure(r), base)), p, On(Closure(r), On(w, base)));
    u := Return(code, t1, st', r, w, base);
    ValMono(code, t, t1, st', st', v, w);
    ValMono(code, t1, u, st', st', v, w);
    ReturnedAfter(code, s, t1, u, st, st', st', r, base, w);
  }

  lemma Return(code: seq<Item>, t: State, st: Store, r: nat, w: Value, base: Stack)
    returns (u: State)
    requires t.Ok() && 0 <= t.Ip() < |code| && code[t.Ip()] == Do(Ret) && StoreRep(code, st, t)
    requires t.stack == On(Closure(r), On(w, base)) && r < |t.envs| && r != t.cur
    ensures Returned(code, t, u, st, st, r, base, w)
  {
    var t1 := SetIp(t, t.Ip() + 1);
    u := Enter(t1.(stack := On(w, base)), t1.envs[r]);
    ReachesStep(code, t, u);
    StoreMono(code, t, u, st);
  }

  // ---------- new frames ----------

  function Captured(t: State, k: Stack, p: int, q: int): State
    requires t.cur < |t.envs|
  {
    var t1 := Moved(t, On(Closure(|t.envs|), k), p);
    t1.(envs := t1.envs + [t.envs[t.cur].(ip := q)])
  }

  lemma ProcStep(code: seq<Item>, t: State, l: nat, q: int)
    requires t.Ok() && 0 <= t.Ip() < |code| && code[t.Ip()] == Go(Proc, l)
    requires UniqueLabels(code) && 0 <= q < |code| && code[q] == Here(l)
    ensures Reaches(code, t, Captured(t, t.stack, t.Ip() + 1, q))
  {
    LabelPosUnique(code, Gen(l), q);
    ReachesStep(code, t, Captured(t, t.stack, t.Ip() + 1, q));
  }

  /** proc pushes a closure over a copy of the current record that starts at q. */
  lemma StageProc(code: seq<Item>, s: State, t: State, st: Store, st': Store, f: nat, k: Stack, p: int, l: nat, q: int)
    returns (u: State, e: nat)
    requires Stage(code, s, t, st, st', f, k, p)
    requires 0 <= p < |code| && code[p] == Go(Proc, l)
    requires UniqueLabels(code) && 0 <= q < |code| && code[q] == Here(l)
    ensures Stage(code, s, u, st, st', f, On(Closure(e), k), p + 1) && Grows(t, u)
    ensures e < |u.envs| && e != u.cur && u.envs[e].ip == q && EnvRep(u.envs, st', e, f)
  {
    hide ValRep, VarsRep, Exec, Stepper, Reaches;
    e := |t.envs|;
    ProcStep(code, t, l, q);
    u := Captured(t, k, p + 1, q);
    StoreMono(code, t, u, st');
    EnvMono(t.envs, u.envs, st', st', t.cur, f);
    CloneRep(u.envs, st', t.cur, e, f);
    StageTrans(code, s, t, u, st, st', st', f, k, p, On(Closure(e), k), p + 1);
  }

  /** A record with the same table and parent, further up, stands for the same frame. */
  lemma CloneRep(envs: seq<Env>, st: Store, e: nat, e': nat, f: nat)
    requires EnvRep(envs, st, e, f) && e < e' < |envs|
    requires envs[e'].table == envs[e].table && envs[e'].parent == envs[e].parent
    ensures EnvRep(envs, st, e', f)
  {
  }

  /** push_env below a record that stands for frame f opens a new frame with parent f. */
  lemma FrameRep(code: seq<Item>, t: State, st: Store, f: nat)
    requires t.Ok() && StoreRep(code, st, t) && EnvRep(t.envs, st, t.cur, f)
    ensures Grows(t, PushEnv(t)) && StoreGrows(st, NewFrame(st, f))
    ensures Sim(code, NewFrame(st, f), |st|, PushEnv(t))
  {
    hide ValRep;
    var u := PushEnv(t);
    var st' := NewFrame(st, f);
    EnvMono(t.envs, u.envs, st, st', t.cur, f);
    forall g | 0 <= g < |st'| ensures VarsRep(code, u.envs, u.cur, st', st'[g].vars, u.tables[g]) {
      if g < |st| { VarsMono(code, t, u, st, st', st[g].vars, t.tables[g]); }
    }
  }

  /** The state a call enters: below a copy of the closure's record e, with the given stack. */
  function Entered(t: State, e: nat, k: Stack): State
    requires t.cur < |t.envs| && e < |t.envs|
  {
    PushEnv(Enter(Moved(t, k, t.Ip() + 1), t.envs[e]))
  }

  lemma EnteredRep(code: seq<Item>, t: State, st: Store, e: nat, f: nat, k: Stack)
    requires t.Ok() && StoreRep(code, st, t) && EnvRep(t.envs, st, e, f) && e != t.cur
    ensures var u := Entered(t, e, k);
      && Grows(t, u) && StoreGrows(st, NewFrame(st, f)) && Sim(code, NewFrame(st, f), |st|, u)
      && u.stack == k && u.Ip() == t.envs[e].ip && u.cur > |t.envs|
      && u.envs[t.cur] == t.envs[t.cur].(ip := t.Ip() + 1)
  {
    hide ValRep, VarsRep;
    var t1 := Enter(Moved(t, k, t.Ip() + 1), t.envs[e]);
    StoreMono(code, t, t1, st);
    EnvMono(t.envs, t1.envs, st, st, e, f);
    CloneRep(t1.envs, st, e, t1.cur, f);
    FrameRep(code, t1, st, f);
    GrowsTrans(t, t1, PushEnv(t1));
  }

  lemma CallStep(code: seq<Item>, t: State, e: nat, k: Stack)
    requires t.Ok() && 0 <= t.Ip() < |code| && code[t.Ip()] == Do(CallIn)
    requires t.stack == On(Closure(e), k) && e < |t.envs| && e != t.cur
    ensures Reaches(code, t, Entered(t, e, On(Closure(t.cur), k)))
  {
    ReachesStep(code, t, Entered(t, e, On(Closure(t.cur), k)));
  }

  lemma TailCallStep(code: seq<Item>, t: State, e: nat, a: Value, c: Value, k: Stack)
    requires t.Ok() && 0 <= t.Ip() < |code| && code[t.Ip()] == Do(TailCallIn)
    requires t.stack == On(Closure(e), On(a, On(c, k))) && e < |t.envs| && e != t.cur
    ensures Reaches(code, t, Entered(t, e, On(c, On(a, k))))
  {
    ReachesStep(code, t, Entered(t, e, On(c, On(a, k))));
  }

  /** Returning to the record the caller left behind resumes its frame. */
  lemma BackInFrame(code: seq<Item>, s: State, t: State, u: State, st: Store, st1: Store, st2: Store, f: nat,
                    base: Stack, w: Value, p: int)
    requires Sim(code, st, f, s) && Reaches(code, s, t) && Grows(s, t) && StoreGrows(st, st1)
    requires t.cur >= |s.envs| && t.envs[s.cur] == s.envs[s.cur].(ip := p)
    requires Returned(code, t, u, st1, st2, s.cur, base, w)
    ensures Stage(code, s, u, st, st2, f, On(w, base), p)
  {
    hide Exec, Stepper, ValRep, VarsRep;
    ReachesTrans(code, s, t, u);
    GrowsTrans(s, t, u);
    EnvMono(s.envs, u.envs, st, st2, s.cur, f);
    CloneRep(u.envs, st2, s.cur, u.cur, f);
  }

  lemma ReturnedAfter(code: seq<Item>, s: State, t: State, u: State, st: Store, st1: Store, st2: Store, r: nat,
                      base: Stack, w: Value)
    requires Reaches(code, s, t) && Grows(s, t) && StoreGrows(st, st1) && r < |s.envs| && r != s.cur
    requires Returned(code, t, u, st1, st2, r, base, w)
    ensures Returned(code, s, u, st, st2, r, base, w)
  {
    hide Exec, Stepper, ValRep, VarsRep;
    ReachesTrans(code, s, t, u);
    GrowsTrans(s, t, u);
  }

  /** The state `call` enters: a child of the current record at q, with the current record as return. */
  function Called(t: State, q: int): State
    requires t.cur < |t.envs|
  {
    var u := PushEnv(Moved(t, On(Closure(t.cur), t.stack), t.Ip() + 1));
    Moved(u, u.stack, q)
  }

  lemma CalledStep(code: seq<Item>, t: State, l: nat, q: int)
    requires t.Ok() && 0 <= t.Ip() < |code| && code[t.Ip()] == Go(JumpKind.Call, l)
    requires UniqueLabels(code) && 0 <= q < |code| && code[q] == Here(l)
    ensures Reaches(code, t, Called(t, q))
  {
    LabelPosUnique(code, Gen(l), q);
    ReachesStep(code, t, Called(t, q));
  }

  lemma CalledRep(code: seq<Item>, t: State, st: Store, f: nat, q: int)
    requires Sim(code, st, f, t)
    ensures var u := Called(t, q);
      && Grows(t, u) && StoreGrows(st, NewFrame(st, f)) && Sim(code, NewFrame(st, f), |st|, u)
      && u.stack == On(Closure(t.cur), t.stack) && u.Ip() == q && u.cur >= |t.envs|
      && u.envs[t.cur] == t.envs[t.cur].(ip := t.Ip() + 1)
  {
    hide ValRep, VarsRep;
    var t1 := Moved(t, On(Closure(t.cur), t.stack), t.Ip() + 1);
    StoreMono(code, t, t1, st);
    EnvMono(t.envs, t1.envs, st, st, t.cur, f);
    FrameRep(code, t1, st, f);
    var u1 := PushEnv(t1);
    var u := Moved(u1, u1.stack, q);
    StoreMono(code, u1, u, NewFrame(st, f));
    EnvMono(u1.envs, u.envs, NewFrame(st, f), NewFrame(st, f), u1.cur, |st|);
    GrowsTrans(t, t1, u1);
    GrowsTrans(t, u1, u);
  }
}
