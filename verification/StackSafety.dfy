/** Runs of compiled programs keep the stack discipline.

    In every state a compiled program can reach, its stack is a pile of activations, each with the
    shape its code point announces and each, but the first, holding the closure that returns to the
    activation below.  So no instruction ever under-runs the stack or reaches into a caller's part,
    every return goes back to where the call was made with exactly one value, and a program that
    halts leaves exactly one value. */
module StackSafety {
  import opened Machine
  import opened Syntax
  import opened Runs
  import opened Code
  import opened Emit
  import opened StackDiscipline
  import Frames
  import Labels

  /** Code with the shape of each of its labels. */
  datatype Program = Program(code: seq<Item>, at: Shapes)

  const EMPTY: Flow := Live(true, Nil)

  ghost predicate Checked(g: Program) {
    && UniqueLabels(g.code)
    && FlowOf(g.code, EMPTY, g.at) == Live(true, Val(Nil))
    && forall i :: 0 <= i < |g.code| ==> Defined(g.code, g.code[i])
  }

  ghost predicate Defined(code: seq<Item>, it: Item) {
    it.Ins? && it.i.Jump? ==> Mark(it.i.target) in code
  }

  /** Shape sh holds whenever execution stands at p. */
  ghost predicate Point(g: Program, p: int, sh: Shape) {
    && 0 <= p <= |g.code|
    && if p < |g.code| && g.code[p].Mark? then g.code[p].l.Gen? && g.code[p].l.n in g.at && g.at[g.code[p].l.n] == sh
       else FlowOf(g.code[..p], EMPTY, g.at) == Live(true, sh)
  }

  // ---------- code points ----------

  lemma {:induction false} BadStays(code: seq<Item>, at: Shapes)
    ensures FlowOf(code, Bad, at) == Bad
    decreases |code|
  {
    if code != [] { BadStays(code[1..], at); }
  }

  lemma PrefixGood(g: Program, p: int)
    requires Checked(g) && 0 <= p <= |g.code|
    ensures !FlowOf(g.code[..p], EMPTY, g.at).Bad?
  {
    assert g.code == g.code[..p] + g.code[p..];
    FlowPlus(g.code[..p], g.code[p..], EMPTY, g.at);
    BadStays(g.code[p..], g.at);
  }

  lemma PrefixNext(g: Program, p: int)
    requires 0 <= p < |g.code|
    ensures FlowOf(g.code[..p + 1], EMPTY, g.at) == Through(g.code[p], FlowOf(g.code[..p], EMPTY, g.at), g.at)
  {
    var f := FlowOf(g.code[..p], EMPTY, g.at);
    assert g.code[..p + 1] == g.code[..p] + [g.code[p]];
    FlowPlus(g.code[..p], [g.code[p]], EMPTY, g.at);
    assert [g.code[p]][1..] == [];
    assert FlowOf([g.code[p]], f, g.at) == FlowOf([], Through(g.code[p], f, g.at), g.at);
  }

  lemma FallInto(g: Program, p: int, sh: Shape)
    requires Checked(g) && 0 <= p <= |g.code| && FlowOf(g.code[..p], EMPTY, g.at) == Live(true, sh)
    ensures Point(g, p, sh)
  {
    if p < |g.code| && g.code[p].Mark? {
      PrefixGood(g, p + 1);
      PrefixNext(g, p);
    }
  }

  /** The item at a point accepts its shape, and the next point has the shape it leaves. */
  lemma PointNext(g: Program, p: int, sh: Shape)
    requires Checked(g) && Point(g, p, sh) && p < |g.code|
    ensures g.code[p].Mark? ==> Point(g, p + 1, sh)
    ensures g.code[p].Ins? ==>
      var f := Through(g.code[p], Live(true, sh), g.at); !f.Bad? && (f.Live? && f.reached ==> Point(g, p + 1, f.sh))
  {
    PrefixGood(g, p + 1);
    PrefixNext(g, p);
    var f := FlowOf(g.code[..p + 1], EMPTY, g.at);
    if f.Live? && f.reached { FallInto(g, p + 1, f.sh); }
  }

  lemma PointTarget(g: Program, p: int, n: nat)
    requires Checked(g) && 0 <= p < |g.code| && g.code[p].Ins? && g.code[p].i.Jump? && g.code[p].i.target == Gen(n)
      && n in g.at
    ensures Point(g, LabelPos(g.code, Gen(n)), g.at[n])
  {
    assert Defined(g.code, g.code[p]);
    var q :| 0 <= q < |g.code| && g.code[q] == Mark(Gen(n));
    LabelPosUnique(g.code, Gen(n), q);
  }

  // ---------- well-shaped stacks ----------

  /** Closures that a program can get hold of are procedures. */
  ghost predicate Fine(g: Program, envs: seq<Env>, cur: nat, v: Value) {
    match v
    case Closure(e) => e < |envs| && e != cur && Point(g, envs[e].ip, Back(Val(Nil)))
    case Pair(a, d) => Fine(g, envs, cur, a) && Fine(g, envs, cur, d)
    case _ => true
  }

  /** The activations that wait below the running one: the record each resumes with, and the shape
      it has apart from the value it waits for. */
  datatype Waiting = Nobody | Caller(e: nat, sh: Shape, more: Waiting)

  predicate HasBack(sh: Shape) { sh.Back? || (sh.Val? && HasBack(sh.rest)) }

  ghost predicate Fits(g: Program, envs: seq<Env>, cur: nat, k: Stack, sh: Shape, w: Waiting)
    decreases w, sh
  {
    match sh
    case Val(r) => k.On? && Fine(g, envs, cur, k.top) && Fits(g, envs, cur, k.rest, r, w)
    case Back(r) => k.On? && w.Caller? && k.top == Closure(w.e) && Fits(g, envs, cur, k.rest, r, w)
    case Nil =>
      match w
      case Nobody => k.Bottom?
      case Caller(e, sh', more) =>
        && e < |envs| && e != cur && Point(g, envs[e].ip, Val(sh'))
        && HasBack(sh') == more.Caller?
        && Fits(g, envs, cur, k, sh', more)
  }

  /** The slots a shape announces are there. */
  lemma Slots(g: Program, envs: seq<Env>, cur: nat, k: Stack, sh: Shape, w: Waiting)
    requires Fits(g, envs, cur, k, sh, w) && !sh.Nil?
    ensures k.On? && Fits(g, envs, cur, k.rest, sh.rest, w)
    ensures !sh.rest.Nil? ==> k.rest.On? && Fits(g, envs, cur, k.rest.rest, sh.rest.rest, w)
    ensures !sh.rest.Nil? && sh.rest.Val? ==> Fine(g, envs, cur, k.rest.top)
  {
  }

  ghost predicate TablesFine(g: Program, envs: seq<Env>, cur: nat, tables: seq<Table>) {
    forall t, x :: 0 <= t < |tables| && x in tables[t] ==> Fine(g, envs, cur, tables[t][x])
  }

  ghost predicate NoHandler(envs: seq<Env>) { forall e :: 0 <= e < |envs| ==> !envs[e].handler }

  ghost predicate Safe(g: Program, s: State, sh: Shape, w: Waiting) {
    && Frames.Inv(s) && NoHandler(s.envs)
    && Point(g, s.Ip(), sh) && HasBack(sh) == w.Caller?
    && Fits(g, s.envs, s.cur, s.stack, sh, w)
    && TablesFine(g, s.envs, s.cur, s.tables)
  }

  // ---------- change of records ----------

  lemma {:induction false} FineMono(g: Program, envs: seq<Env>, cur: nat, envs': seq<Env>, cur': nat, v: Value)
    requires Frames.KeepsRecords(envs, cur, envs', cur') && Fine(g, envs, cur, v)
    ensures Fine(g, envs', cur', v)
    decreases v
  {
    if v.Pair? {
      FineMono(g, envs, cur, envs', cur', v.car);
      FineMono(g, envs, cur, envs', cur', v.cdr);
    }
  }

  lemma {:induction false} FitsMono(g: Program, envs: seq<Env>, cur: nat, envs': seq<Env>, cur': nat, k: Stack,
                                    sh: Shape, w: Waiting)
    requires Frames.KeepsRecords(envs, cur, envs', cur') && Fits(g, envs, cur, k, sh, w)
    ensures Fits(g, envs', cur', k, sh, w)
    decreases w, sh
  {
    match sh
    case Val(r) =>
      FineMono(g, envs, cur, envs', cur', k.top);
      FitsMono(g, envs, cur, envs', cur', k.rest, r, w);
    case Back(r) => FitsMono(g, envs, cur, envs', cur', k.rest, r, w);
    case Nil => if w.Caller? { FitsMono(g, envs, cur, envs', cur', k, w.sh, w.more); }
  }

  lemma TablesMono(g: Program, envs: seq<Env>, cur: nat, envs': seq<Env>, cur': nat, tables: seq<Table>)
    requires Frames.KeepsRecords(envs, cur, envs', cur') && TablesFine(g, envs, cur, tables)
    ensures TablesFine(g, envs', cur', tables)
  {
    forall t, x | 0 <= t < |tables| && x in tables[t] ensures Fine(g, envs', cur', tables[t][x]) {
      FineMono(g, envs, cur, envs', cur', tables[t][x]);
    }
  }

  lemma {:induction false} NobodyHandles(envs: seq<Env>, e: nat)
    requires NoHandler(envs)
    ensures FindHandler(envs, e) == None
    decreases e
  {
    if e < |envs| && envs[e].parent.Some? && envs[e].parent.value < e { NobodyHandles(envs, envs[e].parent.value); }
  }

  lemma ThrowAborts(s: State, msg: string, objs: seq<Value>)
    requires s.cur < |s.envs| && NoHandler(s.envs)
    ensures Throw(s, msg, objs) == Abort
  {
    hide ListOnto;
    var envs := s.envs + [s.envs[s.cur]];
    assert NoHandler(envs);
    NobodyHandles(envs, s.cur);
  }

  /** Shaped: everything about a state except that it stands at a point of its shape. */
  ghost predicate Shaped(g: Program, s: State, sh: Shape, w: Waiting) {
    && s.Ok() && NoHandler(s.envs) && HasBack(sh) == w.Caller?
    && Fits(g, s.envs, s.cur, s.stack, sh, w) && TablesFine(g, s.envs, s.cur, s.tables)
  }

  lemma MoveShaped(g: Program, s: State, p: int, sh: Shape, w: Waiting)
    requires Shaped(g, s, sh, w)
    ensures Shaped(g, SetIp(s, p), sh, w)
  {
    hide Fits, Fine;
    var envs := s.envs[s.cur := s.envs[s.cur].(ip := p)];
    FitsMono(g, s.envs, s.cur, envs, s.cur, s.stack, sh, w);
    TablesMono(g, s.envs, s.cur, envs, s.cur, s.tables);
  }

  // ---------- instructions that stay in the activation ----------

  /** What must hold after a step: a shaped stack at a point of that shape. */
  ghost predicate Good(g: Program, o: Outcome, sh: Shape, w: Waiting) {
    o.Next? ==> Shaped(g, o.s, sh, w) && Point(g, o.s.Ip(), sh)
  }

  predicate Local(op: Op) {
    op in {Cons, Car, Cdr, Not, IsEmpty, Dup, Drop, GetDepth, Swap} || op.Math?
  }

  lemma LocalStep(g: Program, op: Op, s: State, sh: Shape, w: Waiting, sh': Shape)
    requires Local(op) && Shaped(g, s, sh, w) && OpFlow(op, true, sh) == Live(true, sh') && Point(g, s.Ip(), sh')
    ensures Good(g, Exec(Plain(op), s.Ip(), s), sh', w)
  {
    hide Throw, Point;
    assert SetIp(s, s.Ip()) == s by { assert s.envs[s.cur := s.envs[s.cur]] == s.envs; }
    ThrowsAbort(s);
    if op == Cons || op == Swap || op.Math? { TwoStep(g, op, s, sh, w, sh'); } else { OneStep(g, op, s, sh, w, sh'); }
  }

  lemma ThrowsAbort(s: State)
    requires s.Ok() && NoHandler(s.envs)
    ensures forall k: Stack, m: string, vs: seq<Value> :: Throw(s.(stack := k), m, vs) == Abort
  {
    forall k: Stack, m: string, vs: seq<Value> ensures Throw(s.(stack := k), m, vs) == Abort {
      ThrowAborts(s.(stack := k), m, vs);
    }
  }

  lemma DepthIs(s: State)
    requires s.Ok() && SetIp(s, s.Ip()) == s
    ensures Exec(Plain(GetDepth), s.Ip(), s) == Next(Push(s, Fixnum(Depth(s.stack))))
  {
  }

  lemma PopOne(op: Op, s: State)
    requires op in {Car, Cdr, Not, IsEmpty, Dup, Drop} && s.Ok() && s.stack.On? && SetIp(s, s.Ip()) == s
    ensures Exec(Plain(op), s.Ip(), s) == ExecOne(op, s.stack.top, s.(stack := s.stack.rest))
  {
    hide ExecOne;
  }

  /** The popped operand replaced by a value. */
  lemma PushGood(g: Program, s: State, sh0: Shape, v: Value, k: Stack, sh: Shape, w: Waiting)
    requires Shaped(g, s, sh0, w) && Fits(g, s.envs, s.cur, k, sh, w) && Fine(g, s.envs, s.cur, v)
    requires Point(g, s.Ip(), Val(sh)) && HasBack(sh) == w.Caller?
    ensures Good(g, Next(Push(s.(stack := k), v)), Val(sh), w)
  {
    hide Point, TablesFine, NoHandler, Fits, Fine;
    Refit(g, s.envs, s.cur, v, k, sh, w);
  }

  lemma OneStep(g: Program, op: Op, s: State, sh: Shape, w: Waiting, sh': Shape)
    requires op in {Car, Cdr, Not, IsEmpty, Dup, Drop, GetDepth}
    requires Shaped(g, s, sh, w) && OpFlow(op, true, sh) == Live(true, sh') && Point(g, s.Ip(), sh')
      && SetIp(s, s.Ip()) == s
    requires forall k: Stack, m: string, vs: seq<Value> :: Throw(s.(stack := k), m, vs) == Abort
    ensures Good(g, Exec(Plain(op), s.Ip(), s), sh', w)
  {
    hide Throw, Point, TablesFine, NoHandler, Depth, Fits, Exec, SetIp, ExecTwo, ExecTransfer, ExecRead;
    if op == GetDepth {
      DepthIs(s);
      PushGood(g, s, sh, Fixnum(Depth(s.stack)), s.stack, sh, w);
    } else {
      Slots(g, s.envs, s.cur, s.stack, sh, w);
      TopFine(g, s.envs, s.cur, s.stack, sh, w);
      PopOne(op, s);
      if op == Drop {
        DropGood(g, s, sh, w);
      } else {
        hide Good, Shaped;
        OneResult(g, op, s, sh, w);
      }
    }
  }

  lemma DropGood(g: Program, s: State, sh: Shape, w: Waiting)
    requires sh.Val? && Shaped(g, s, sh, w) && Point(g, s.Ip(), sh.rest) && s.stack.On?
      && Fits(g, s.envs, s.cur, s.stack.rest, sh.rest, w)
    ensures Good(g, Next(s.(stack := s.stack.rest)), sh.rest, w)
  {
    hide Point, TablesFine, NoHandler, Fits;
  }

  lemma OneResult(g: Program, op: Op, s: State, sh: Shape, w: Waiting)
    requires op in {Car, Cdr, Not, IsEmpty, Dup} && sh.Val? && Shaped(g, s, sh, w)
      && Point(g, s.Ip(), OpFlow(op, true, sh).sh)
    requires s.stack.On? && Fine(g, s.envs, s.cur, s.stack.top) && Fits(g, s.envs, s.cur, s.stack.rest, sh.rest, w)
    requires forall k: Stack, m: string, vs: seq<Value> :: Throw(s.(stack := k), m, vs) == Abort
    ensures Good(g, ExecOne(op, s.stack.top, s.(stack := s.stack.rest)), OpFlow(op, true, sh).sh, w)
  {
    var a, k := s.stack.top, s.stack.rest;
    assert HasBack(sh) == HasBack(sh.rest) == w.Caller?;
    hide Throw, Point, Good, Shaped, Fits, HasBack, ExecTwo, ExecTransfer, ExecRead;
    if op == Dup {
      Refit(g, s.envs, s.cur, a, k, sh.rest, w);
      PushGood(g, s, sh, a, On(a, k), sh, w);
    } else if op == Car || op == Cdr {
      if a.Pair? { PushGood(g, s, sh, if op == Car then a.car else a.cdr, k, sh.rest, w); }
      else { AbortGood(g, sh, w); }
    } else {
      PushGood(g, s, sh, Bool(if op == Not then a == Bool(false) else a == Empty), k, sh.rest, w);
    }
  }

  lemma AbortGood(g: Program, sh: Shape, w: Waiting) ensures Good(g, Abort, sh, w) {}

  /** Two operands popped, the rest left as it is. */
  lemma PopTwo(op: Op, s: State)
    requires op == Cons || op == Swap || op.Math? || op == Bind || op == Set
    requires s.Ok() && s.stack.On? && s.stack.rest.On?
    ensures Exec(Plain(op), s.Ip(), s) == ExecTwo(op, s.stack.top, s.stack.rest.top, s.(stack := s.stack.rest.rest))
  {
    hide ExecTwo;
    assert SetIp(s, s.Ip()) == s by { assert s.envs[s.cur := s.envs[s.cur]] == s.envs; }
  }

  lemma TopFine(g: Program, envs: seq<Env>, cur: nat, k: Stack, sh: Shape, w: Waiting)
    requires Fits(g, envs, cur, k, sh, w)
    ensures sh.Val? ==> Fine(g, envs, cur, k.top)
  {
  }

  lemma Refit(g: Program, envs: seq<Env>, cur: nat, v: Value, k: Stack, sh: Shape, w: Waiting)
    requires Fits(g, envs, cur, k, sh, w) && Fine(g, envs, cur, v)
    ensures Fits(g, envs, cur, On(v, k), Val(sh), w)
  {
    hide Fine;
  }

  lemma Swapped(g: Program, envs: seq<Env>, cur: nat, k: Stack, sh: Shape, w: Waiting)
    requires Fits(g, envs, cur, k, sh, w) && OpFlow(Swap, true, sh).Live?
    ensures k.On? && k.rest.On?
      && Fits(g, envs, cur, On(k.rest.top, On(k.top, k.rest.rest)), OpFlow(Swap, true, sh).sh, w)
    ensures HasBack(OpFlow(Swap, true, sh).sh) == HasBack(sh)
  {
    hide Fine;
    var r := sh.rest;
    assert Fits(g, envs, cur, k.rest, r, w);
    assert Fits(g, envs, cur, k.rest.rest, r.rest, w);
    var sh' := OpFlow(Swap, true, sh).sh;
    assert Fits(g, envs, cur, On(k.top, k.rest.rest), sh'.rest, w);
  }

  lemma TwoStep(g: Program, op: Op, s: State, sh: Shape, w: Waiting, sh': Shape)
    requires op == Cons || op == Swap || op.Math?
    requires Shaped(g, s, sh, w) && OpFlow(op, true, sh) == Live(true, sh') && Point(g, s.Ip(), sh')
    requires forall k: Stack, m: string, vs: seq<Value> :: Throw(s.(stack := k), m, vs) == Abort
    ensures Good(g, Exec(Plain(op), s.Ip(), s), sh', w)
  {
    hide Throw, Point, TablesFine, NoHandler, Arith, Exec, Fits, ExecTwo, Good;
    Slots(g, s.envs, s.cur, s.stack, sh, w);
    PopTwo(op, s);
    TopFine(g, s.envs, s.cur, s.stack, sh, w);
    if op == Swap { SwapGood(g, s, sh, w); } else { PairGood(g, op, s, sh.rest.rest, w); }
  }

  lemma SwapGood(g: Program, s: State, sh: Shape, w: Waiting)
    requires Shaped(g, s, sh, w) && OpFlow(Swap, true, sh).Live? && Point(g, s.Ip(), OpFlow(Swap, true, sh).sh)
    requires s.stack.On? && s.stack.rest.On?
    ensures Good(g, ExecTwo(Swap, s.stack.top, s.stack.rest.top, s.(stack := s.stack.rest.rest)),
                 OpFlow(Swap, true, sh).sh, w)
  {
    hide Point, TablesFine, NoHandler, Fits, HasBack, OpFlow;
    Swapped(g, s.envs, s.cur, s.stack, sh, w);
  }

  /** cons and arithmetic: two values give one. */
  lemma PairGood(g: Program, op: Op, s: State, sh: Shape, w: Waiting)
    requires (op == Cons || op.Math?) && Shaped(g, s, Val(Val(sh)), w) && Point(g, s.Ip(), Val(sh)) && s.stack.On?
      && s.stack.rest.On?
    requires Fine(g, s.envs, s.cur, s.stack.top) && Fine(g, s.envs, s.cur, s.stack.rest.top)
      && Fits(g, s.envs, s.cur, s.stack.rest.rest, sh, w)
    requires forall k: Stack, m: string, vs: seq<Value> :: Throw(s.(stack := k), m, vs) == Abort
    ensures Good(g, ExecTwo(op, s.stack.top, s.stack.rest.top, s.(stack := s.stack.rest.rest)), Val(sh), w)
  {
    hide Throw, Point, TablesFine, NoHandler, Arith, Fits, Fine, HasBack, Good, ExecTwo;
    BackVal(sh);
    var a, b, k := s.stack.top, s.stack.rest.top, s.stack.rest.rest;
    if op == Cons {
      ConsIs(a, b, s.(stack := k));
      PairFine(g, s.envs, s.cur, a, b);
      PushGood(g, s, Val(Val(sh)), Pair(a, b), k, sh, w);
    } else {
      AbortGood(g, Val(sh), w);
      UndefinedGood(g, Val(sh), w);
      MathIs(op.m, a, b, s, k);
      ArithFine(g, s.envs, s.cur, op.m);
      if a.Fixnum? && b.Fixnum? && Arith(op.m, b.i, a.i).Some? {
        PushGood(g, s, Val(Val(sh)), Arith(op.m, b.i, a.i).value, k, sh, w);
      }
    }
  }

  lemma ConsIs(a: Value, b: Value, s: State)
    requires s.cur < |s.envs|
    ensures ExecTwo(Cons, a, b, s) == Next(Push(s, Pair(a, b)))
  {
  }

  lemma MathIs(m: MathOp, a: Value, b: Value, s: State, k: Stack)
    requires s.cur < |s.envs| && forall k: Stack, m: string, vs: seq<Value> :: Throw(s.(stack := k), m, vs) == Abort
    ensures ExecTwo(Math(m), a, b, s.(stack := k)) ==
      if !a.Fixnum? || !b.Fixnum? then Abort
      else if Arith(m, b.i, a.i).None? then Undefined else Next(Push(s.(stack := k), Arith(m, b.i, a.i).value))
  {
    hide Throw, Arith;
  }

  lemma PairFine(g: Program, envs: seq<Env>, cur: nat, a: Value, b: Value)
    requires Fine(g, envs, cur, a) && Fine(g, envs, cur, b)
    ensures Fine(g, envs, cur, Pair(a, b))
  {
  }

  lemma UndefinedGood(g: Program, sh: Shape, w: Waiting) ensures Good(g, Undefined, sh, w) {}

  lemma ArithFine(g: Program, envs: seq<Env>, cur: nat, m: MathOp)
    ensures forall a, b :: Arith(m, a, b).Some? ==> Fine(g, envs, cur, Arith(m, a, b).value)
  {
  }

  lemma LookupFine(g: Program, s: State, x: string)
    requires s.Ok() && TablesFine(g, s.envs, s.cur, s.tables)
    ensures var t := Lookup(s.envs, s.tables, s.cur, x);
      t.Some? ==> t.value < |s.tables| && x in s.tables[t.value] && Fine(g, s.envs, s.cur, s.tables[t.value][x])
  {
    Frames.LookupBound(s.envs, s.tables, s.cur, x);
  }

  lemma ReadStep(g: Program, s: State, sh: Shape, w: Waiting)
    requires Shaped(g, s, sh, w) && sh.Val? && Point(g, s.Ip(), sh)
    ensures Good(g, Exec(Plain(Read), s.Ip(), s), sh, w)
  {
    hide Throw, Point, TablesFine, NoHandler, Exec, ExecRead, Fits, Good;
    ThrowsAbort(s);
    Slots(g, s.envs, s.cur, s.stack, sh, w);
    PopRead(s);
    ReadGood(g, s, sh, w);
  }

  lemma PopRead(s: State)
    requires s.Ok() && s.stack.On?
    ensures Exec(Plain(Read), s.Ip(), s) == ExecRead(s.stack.top, s.(stack := s.stack.rest))
  {
    hide ExecRead;
    assert SetIp(s, s.Ip()) == s by { assert s.envs[s.cur := s.envs[s.cur]] == s.envs; }
  }

  lemma ReadGood(g: Program, s: State, sh: Shape, w: Waiting)
    requires Shaped(g, s, sh, w) && sh.Val? && Point(g, s.Ip(), sh) && s.stack.On?
      && Fits(g, s.envs, s.cur, s.stack.rest, sh.rest, w)
    requires forall k: Stack, m: string, vs: seq<Value> :: Throw(s.(stack := k), m, vs) == Abort
    ensures Good(g, ExecRead(s.stack.top, s.(stack := s.stack.rest)), sh, w)
  {
    assert HasBack(sh.rest) == w.Caller?;
    hide Throw, Point, TablesFine, NoHandler, Fits, HasBack, Lookup, Good;
    var x := s.stack.top;
    AbortGood(g, sh, w);
    if x.Symbol? {
      LookupFine(g, s, x.name);
      var t := Lookup(s.envs, s.tables, s.cur, x.name);
      if t.Some? { PushGood(g, s, sh, s.tables[t.value][x.name], s.stack.rest, sh.rest, w); }
    }
  }

  lemma BackVal(sh: Shape) ensures HasBack(Val(Val(sh))) == HasBack(sh) {}

  lemma WriteTables(g: Program, s: State, x: string, v: Value)
    requires s.Ok() && TablesFine(g, s.envs, s.cur, s.tables) && Fine(g, s.envs, s.cur, v)
    ensures forall t :: 0 <= t < |s.tables| ==> TablesFine(g, s.envs, s.cur, s.tables[t := s.tables[t][x := v]])
  {
    hide Fine;
  }

  lemma WriteStep(g: Program, op: Op, s: State, sh: Shape, w: Waiting)
    requires (op == Bind || op == Set) && Shaped(g, s, Val(Val(sh)), w) && Point(g, s.Ip(), sh)
    ensures Good(g, Exec(Plain(op), s.Ip(), s), sh, w)
  {
    hide Throw, Point, NoHandler, Exec, HasBack, Fits, Fine, TablesFine, ExecTwo;
    ThrowsAbort(s);
    Slots(g, s.envs, s.cur, s.stack, Val(Val(sh)), w);
    PopTwo(op, s);
    assert HasBack(Val(Val(sh))) == HasBack(sh) by { BackVal(sh); }
    var t := WriteIs(op, s.stack.top, s.stack.rest.top, s, s.stack.rest.rest);
    if s.stack.top.Symbol? { WriteTables(g, s, s.stack.top.name, s.stack.rest.top); }
  }

  lemma WriteIs(op: Op, a: Value, b: Value, s: State, k: Stack) returns (t: nat)
    requires (op == Bind || op == Set) && s.cur < |s.envs|
    requires forall k: Stack, m: string, vs: seq<Value> :: Throw(s.(stack := k), m, vs) == Abort
    ensures var o := ExecTwo(op, a, b, s.(stack := k));
      o.Next? ==>
        && a.Symbol? && t < |s.tables|
        && o.s == s.(stack := k, tables := s.tables[t := s.tables[t][a.name := b]])
  {
    hide Throw;
    if op == Set && a.Symbol? {
      var o := Lookup(s.envs, s.tables, s.cur, a.name);
      t := if o.Some? then o.value else 0;
    } else {
      t := s.envs[s.cur].table;
    }
  }

  lemma LiteralStep(g: Program, l: Lit, s: State, sh: Shape, w: Waiting)
    requires Shaped(g, s, sh, w) && Point(g, s.Ip(), Val(sh))
    ensures Good(g, Exec(Literal(l), s.Ip(), s), Val(sh), w)
  {
    assert SetIp(s, s.Ip()) == s by { assert s.envs[s.cur := s.envs[s.cur]] == s.envs; }
    hide Point, TablesFine;
  }

  // ---------- jumps, calls and returns ----------

  lemma JmpStep(g: Program, s: State, t: int, sh: Shape, w: Waiting)
    requires Shaped(g, s, sh, w) && Point(g, t, sh)
    ensures Good(g, ExecJump(Jmp, t, s), sh, w)
  {
    MoveShaped(g, s, t, sh, w);
  }

  lemma JnfStep(g: Program, s: State, t: int, sh: Shape, w: Waiting)
    requires Shaped(g, s, Val(sh), w) && Point(g, t, sh) && Point(g, s.Ip(), sh)
    ensures Good(g, ExecJump(Jnf, t, s), sh, w)
  {
    hide Point, TablesFine, Fine;
    var s1 := s.(stack := s.stack.rest);
    assert Shaped(g, s1, sh, w);
    MoveShaped(g, s1, t, sh, w);
  }

  lemma ProcStep(g: Program, s: State, t: int, sh: Shape, w: Waiting)
    requires Shaped(g, s, sh, w) && Point(g, t, Back(Val(Nil))) && Point(g, s.Ip(), Val(sh))
    ensures Good(g, ExecJump(Proc, t, s), Val(sh), w)
  {
    hide Point, TablesFine;
    var envs := s.envs + [s.envs[s.cur].(ip := t)];
    FitsMono(g, s.envs, s.cur, envs, s.cur, s.stack, sh, w);
    TablesMono(g, s.envs, s.cur, envs, s.cur, s.tables);
    assert Fine(g, envs, s.cur, Closure(|s.envs|));
  }

  /** A let* that is not in tail position: the activation waits for the body's value. */
  lemma CallStep(g: Program, s: State, t: int, sh: Shape, w: Waiting)
    requires Shaped(g, s, sh, w) && Point(g, t, Back(Nil)) && Point(g, s.Ip(), Val(sh))
    ensures Good(g, ExecJump(Call, t, s), Back(Nil), Caller(s.cur, sh, w))
  {
    hide Point;
    var u := SetIp(PushEnv(Push(s, Closure(s.cur))), t);
    assert Frames.KeepsRecords(s.envs, s.cur, u.envs, u.cur);
    FitsMono(g, s.envs, s.cur, u.envs, u.cur, s.stack, sh, w);
    TablesMono(g, s.envs, s.cur, u.envs, u.cur, s.tables);
    assert u.envs[s.cur] == s.envs[s.cur];
    Waits(g, u.envs, u.cur, s.stack, s.cur, sh, w);
  }

  lemma Waits(g: Program, envs: seq<Env>, cur: nat, k: Stack, e: nat, sh: Shape, w: Waiting)
    requires Fits(g, envs, cur, k, sh, w) && e < |envs| && e != cur && Point(g, envs[e].ip, Val(sh))
      && HasBack(sh) == w.Caller?
    ensures Fits(g, envs, cur, k, Nil, Caller(e, sh, w))
    ensures Fits(g, envs, cur, On(Closure(e), k), Back(Nil), Caller(e, sh, w))
    ensures forall v :: Fine(g, envs, cur, v) ==>
      Fits(g, envs, cur, On(Closure(e), On(v, k)), Back(Val(Nil)), Caller(e, sh, w))
  {
    hide Fine;
  }

  lemma EnteredShape(g: Program, s: State, x: nat, k: Stack)
    requires s.Ok() && NoHandler(s.envs) && TablesFine(g, s.envs, s.cur, s.tables) && x < |s.envs|
    ensures var u := PushEnv(Enter(s.(stack := k), s.envs[x]));
      Frames.KeepsRecords(s.envs, s.cur, u.envs, u.cur) && u.Ok() && NoHandler(u.envs)
        && TablesFine(g, u.envs, u.cur, u.tables)
      && u.envs[s.cur] == s.envs[s.cur] && u.cur > s.cur && u.Ip() == s.envs[x].ip
  {
    hide Fine;
    var u := PushEnv(Enter(s.(stack := k), s.envs[x]));
    TablesMono(g, s.envs, s.cur, u.envs, u.cur, s.tables);
    assert Frames.KeepsRecords(s.envs, s.cur, u.envs, u.cur);
  }

  lemma CallInStep(g: Program, s: State, sh: Shape, w: Waiting)
    requires Shaped(g, s, Val(Val(sh)), w) && Point(g, s.Ip(), Val(sh)) && s.stack.On?
    ensures Good(g, ExecTransfer(CallIn, s.stack.top, s.(stack := s.stack.rest)), Back(Val(Nil)), Caller(s.cur, sh, w))
  {
    hide Throw, Point, TablesFine, NoHandler, PushEnv;
    ThrowsAbort(s);
    Slots(g, s.envs, s.cur, s.stack, Val(Val(sh)), w);
    var a := s.stack.top;
    if a.Closure? && a.env < |s.envs| {
      var v := s.stack.rest.top;
      var k := s.stack.rest.rest;
      var k' := On(Closure(s.cur), On(v, k));
      var u := PushEnv(Enter(s.(stack := k'), s.envs[a.env]));
      EnteredShape(g, s, a.env, k');
      StackOf(s, a.env, k');
      FitsMono(g, s.envs, s.cur, u.envs, u.cur, k, sh, w);
      FineMono(g, s.envs, s.cur, u.envs, u.cur, v);
      BackVal(sh);
      Waits(g, u.envs, u.cur, k, s.cur, sh, w);
    }
  }

  lemma StackOf(s: State, x: nat, k: Stack)
    requires s.Ok() && x < |s.envs|
    ensures PushEnv(Enter(s.(stack := k), s.envs[x])).stack == k
  {
  }

  /** A tail call hands its own return on: the pile does not grow. */
  lemma TailCallStep(g: Program, s: State, w: Waiting)
    requires Shaped(g, s, Val(Val(Back(Nil))), w) && s.stack.On?
    ensures Good(g, ExecTransfer(TailCallIn, s.stack.top, s.(stack := s.stack.rest)), Back(Val(Nil)), w)
  {
    hide Throw, Point, TablesFine, NoHandler, PushEnv;
    ThrowsAbort(s);
    Slots(g, s.envs, s.cur, s.stack, Val(Val(Back(Nil))), w);
    Slots(g, s.envs, s.cur, s.stack.rest, Val(Back(Nil)), w);
    assert s.stack.rest.rest.top == Closure(w.e);
    var a := s.stack.top;
    if a.Closure? && a.env < |s.envs| {
      var v := s.stack.rest.top;
      var k := s.stack.rest.rest.rest;
      var k' := On(Closure(w.e), On(v, k));
      var u := PushEnv(Enter(s.(stack := k'), s.envs[a.env]));
      EnteredShape(g, s, a.env, k');
      StackOf(s, a.env, k');
      FitsMono(g, s.envs, s.cur, u.envs, u.cur, k, Nil, w);
      FineMono(g, s.envs, s.cur, u.envs, u.cur, v);
      assert Fits(g, u.envs, u.cur, On(v, k), Val(Nil), w);
      assert ExecTransfer(TailCallIn, a, s.(stack := s.stack.rest)) == Next(u);
    }
  }

  /** A return resumes the waiting activation with one value more. */
  lemma RetStep(g: Program, s: State, w: Waiting)
    requires Shaped(g, s, Back(Val(Nil)), w) && s.stack.On?
    ensures w.Caller? && Good(g, ExecTransfer(Ret, s.stack.top, s.(stack := s.stack.rest)), Val(w.sh), w.more)
  {
    hide Throw, Point, TablesFine;
    Slots(g, s.envs, s.cur, s.stack, Back(Val(Nil)), w);
    var v := s.stack.rest.top;
    var k := s.stack.rest.rest;
    assert Fits(g, s.envs, s.cur, k, Nil, w);
    var u := Enter(s.(stack := On(v, k)), s.envs[w.e]);
    assert Frames.KeepsRecords(s.envs, s.cur, u.envs, u.cur);
    TablesMono(g, s.envs, s.cur, u.envs, u.cur, s.tables);
    FineMono(g, s.envs, s.cur, u.envs, u.cur, v);
    FitsMono(g, s.envs, s.cur, u.envs, u.cur, k, w.sh, w.more);
  }

  // ---------- every step ----------

  lemma Standing(g: Program, s: State, sh: Shape, w: Waiting)
    requires Shaped(g, s, sh, w)
    ensures s.Ok() && (Point(g, s.Ip(), sh) ==> 0 <= s.Ip())
  {
  }

  lemma JumpIs(code: seq<Item>, s: State, n: nat)
    requires s.Ok() && 0 <= s.Ip() < |code| && code[s.Ip()].Ins? && code[s.Ip()].i.Jump?
      && code[s.Ip()].i.target == Gen(n)
    ensures SetIp(s, s.Ip() + 1).Ok() && SetIp(s, s.Ip() + 1).Ip() == s.Ip() + 1
    ensures Step(code, s) == ExecJump(code[s.Ip()].i.kind, LabelPos(code, Gen(n)), SetIp(s, s.Ip() + 1))
  {
    hide ExecJump;
  }

  lemma PlainIs(code: seq<Item>, s: State, op: Op)
    requires s.Ok() && 0 <= s.Ip() < |code| && code[s.Ip()] == Do(op)
    ensures SetIp(s, s.Ip() + 1).Ok() && Step(code, s) == Exec(Plain(op), s.Ip() + 1, s)
  {
    hide Exec;
  }

  lemma JumpStep(g: Program, s: State, sh: Shape, w: Waiting) returns (sh': Shape, w': Waiting)
    requires Checked(g) && Shaped(g, s, sh, w) && Point(g, s.Ip(), sh) && s.Ip() < |g.code|
    requires g.code[s.Ip()].Ins? && g.code[s.Ip()].i.Jump?
    ensures Good(g, Step(g.code, s), sh', w')
  {
    hide Checked, Shaped, Good, Point, FlowOf, ExecJump, Exec, Step, SetIp, LabelPos;
    Standing(g, s, sh, w);
    var p := s.Ip();
    var kind := g.code[p].i.kind;
    PointHere(g, p, sh);
    var n := g.code[p].i.target.n;
    PointTarget(g, p, n);
    var t := LabelPos(g.code, Gen(n));
    var s1 := SetIp(s, p + 1);
    MoveShaped(g, s, p + 1, sh, w);
    JumpIs(g.code, s, n);
    match kind
    case Jmp => sh', w' := sh, w; JmpStep(g, s1, t, sh, w);
    case Jnf => sh', w' := sh.rest, w; JnfStep(g, s1, t, sh.rest, w);
    case Proc => sh', w' := Val(sh), w; ProcStep(g, s1, t, sh, w);
    case Call => sh', w' := Back(Nil), Caller(s1.cur, sh, w); CallStep(g, s1, t, sh, w);
    case Continue => assert false;
  }

  /** PointNext with the range facts that go with it. */
  lemma PointHere(g: Program, p: int, sh: Shape)
    requires Checked(g) && Point(g, p, sh) && p < |g.code|
    ensures g.code[p].Mark? ==> Point(g, p + 1, sh)
    ensures g.code[p].Ins? ==>
      var f := Through(g.code[p], Live(true, sh), g.at); !f.Bad? && (f.Live? && f.reached ==> Point(g, p + 1, f.sh))
    ensures 0 <= p
  {
    PointNext(g, p, sh);
  }

  lemma PlainStep(g: Program, s: State, sh: Shape, w: Waiting, op: Op) returns (sh': Shape, w': Waiting)
    requires Checked(g) && Shaped(g, s, sh, w) && Point(g, s.Ip(), sh) && s.Ip() < |g.code|
    requires g.code[s.Ip()] == Do(op)
    ensures Good(g, Step(g.code, s), sh', w')
  {
    hide Checked, Shaped, Good, Point, FlowOf, Exec, Step, SetIp;
    Standing(g, s, sh, w);
    var p := s.Ip();
    PointHere(g, p, sh);
    var s1 := SetIp(s, p + 1);
    MoveShaped(g, s, p + 1, sh, w);
    SetAgain(s, p + 1, Plain(op));
    PlainIs(g.code, s, op);
    match op
    case Read => sh', w' := sh, w; ReadStep(g, s1, sh, w);
    case Bind | Set => sh', w' := sh.rest.rest, w; WriteStep(g, op, s1, sh', w);
    case CallIn =>
      sh', w' := Back(Val(Nil)), Caller(s1.cur, sh.rest.rest, w);
      TransferIs(op, s1, sh, w, g);
      CallInStep(g, s1, sh.rest.rest, w);
    case TailCallIn => sh', w' := Back(Val(Nil)), w; TransferIs(op, s1, sh, w, g); TailCallStep(g, s1, w);
    case Ret => TransferIs(op, s1, sh, w, g); RetStep(g, s1, w); sh', w' := Val(w.sh), w.more;
    case Cons | Car | Cdr | Not | IsEmpty | Dup | Drop | GetDepth | Swap | Math(_) =>
      sh', w' := OpFlow(op, true, sh).sh, w;
      LocalStep(g, op, s1, sh, w, sh');
    case Rot | Adopt | Jin | Restore => assert false;
  }

  lemma SetAgain(s: State, p: int, i: Instr<int>)
    requires s.Ok()
    ensures Exec(i, p, SetIp(s, p)) == Exec(i, p, s) && SetIp(s, p).Ip() == p
  {
    assert SetIp(SetIp(s, p), p) == SetIp(s, p);
  }

  lemma TransferIs(op: Op, s: State, sh: Shape, w: Waiting, g: Program)
    requires op in {CallIn, TailCallIn, Ret} && Shaped(g, s, sh, w) && (sh.Val? || sh.Back?)
    ensures s.stack.On? && Exec(Plain(op), s.Ip(), s) == ExecTransfer(op, s.stack.top, s.(stack := s.stack.rest))
  {
    hide Point, TablesFine, NoHandler, Fine;
    assert SetIp(s, s.Ip()) == s by { assert s.envs[s.cur := s.envs[s.cur]] == s.envs; }
  }

  /** Every step of a compiled program keeps the pile of activations well shaped. */
  lemma SafeStep(g: Program, s: State, sh: Shape, w: Waiting) returns (sh': Shape, w': Waiting)
    requires Checked(g) && Safe(g, s, sh, w) && s.Ip() < |g.code|
    ensures Step(g.code, s).Next? ==> Safe(g, Step(g.code, s).s, sh', w')
  {
    hide Checked, Fits, TablesFine, NoHandler, Point, Exec, FlowOf;
    var p := s.Ip();
    assert Shaped(g, s, sh, w);
    StepInv(g, s, sh);
    PointHere(g, p, sh);
    if g.code[p].Mark? {
      sh', w' := sh, w;
      MoveShaped(g, s, p + 1, sh, w);
    } else {
      match g.code[p].i
      case Literal(l) =>
        sh', w' := Val(sh), w;
        MoveShaped(g, s, p + 1, sh, w);
        SetAgain(s, p + 1, Literal(l));
        LiteralStep(g, l, SetIp(s, p + 1), sh, w);
      case Plain(op) => sh', w' := PlainStep(g, s, sh, w, op);
      case Jump(_, _) => sh', w' := JumpStep(g, s, sh, w);
    }
  }

  lemma StepInv(g: Program, s: State, sh: Shape)
    requires Frames.Inv(s) && Point(g, s.Ip(), sh) && s.Ip() < |g.code|
    ensures Step(g.code, s).Next? ==> Frames.Inv(Step(g.code, s).s)
  {
    hide Exec;
    if g.code[s.Ip()].Mark? { Frames.TouchInv(s, s.envs[s.cur].(ip := s.Ip() + 1)); }
    else { Frames.ExecInv(Resolve(g.code, g.code[s.Ip()].i), s.Ip() + 1, s); }
  }

  // ---------- no under-run ----------

  /** How many operands an item takes from the stack. */
  function Operands(it: Item): nat {
    match it
    case Mark(_) => 0
    case Ins(Literal(_)) => 0
    case Ins(Jump(k, _)) => if k == Jnf then 1 else 0
    case Ins(Plain(op)) =>
      match op
      case GetDepth | Restore => 0
      case Drop | Dup | Not | IsEmpty | Car | Cdr | Read | Ret | Jin | CallIn => 1
      case Rot | TailCallIn => 3
      case _ => 2
  }

  lemma {:induction false} FitsDepth(g: Program, envs: seq<Env>, cur: nat, k: Stack, sh: Shape, w: Waiting)
    requires Fits(g, envs, cur, k, sh, w)
    ensures Depth(k) >= Size(sh)
    decreases sh
  {
    match sh
    case Nil =>
    case Val(r) => FitsDepth(g, envs, cur, k.rest, r, w);
    case Back(r) => FitsDepth(g, envs, cur, k.rest, r, w);
  }

  /** The operands of the next instruction lie within the running activation. */
  lemma NoUnderRun(g: Program, s: State, sh: Shape, w: Waiting)
    requires Checked(g) && Safe(g, s, sh, w) && s.Ip() < |g.code|
    ensures 0 <= s.Ip() && Operands(g.code[s.Ip()]) <= Size(sh) <= Depth(s.stack)
  {
    hide Checked, FlowOf, Point, Fits, TablesFine;
    PointHere(g, s.Ip(), sh);
    FitsDepth(g, s.envs, s.cur, s.stack, sh, w);
  }

  // ---------- whole runs ----------

  lemma {:induction false} RunSafe(g: Program, s: State, sh: Shape, w: Waiting, n: nat, t: State)
    returns (sh': Shape, w': Waiting)
    requires Checked(g) && Safe(g, s, sh, w) && Iterate(Stepper(g.code), s, n) == Some(t)
    ensures Safe(g, t, sh', w')
    decreases n
  {
    hide Checked, Safe, Step;
    if n == 0 {
      sh', w' := sh, w;
    } else {
      SafeIp(g, s, sh, w);
      sh', w' := SafeStep(g, s, sh, w);
      sh', w' := RunSafe(g, Stepper(g.code)(s).value, sh', w', n - 1, t);
    }
  }

  lemma SafeIp(g: Program, s: State, sh: Shape, w: Waiting)
    requires Safe(g, s, sh, w)
    ensures s.Ok()
  {
  }

  /** The code and label shapes of a compiled program. */
  lemma Compiled(s: Stream, l: nat) returns (g: Program)
    requires Formed(s)
    ensures g.code == EmitStream(s, false, l).code && Checked(g)
  {
    hide EmitStream, Flows, Labels.Count;
    var m := StreamFlow(s, false, l, Nil);
    g := Program(EmitStream(s, false, l).code, m);
    FallsNoTail(s);
    FlowsHere(g.code, m);
    Labels.EmittedLabels(s, false, l);
  }

  lemma FlowsHere(code: seq<Item>, m: Shapes)
    requires Flows(code, EMPTY, Live(true, Val(Nil)), m)
    ensures FlowOf(code, EMPTY, m) == Live(true, Val(Nil))
  {
    SubRefl(m);
  }

  lemma StartSafe(g: Program)
    requires Checked(g)
    ensures Safe(g, Start(), Nil, Nobody)
  {
    Frames.StartInv();
    assert g.code[..0] == [];
    FallInto(g, 0, Nil);
  }

  /** Every state of every run of a compiled program: the next instruction has its operands, and at
      the end of the code the stack holds the value of the program and nothing else. */
  lemma CompiledRunsSafely(s: Stream, l: nat, t: State)
    requires Formed(s) && Reaches(EmitStream(s, false, l).code, Start(), t)
    ensures var code := EmitStream(s, false, l).code;
      && t.Ok() && 0 <= t.Ip() <= |code|
      && (t.Ip() < |code| ==> Operands(code[t.Ip()]) <= Depth(t.stack))
      && (t.Ip() == |code| ==> t.stack.On? && t.stack.rest.Bottom?)
  {
    hide EmitStream, Checked, Safe, Step;
    var g := Compiled(s, l);
    var n: nat :| Iterate(Stepper(g.code), Start(), n) == Some(t);
    StartSafe(g);
    var sh, w := RunSafe(g, Start(), Nil, Nobody, n, t);
    SafeEnd(g, t, sh, w);
  }

  lemma SafeEnd(g: Program, t: State, sh: Shape, w: Waiting)
    requires Checked(g) && Safe(g, t, sh, w)
    ensures t.Ok() && 0 <= t.Ip() <= |g.code|
    ensures t.Ip() < |g.code| ==> Operands(g.code[t.Ip()]) <= Depth(t.stack)
    ensures t.Ip() == |g.code| ==> t.stack.On? && t.stack.rest.Bottom?
  {
    if t.Ip() < |g.code| {
      NoUnderRun(g, t, sh, w);
    } else {
      assert g.code[..|g.code|] == g.code;
      assert sh == Val(Nil) && w == Nobody;
      assert Fits(g, t.envs, t.cur, t.stack.rest, Nil, Nobody);
    }
  }
}
