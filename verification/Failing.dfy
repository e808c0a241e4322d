/** Runs that never come to the end of the code: they stop inside it at an instruction that cannot
    go on, or they go on for at least as many steps as asked. */
module Failing {
  import opened Machine
  import opened Syntax
  import opened Runs
  import opened Code
  import opened Emit
  import opened Eval
  import opened Simulation
  import opened Stages
  import opened StackSafety

  /** The instruction at t has no next state: an exception nobody handles, or undefined arithmetic. */
  ghost predicate Stuck(code: seq<Item>, t: State) {
    t.Ok() && 0 <= t.Ip() < |code| && !Step(code, t).Next?
  }

  ghost predicate LostAfter(code: seq<Item>, s: State, k: nat, m: nat) {
    var o := Iterate(Stepper(code), s, m);
    o.Some? && (m >= k || Stuck(code, o.value))
  }

  /** From s the machine takes at least k steps, or gets stuck. */
  ghost predicate Lost(code: seq<Item>, s: State, k: nat) { exists m: nat :: LostAfter(code, s, k, m) }

  lemma LostNow(code: seq<Item>, s: State)
    ensures Lost(code, s, 0)
  {
    assert LostAfter(code, s, 0, 0);
  }

  lemma LostStuck(code: seq<Item>, s: State, k: nat)
    requires Stuck(code, s)
    ensures Lost(code, s, k)
  {
    assert LostAfter(code, s, k, 0);
  }

  lemma LostFrom(code: seq<Item>, s: State, t: State, k: nat)
    requires Reaches(code, s, t) && Lost(code, t, k)
    ensures Lost(code, s, k)
  {
    hide Stuck, Step;
    var n: nat :| Iterate(Stepper(code), s, n) == Some(t);
    var m: nat :| LostAfter(code, t, k, m);
    IteratePlus(Stepper(code), s, n, t, m);
    assert LostAfter(code, s, k, n + m);
  }

  /** A step counts. */
  lemma LostStep(code: seq<Item>, s: State, t: State, k: nat)
    requires s.Ok() && 0 <= s.Ip() < |code| && Step(code, s) == Next(t) && Lost(code, t, k)
    ensures Lost(code, s, k + 1)
  {
    var m: nat :| LostAfter(code, t, k, m);
    hide Stuck, Step;
    assert Stepper(code)(s) == Some(t);
    assert Iterate(Stepper(code), s, m + 1) == Iterate(Stepper(code), t, m);
    assert LostAfter(code, s, k + 1, m + 1);
  }

  lemma {:induction false} Stops(code: seq<Item>, s: State, n: nat, t: State, m: nat)
    requires Iterate(Stepper(code), s, n) == Some(t) && Stepper(code)(t).None? && m > n
    ensures Iterate(Stepper(code), s, m).None?
    decreases n
  {
    hide Step;
    if n > 0 { Stops(code, Stepper(code)(s).value, n - 1, t, m - 1); }
  }

  lemma {:induction false} EarlierGoesOn(code: seq<Item>, s: State, n: nat, t: State, m: nat, u: State)
    requires Iterate(Stepper(code), s, n) == Some(t) && m < n && Iterate(Stepper(code), s, m) == Some(u)
    ensures Stepper(code)(u).Some?
    decreases n
  {
    hide Step;
    if m > 0 { EarlierGoesOn(code, Stepper(code)(s).value, n - 1, t, m - 1, u); }
  }

  lemma StuckNone(code: seq<Item>, t: State)
    ensures Stuck(code, t) ==> Stepper(code)(t).None? && t.Ok() && t.Ip() < |code|
  {
    hide Step;
  }

  /** A run that reaches the end of the code in n steps is not lost beyond them. */
  lemma EndNotLost(code: seq<Item>, s: State, n: nat, t: State)
    requires Iterate(Stepper(code), s, n) == Some(t) && t.Ok() && t.Ip() == |code|
    ensures !Lost(code, s, n + 1)
  {
    hide Step;
    assert Stepper(code)(t).None?;
    if Lost(code, s, n + 1) {
      var m: nat :| LostAfter(code, s, n + 1, m);
      StuckNone(code, Iterate(Stepper(code), s, m).value);
      hide Stuck;
      if m > n {
        Stops(code, s, n, t, m);
      } else {
        var u := Iterate(Stepper(code), s, m).value;
        if m < n { EarlierGoesOn(code, s, n, t, m, u); }
      }
    }
  }

  // ---------- no exception handler ----------

  /** Code that enables no exception handler. */
  ghost predicate Calm(code: seq<Item>) {
    forall i :: 0 <= i < |code| ==> CalmItem(code[i])
  }

  ghost predicate CalmItem(it: Item) {
    match it
    case Ins(Jump(k, _)) => k != Continue
    case Ins(Plain(op)) => op != Restore
    case _ => true
  }

  ghost predicate CalmOut(o: Outcome) { o.Next? ==> NoHandler(o.s.envs) }

  lemma TransferCalm(op: Op, a: Value, s: State)
    requires s.Ok() && NoHandler(s.envs)
    ensures CalmOut(ExecTransfer(op, a, s))
  {
    hide Throw;
    ThrowAborts(s, "Attempt to jump to non-closure", [a]);
  }

  lemma ExecCalm(i: Instr<int>, next: int, s: State)
    requires s.Ok() && NoHandler(s.envs) && (i.Jump? ==> i.kind != Continue) && i != Plain(Restore)
    ensures CalmOut(Exec(i, next, s))
  {
    hide ExecOne, ExecJump;
    var s1 := SetIp(s, next);
    if i.Jump? { JumpCalm(i.kind, i.target, s1); }
    if i.Plain? && s1.stack.On? { OneCalm(i.op, s1.stack.top, s1.(stack := s1.stack.rest)); }
  }

  lemma JumpCalm(k: JumpKind, p: int, s: State)
    requires s.Ok() && NoHandler(s.envs) && k != Continue
    ensures CalmOut(ExecJump(k, p, s))
  {
  }

  lemma OneCalm(op: Op, a: Value, s: State)
    requires s.Ok() && NoHandler(s.envs)
    ensures CalmOut(ExecOne(op, a, s))
  {
    hide Throw, ExecTransfer, ExecTwo, ExecRead, NoHandler;
    ThrowAborts(s, "Attempt to read the car of a non-pair", [a]);
    ThrowAborts(s, "Attempt to read the cdr of a non-pair", [a]);
    ReadCalm(a, s);
    TransferCalm(op, a, s);
    if s.stack.On? { TwoCalm(op, a, s.stack.top, s.(stack := s.stack.rest)); }
  }

  lemma ReadCalm(a: Value, s: State)
    requires s.Ok() && NoHandler(s.envs)
    ensures CalmOut(ExecRead(a, s))
  {
    hide Throw, Lookup, NoHandler;
    ThrowAborts(s, "Attempt to read with non-symbol", [a]);
    ThrowAborts(s, "Attempt to read undefined symbol", [a]);
  }

  lemma TwoCalm(op: Op, a: Value, b: Value, s: State)
    requires s.Ok() && NoHandler(s.envs)
    ensures CalmOut(ExecTwo(op, a, b, s))
  {
    hide NoHandler;
    if op.Math? { MathCalm(op.m, a, b, s); }
    else if op == Bind || op == Set { WriteCalm(op, a, b, s); }
    else if op == Adopt { AdoptCalm(a, b, s); }
  }

  lemma MathCalm(m: MathOp, a: Value, b: Value, s: State)
    requires s.Ok() && NoHandler(s.envs)
    ensures CalmOut(ExecTwo(Math(m), a, b, s))
  {
    hide Throw, Arith, NoHandler;
    ThrowAlways(s);
  }

  lemma WriteCalm(op: Op, a: Value, b: Value, s: State)
    requires s.Ok() && NoHandler(s.envs) && (op == Bind || op == Set)
    ensures CalmOut(ExecTwo(op, a, b, s))
  {
    hide Throw, Lookup, NoHandler;
    ThrowAlways(s);
  }

  lemma ThrowAlways(s: State)
    requires s.Ok() && NoHandler(s.envs)
    ensures forall m: string, vs: seq<Value> :: Throw(s, m, vs) == Abort
  {
    forall m: string, vs: seq<Value> ensures Throw(s, m, vs) == Abort { ThrowAborts(s, m, vs); }
  }

  lemma AdoptCalm(a: Value, b: Value, s: State)
    requires s.Ok() && NoHandler(s.envs)
    ensures CalmOut(ExecTwo(Adopt, a, b, s))
  {
    hide Throw;
    ThrowAlways(s);
  }

  lemma {:induction false} RunCalm(code: seq<Item>, s: State, n: nat, t: State)
    requires Calm(code) && NoHandler(s.envs) && Iterate(Stepper(code), s, n) == Some(t)
    ensures NoHandler(t.envs)
    decreases n
  {
    hide Exec, NoHandler;
    if n > 0 {
      var u := Stepper(code)(s).value;
      StepCalm(code, s);
      RunCalm(code, u, n - 1, t);
    }
  }

  lemma StepCalm(code: seq<Item>, s: State)
    requires Calm(code) && s.Ok() && NoHandler(s.envs) && 0 <= s.Ip() < |code|
    ensures CalmOut(Step(code, s))
  {
    hide Exec, LabelPos;
    assert CalmItem(code[s.Ip()]);
    if code[s.Ip()].Ins? { ExecCalm(Resolve(code, code[s.Ip()].i), s.Ip() + 1, s); }
  }

  lemma ReachCalm(code: seq<Item>, s: State, t: State)
    requires Calm(code) && NoHandler(s.envs) && Reaches(code, s, t)
    ensures NoHandler(t.envs)
  {
    hide Step, NoHandler, Calm;
    var n: nat :| Iterate(Stepper(code), s, n) == Some(t);
    RunCalm(code, s, n, t);
  }

  /** Checked code is calm. */
  lemma CheckedCalm(g: Program)
    requires Checked(g)
    ensures Calm(g.code)
  {
    forall i | 0 <= i < |g.code| ensures CalmItem(g.code[i]) {
      PrefixGood(g, i + 1);
      PrefixNext(g, i);
    }
  }

  // ---------- where evaluation fails, the machine is stuck ----------

  /** At an instruction of one operand that raises. */
  lemma StuckOne(code: seq<Item>, t: State, op: Op, w: Value, k: Stack)
    requires t.Ok() && NoHandler(t.envs) && 0 <= t.Ip() < |code| && code[t.Ip()] == Do(op) && t.stack == On(w, k)
    requires ((op == Car || op == Cdr) && !w.Pair?) || ((op == CallIn || op == TailCallIn) && !w.Closure?)
      || (op == Read && !w.Symbol?)
    ensures Stuck(code, t)
  {
    PlainIs(code, t, op);
    SetAgain(t, t.Ip() + 1, Plain(op));
    var t1 := SetIp(t, t.Ip() + 1);
    var t2 := t1.(stack := k);
    ThrowAlways(t2);
    OpensOne(op, t1);
    hide Throw, Exec, Step, SetIp, NoHandler;
  }

  lemma OpensOne(op: Op, t: State)
    requires t.Ok() && t.stack.On? && op != GetDepth && op != Restore
    ensures Exec(Plain(op), t.Ip(), t) == ExecOne(op, t.stack.top, t.(stack := t.stack.rest))
  {
    hide ExecOne;
    assert SetIp(t, t.Ip()) == t by { assert t.envs[t.cur := t.envs[t.cur]] == t.envs; }
  }

  /** Reading a variable without a binding. */
  lemma StuckRead(code: seq<Item>, st: Store, t: State, f: nat, w: Value, k: Stack)
    requires Sim(code, st, f, t) && NoHandler(t.envs) && 0 <= t.Ip() < |code| && code[t.Ip()] == Do(Read)
      && t.stack == On(w, k)
    requires w.Symbol? ==> FindFrame(st, f, w.name).None?
    ensures Stuck(code, t)
  {
    if w.Symbol? {
      Unbound(code, st, t, f, w.name);
      hide Throw, Lookup;
      ThrowsAbort(SetIp(t, t.Ip() + 1));
    } else {
      hide Sim;
      StuckOne(code, t, Read, w, k);
    }
  }

  lemma Unbound(code: seq<Item>, st: Store, t: State, f: nat, x: string)
    requires Sim(code, st, f, t) && FindFrame(st, f, x).None?
    ensures var t1 := SetIp(t, t.Ip() + 1); Lookup(t1.envs, t1.tables, t1.cur, x) == None
  {
    hide FindFrame, Lookup;
    var t1 := SetIp(t, t.Ip() + 1);
    StoreMono(code, t, t1, st);
    EnvMono(t.envs, t1.envs, st, st, t.cur, f);
    LookupRep(code, st, t1, t.cur, f, x);
  }

  /** Binding or setting something that is no symbol, or setting what is not bound. */
  lemma StuckWrite(code: seq<Item>, st: Store, t: State, f: nat, op: Op, x: Value, w: Value, k: Stack)
    requires Sim(code, st, f, t) && NoHandler(t.envs) && 0 <= t.Ip() < |code| && code[t.Ip()] == Do(op)
    requires t.stack == On(x, On(w, k)) && (op == Bind || op == Set)
    requires x.Symbol? ==> op == Set && FindFrame(st, f, x.name).None?
    ensures Stuck(code, t)
  {
    if x.Symbol? { Unbound(code, st, t, f, x.name); }
    hide Throw, Lookup, Sim;
    ThrowsAbort(SetIp(t, t.Ip() + 1));
  }

  /** Arithmetic on something that is no number, or without a defined result. */
  lemma StuckMath(code: seq<Item>, t: State, m: MathOp, a: Value, b: Value, k: Stack)
    requires t.Ok() && NoHandler(t.envs) && 0 <= t.Ip() < |code| && code[t.Ip()] == Do(Math(m))
      && t.stack == On(a, On(b, k))
    requires a.Fixnum? && b.Fixnum? ==> Arith(m, b.i, a.i).None?
    ensures Stuck(code, t)
  {
    var t1 := SetIp(t, t.Ip() + 1);
    ThrowsAbort(t1);
    PlainIs(code, t, Math(m));
    SetAgain(t, t.Ip() + 1, Plain(Math(m)));
    PopTwo(Math(m), t1);
    hide Throw, Arith, Exec, Step, NoHandler;
  }
}
