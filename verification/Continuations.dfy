/** Who can see the table of a captured continuation.

    Once call/cc has saved a stack, the table that holds it is only on the environment chain of
    records that are inside the routine, and there only `ret-val` is ever bound, unless an `adopt`,
    the one instruction that lends a table to other code, lends this one.  That invariant is kept by
    exactly the steps that are not such an adopt; `Spoiling` says what follows for the capture. */
module Continuations {
  import opened Machine
  import opened Runs
  import opened Code
  import opened Stages
  import opened CallCc
  import Frames
  import Emit

  // ---------- records that can see table g ----------

  ghost predicate OnChain(envs: seq<Env>, e: nat, g: nat)
    decreases e
  {
    e < |envs| && (envs[e].table == g
      || (envs[e].parent.Some? && envs[e].parent.value < e && OnChain(envs, envs[e].parent.value, g)))
  }

  lemma {:induction false} ChainSame(envs: seq<Env>, envs': seq<Env>, e: nat, g: nat)
    requires e < |envs| <= |envs'|
    requires forall i :: 0 <= i < |envs| ==> envs'[i].table == envs[i].table && envs'[i].parent == envs[i].parent
    ensures OnChain(envs', e, g) == OnChain(envs, e, g)
    decreases e
  {
    if envs[e].parent.Some? && envs[e].parent.value < e { ChainSame(envs, envs', envs[e].parent.value, g); }
  }

  lemma {:induction false} LookupOff(envs: seq<Env>, tables: seq<Table>, e: nat, x: string, g: nat)
    requires !OnChain(envs, e, g)
    ensures Lookup(envs, tables, e, x) != Some(g)
    decreases e
  {
    if e < |envs| && envs[e].table < |tables| && x !in tables[envs[e].table] && envs[e].parent.Some?
      && envs[e].parent.value < e {
      LookupOff(envs, tables, envs[e].parent.value, x, g);
    }
  }

  // ---------- the invariant ----------

  /** Addresses of the routine after the capture. */
  ghost predicate Post(b: int, p: int) { b <= p < b + 33 || b + 62 <= p < b + 65 }

  /** About to bind: the key is already on the stack. */
  ghost predicate Binding(b: int, p: int) { p == b + 31 || p == b + 63 }

  ghost predicate Good(e: Env, b: int) { !e.handler && Post(b, e.ip) && !Binding(b, e.ip) }

  ghost predicate ChainGood(envs: seq<Env>, cur: nat, g: nat, b: int) {
    forall e :: 0 <= e < |envs| && e != cur && OnChain(envs, e, g) ==> Good(envs[e], b)
  }

  ghost predicate CurGood(s: State, g: nat, b: int)
    requires s.Ok()
  {
    OnChain(s.envs, s.cur, g) ==>
      && !s.envs[s.cur].handler && Post(b, s.Ip())
      && (Binding(b, s.Ip()) ==> s.stack.On? && s.stack.top == Symbol(RET_VAL))
  }

  /** Table g holds the capture (k, r) and everything that can see it behaves. */
  ghost predicate Kept(s: State, g: nat, b: int, k: Stack, r: nat) {
    && Frames.Inv(s) && Saved(s.tables, g, k, r)
    && ChainGood(s.envs, s.cur, g, b) && CurGood(s, g, b)
  }

  ghost predicate KeptOut(o: Outcome, g: nat, b: int, k: Stack, r: nat) {
    o.Next? ==> Saved(o.s.tables, g, k, r) && o.s.Ok() && ChainGood(o.s.envs, o.s.cur, g, b) && CurGood(o.s, g, b)
  }

  // ---------- elementary updates ----------

  lemma TouchKept(s: State, e: Env, g: nat, b: int)
    requires s.Ok() && ChainGood(s.envs, s.cur, g, b)
    requires e.table == s.envs[s.cur].table && e.parent == s.envs[s.cur].parent
    ensures var envs := s.envs[s.cur := e];
      && ChainGood(envs, s.cur, g, b)
      && OnChain(envs, s.cur, g) == OnChain(s.envs, s.cur, g)
  {
    var envs := s.envs[s.cur := e];
    forall i: nat | i < |s.envs| ensures OnChain(envs, i, g) == OnChain(s.envs, i, g) { ChainSame(s.envs, envs, i, g); }
  }

  /** A new record, which may become current, beside a current record that is off the chain or good. */
  lemma AppendKept(envs: seq<Env>, cur: nat, e: Env, g: nat, b: int)
    requires cur < |envs| && ChainGood(envs, cur, g, b)
    ensures forall i: nat :: i < |envs| ==> OnChain(envs + [e], i, g) == OnChain(envs, i, g)
    ensures (OnChain(envs + [e], |envs|, g) ==> Good(e, b)) ==> ChainGood(envs + [e], cur, g, b)
    ensures (OnChain(envs, cur, g) ==> Good(envs[cur], b)) ==> ChainGood(envs + [e], |envs|, g, b)
  {
    forall i: nat | i < |envs| ensures OnChain(envs + [e], i, g) == OnChain(envs, i, g) {
      ChainSame(envs, envs + [e], i, g);
    }
  }

  lemma CopyChain(envs: seq<Env>, x: nat, e: Env, g: nat)
    requires x < |envs| && e.table == envs[x].table && e.parent == envs[x].parent
    requires envs[x].parent.Some? ==> envs[x].parent.value < x
    ensures OnChain(envs + [e], |envs|, g) == OnChain(envs, x, g)
  {
    var n := |envs|;
    if e.parent.Some? { ChainSame(envs, envs + [e], e.parent.value, g); }
    assert (envs + [e])[n] == e;
  }

  /** Leaving the current record for a copy of record x. */
  lemma EnterKept(s: State, x: nat, g: nat, b: int)
    requires Frames.Inv(s) && ChainGood(s.envs, s.cur, g, b) && x < |s.envs| && x != s.cur
    requires OnChain(s.envs, s.cur, g) ==> Good(s.envs[s.cur], b)
    ensures var t := Enter(s, s.envs[x]);
      ChainGood(t.envs, t.cur, g, b) && (OnChain(t.envs, t.cur, g) ==> Good(t.envs[t.cur], b))
  {
    assert Frames.EnvApart(s.envs[x], x, |s.tables|, s.cur);
    AppendKept(s.envs, s.cur, s.envs[x], g, b);
    CopyChain(s.envs, x, s.envs[x], g);
  }

  lemma ChildKept(s: State, g: nat, b: int)
    requires s.Ok() && g < |s.tables| && ChainGood(s.envs, s.cur, g, b)
      && (OnChain(s.envs, s.cur, g) ==> Good(s.envs[s.cur], b))
    ensures var t := PushEnv(s);
      && ChainGood(t.envs, t.cur, g, b)
      && (OnChain(t.envs, t.cur, g) ==> Good(t.envs[t.cur], b))
  {
    var e := Env(s.Ip(), |s.tables|, false, 0, Some(s.cur));
    AppendKept(s.envs, s.cur, e, g, b);
    assert (s.envs + [e])[|s.envs|] == e;
  }

  lemma {:induction false} HandlerFound(envs: seq<Env>, e: nat)
    ensures var h := FindHandler(envs, e); h.Some? ==> h.value < |envs| && envs[h.value].handler
    decreases e
  {
    if e < |envs| && !envs[e].handler && envs[e].parent.Some? && envs[e].parent.value < e {
      HandlerFound(envs, envs[e].parent.value);
    }
  }

  lemma ThrowKept(s: State, msg: string, objs: seq<Value>, g: nat, b: int, k: Stack, r: nat)
    requires Frames.Inv(s) && Saved(s.tables, g, k, r) && ChainGood(s.envs, s.cur, g, b)
    requires OnChain(s.envs, s.cur, g) ==> Good(s.envs[s.cur], b)
    ensures KeptOut(Throw(s, msg, objs), g, b, k, r)
  {
    hide ListOnto, Saved;
    assert Frames.EnvApart(s.envs[s.cur], s.cur, |s.tables|, s.cur);
    AppendKept(s.envs, s.cur, s.envs[s.cur], g, b);
    CopyChain(s.envs, s.cur, s.envs[s.cur], g);
    var envs1 := s.envs + [s.envs[s.cur]];
    var h := FindHandler(envs1, s.cur);
    HandlerFound(envs1, s.cur);
    if h.Some? {
      HandlerKept(s, envs1, h.value, g, b);
    }
  }

  /** No record on the chain has a handler, so a handler resumes off the chain. */
  lemma HandlerKept(s: State, envs1: seq<Env>, h: nat, g: nat, b: int)
    requires Frames.Inv(s) && envs1 == s.envs + [s.envs[s.cur]] && h < |envs1| && envs1[h].handler
    requires ChainGood(envs1, s.cur, g, b) && (OnChain(envs1, s.cur, g) ==> Good(envs1[s.cur], b))
    ensures var e := envs1[h].(handler := false, ip := envs1[h].handlerAddr);
      ChainGood(envs1 + [e], |envs1|, g, b) && !OnChain(envs1 + [e], |envs1|, g)
  {
    var e := envs1[h].(handler := false, ip := envs1[h].handlerAddr);
    assert Frames.EnvApart(s.envs[s.cur], s.cur, |s.tables|, s.cur);
    if h < |s.envs| { assert Frames.EnvApart(s.envs[h], h, |s.tables|, s.cur); }
    AppendKept(envs1, s.cur, e, g, b);
    CopyChain(envs1, h, e, g);
  }

  // ---------- programs outside the routine: the current record is off the chain ----------

  ghost predicate Off(s: State, g: nat, b: int, k: Stack, r: nat) {
    Frames.Inv(s) && Saved(s.tables, g, k, r) && ChainGood(s.envs, s.cur, g, b) && !OnChain(s.envs, s.cur, g)
  }

  lemma OffJump(kind: JumpKind, p: int, s: State, g: nat, b: int, k: Stack, r: nat)
    requires Off(s, g, b, k, r)
    ensures KeptOut(ExecJump(kind, p, s), g, b, k, r)
  {
    hide Saved;
    var e := s.envs[s.cur];
    match kind
    case Jmp => TouchKept(s, e.(ip := p), g, b);
    case Jnf => TouchKept(s, e.(ip := p), g, b);
    case Continue => TouchKept(s, e.(handler := true, handlerAddr := p), g, b);
    case Proc =>
      assert Frames.EnvApart(e, s.cur, |s.tables|, s.cur);
      AppendKept(s.envs, s.cur, e.(ip := p), g, b);
      CopyChain(s.envs, s.cur, e.(ip := p), g);
    case Call => OffCall(p, s, g, b, k, r);
  }

  lemma OffCall(p: int, s: State, g: nat, b: int, k: Stack, r: nat)
    requires Off(s, g, b, k, r)
    ensures KeptOut(ExecJump(Call, p, s), g, b, k, r)
  {
    var s1 := Push(s, Closure(s.cur));
    AppendKept(s.envs, s.cur, Env(s.Ip(), |s.tables|, false, 0, Some(s.cur)), g, b);
    var t := PushEnv(s1);
    assert t.envs[t.cur] == Env(s.Ip(), |s.tables|, false, 0, Some(s.cur));
    assert !OnChain(t.envs, t.cur, g);
    TouchKept(t, t.envs[t.cur].(ip := p), g, b);
  }

  lemma OffRead(a: Value, s: State, g: nat, b: int, k: Stack, r: nat)
    requires Off(s, g, b, k, r)
    ensures KeptOut(ExecRead(a, s), g, b, k, r)
  {
    hide Saved, Throw;
    ThrowKept(s, "Attempt to read with non-symbol", [a], g, b, k, r);
    ThrowKept(s, "Attempt to read undefined symbol", [a], g, b, k, r);
  }

  lemma OffTransfer(op: Op, a: Value, s: State, g: nat, b: int, k: Stack, r: nat)
    requires Off(s, g, b, k, r) && Frames.Apart(a, |s.envs|, s.cur)
    ensures KeptOut(ExecTransfer(op, a, s), g, b, k, r)
  {
    hide Throw, Enter, PushEnv, Push, Saved, ChainGood, CurGood;
    ThrowKept(s, "Attempt to jump to non-closure", [a], g, b, k, r);
    if a.Closure? {
      match op
      case Ret => LeaveKept(s, a.env, s.stack, g, b, k, r);
      case Jin => OffJin(a, s, g, b, k, r);
      case CallIn => LeaveKept(s, a.env, On(Closure(s.cur), s.stack), g, b, k, r); OffCallIn(a, s, g, b, k, r);
      case _ =>
        if s.stack.On? && s.stack.rest.On? {
          LeaveKept(s, a.env, On(s.stack.rest.top, On(s.stack.top, s.stack.rest.rest)), g, b, k, r);
        }
    }
  }

  /** Returning or calling into record x with stack w. */
  lemma LeaveKept(s: State, x: nat, w: Stack, g: nat, b: int, k: Stack, r: nat)
    requires Off(s, g, b, k, r) && x < |s.envs| && x != s.cur
    ensures var t := Enter(s.(stack := w), s.envs[x]);
      KeptOut(Next(t), g, b, k, r) && KeptOut(Next(PushEnv(t)), g, b, k, r)
  {
    EnterKept(s, x, g, b);
    ChildKept(Enter(s.(stack := w), s.envs[x]), g, b);
  }

  lemma OffCallIn(a: Value, s: State, g: nat, b: int, k: Stack, r: nat)
    requires Off(s, g, b, k, r) && a.Closure? && a.env < |s.envs| && a.env != s.cur
    requires KeptOut(Next(PushEnv(Enter(s.(stack := On(Closure(s.cur), s.stack)), s.envs[a.env]))), g, b, k, r)
    ensures KeptOut(ExecTransfer(CallIn, a, s), g, b, k, r)
  {
    hide KeptOut, Enter, PushEnv, Throw;
  }

  lemma OffJin(a: Value, s: State, g: nat, b: int, k: Stack, r: nat)
    requires Off(s, g, b, k, r) && a.Closure? && a.env < |s.envs| && a.env != s.cur
    ensures KeptOut(ExecTransfer(Jin, a, s), g, b, k, r)
  {
    hide Throw;
    var e := s.envs[a.env].(table := s.envs[s.cur].table, parent := s.envs[s.cur].parent);
    assert Frames.EnvApart(s.envs[s.cur], s.cur, |s.tables|, s.cur);
    AppendKept(s.envs, s.cur, e, g, b);
    CopyChain(s.envs, s.cur, e, g);
  }

  lemma OffTwo(op: Op, a: Value, c: Value, s: State, g: nat, b: int, k: Stack, r: nat)
    requires Off(s, g, b, k, r) && op != Adopt
    ensures KeptOut(ExecTwo(op, a, c, s), g, b, k, r)
  {
    hide Throw;
    match op
    case Math(m) =>
      ThrowKept(s, if m.NumEq? || m.NumLt? || m.NumGt? then "Attempt to compare with non-number\n"
                   else "Attempt to calculate with non-number\n", [c, a], g, b, k, r);
    case Bind => ThrowKept(s, "Attempt to bind with non-symbol", [a, c], g, b, k, r);
    case Set =>
      ThrowKept(s, "Attempt to set with non-symbol", [a, c], g, b, k, r);
      ThrowKept(s, "Attempt to set undefined symbol", [a, c], g, b, k, r);
      if a.Symbol? { LookupOff(s.envs, s.tables, s.cur, a.name, g); }
    case _ =>
  }

  lemma OffOne(op: Op, a: Value, s: State, g: nat, b: int, k: Stack, r: nat)
    requires Off(s, g, b, k, r) && op != Adopt && Frames.Apart(a, |s.envs|, s.cur)
    ensures KeptOut(ExecOne(op, a, s), g, b, k, r)
  {
    hide Throw, ExecTwo, ExecTransfer, ExecRead, Saved;
    match op
    case Car => ThrowKept(s, "Attempt to read the car of a non-pair", [a], g, b, k, r);
    case Cdr => ThrowKept(s, "Attempt to read the cdr of a non-pair", [a], g, b, k, r);
    case Read => OffRead(a, s, g, b, k, r);
    case Ret | Jin | CallIn | TailCallIn => OffTransfer(op, a, s, g, b, k, r);
    case Drop | Dup | Not | IsEmpty | Adopt =>
    case _ => if s.stack.On? { OffTwo(op, a, s.stack.top, s.(stack := s.stack.rest), g, b, k, r); }
  }

  /** Adopting copies the child with the table and parent of the other record: this keeps the
      capture exactly when that record cannot see the table, or the child is at the routine. */
  lemma OffAdopt(next: int, s: State, g: nat, b: int, k: Stack, r: nat)
    requires Off(s, g, b, k, r)
    ensures Exec(Plain(Adopt), next, s).Next? ==>
      (KeptOut(Exec(Plain(Adopt), next, s), g, b, k, r) <==> LendsSafely(s, g, b))
  {
    hide Throw, Saved;
    var s1 := SetIp(s, next);
    TouchKept(s, s.envs[s.cur].(ip := next), g, b);
    Frames.TouchInv(s, s.envs[s.cur].(ip := next));
    if s.stack.On? && s.stack.rest.On? {
      var s2 := s1.(stack := s.stack.rest.rest);
      Frames.StackInv(s1, s.stack.rest);
      Frames.StackInv(s1.(stack := s.stack.rest), s.stack.rest.rest);
      AdoptTwo(s.stack.top, s.stack.rest.top, s2, g, b, k, r);
      assert Exec(Plain(Adopt), next, s) == ExecTwo(Adopt, s.stack.top, s.stack.rest.top, s2);
      var a, c := s.stack.top, s.stack.rest.top;
      if a.Closure? && c.Closure? && a.env < |s.envs| && c.env < |s.envs| {
        ChainSame(s.envs, s2.envs, a.env, g);
        assert Frames.Apart(c, |s.envs|, s.cur);
        assert s2.envs[c.env] == s.envs[c.env];
      }
    }
  }

  /** At an adopt: the two operands are closures, and the table's own record is not handed to a
      child that is outside the routine. */
  ghost predicate LendsSafely(s: State, g: nat, b: int) {
    s.stack.On? && s.stack.rest.On? ==>
      var a, c := s.stack.top, s.stack.rest.top;
      a.Closure? && c.Closure? && a.env < |s.envs| && c.env < |s.envs| && OnChain(s.envs, a.env, g) ==>
        Good(s.envs[c.env], b)
  }

  lemma AdoptTwo(a: Value, c: Value, s: State, g: nat, b: int, k: Stack, r: nat)
    requires Off(s, g, b, k, r)
    ensures var o := ExecTwo(Adopt, a, c, s); o.Next? ==> (KeptOut(o, g, b, k, r) <==>
      (a.Closure? && c.Closure? && a.env < |s.envs| && c.env < |s.envs| && OnChain(s.envs, a.env, g) ==>
        Good(s.envs[c.env], b)))
  {
    hide Throw, Saved;
    ThrowKept(s, "Attempt to adopt with non-closure", [a], g, b, k, r);
    ThrowKept(s, "Attempt to adopt non-closure", [c], g, b, k, r);
    if a.Closure? && c.Closure? && a.env < |s.envs| && c.env < |s.envs| {
      var e := s.envs[c.env].(table := s.envs[a.env].table, parent := s.envs[a.env].parent);
      assert Frames.EnvApart(s.envs[a.env], a.env, |s.tables|, s.cur);
      AppendKept(s.envs, s.cur, e, g, b);
      CopyChain(s.envs, a.env, e, g);
      assert (s.envs + [e])[|s.envs|] == e;
    }
  }

  lemma OffExec(i: Instr<int>, next: int, s: State, g: nat, b: int, k: Stack, r: nat)
    requires Off(s, g, b, k, r) && i != Plain(Adopt)
    ensures KeptOut(Exec(i, next, s), g, b, k, r)
  {
    hide ExecOne, ExecJump, Saved;
    var s1 := SetIp(s, next);
    TouchKept(s, s.envs[s.cur].(ip := next), g, b);
    Frames.TouchInv(s, s.envs[s.cur].(ip := next));
    match i
    case Literal(_) =>
    case Jump(kind, p) => OffJump(kind, p, s1, g, b, k, r);
    case Plain(op) =>
      if op == Restore {
        TouchKept(s1, s1.envs[s1.cur].(handler := true), g, b);
      } else if op != GetDepth && s1.stack.On? {
        OffOne(op, s1.stack.top, s1.(stack := s1.stack.rest), g, b, k, r);
      }
  }

  // ---------- inside the routine: the current record is on the chain ----------

  /** Instructions that leave the current record where it is, or throw. */
  lemma OnPlain(op: Op, next: int, s: State, g: nat, b: int, k: Stack, r: nat)
    requires Kept(s, g, b, k, r) && OnChain(s.envs, s.cur, g) && Post(b, next) && !Binding(b, next)
    requires op in {GetDepth, Drop, Dup, Swap, IsEmpty, Car, Cdr, Read, Math(NumEq)}
    ensures KeptOut(Exec(Plain(op), next, s), g, b, k, r)
  {
    var s1 := SetIp(s, next);
    TouchKept(s, s.envs[s.cur].(ip := next), g, b);
    Frames.TouchInv(s, s.envs[s.cur].(ip := next));
    assert SetIp(s1, next) == s1;
    OnOperands(op, s1, g, b, k, r);
    hide Throw, Saved, ExecOne;
  }

  /** The same with the address already moved on. */
  lemma OnOperands(op: Op, s1: State, g: nat, b: int, k: Stack, r: nat)
    requires Frames.Inv(s1) && Saved(s1.tables, g, k, r) && ChainGood(s1.envs, s1.cur, g, b) && Good(s1.envs[s1.cur], b)
    requires op in {GetDepth, Drop, Dup, Swap, IsEmpty, Car, Cdr, Read, Math(NumEq)}
    ensures op != GetDepth && s1.stack.On? ==>
      KeptOut(ExecOne(op, s1.stack.top, s1.(stack := s1.stack.rest)), g, b, k, r)
  {
    hide Throw, Saved;
    if op != GetDepth && s1.stack.On? {
      var a := s1.stack.top;
      var s2 := s1.(stack := s1.stack.rest);
      Frames.StackInv(s1, s1.stack.rest);
      match op
      case Car => ThrowKept(s2, "Attempt to read the car of a non-pair", [a], g, b, k, r);
      case Cdr => ThrowKept(s2, "Attempt to read the cdr of a non-pair", [a], g, b, k, r);
      case Read =>
        ThrowKept(s2, "Attempt to read with non-symbol", [a], g, b, k, r);
        ThrowKept(s2, "Attempt to read undefined symbol", [a], g, b, k, r);
      case Math(_) =>
        if s2.stack.On? {
          Frames.StackInv(s2, s2.stack.rest);
          ThrowKept(s2.(stack := s2.stack.rest), "Attempt to compare with non-number\n", [s2.stack.top, a], g, b, k, r);
        }
      case _ =>
    }
  }

  lemma OnLiteral(l: Lit, next: int, s: State, g: nat, b: int, k: Stack, r: nat)
    requires Kept(s, g, b, k, r) && OnChain(s.envs, s.cur, g) && Post(b, next)
    requires Binding(b, next) ==> l == LitSymbol(RET_VAL)
    ensures KeptOut(Exec(Literal(l), next, s), g, b, k, r)
  {
    TouchKept(s, s.envs[s.cur].(ip := next), g, b);
  }

  lemma OnJump(kind: JumpKind, t: int, next: int, s: State, g: nat, b: int, k: Stack, r: nat)
    requires Kept(s, g, b, k, r) && OnChain(s.envs, s.cur, g) && (kind == Jmp || kind == Jnf)
    requires Post(b, t) && !Binding(b, t) && (kind == Jnf ==> Post(b, next) && !Binding(b, next))
    ensures KeptOut(Exec(Jump(kind, t), next, s), g, b, k, r)
  {
    TouchKept(s, s.envs[s.cur].(ip := next), g, b);
    var s1 := SetIp(s, next);
    TouchKept(s1, s1.envs[s1.cur].(ip := t), g, b);
  }

  lemma OnBind(next: int, s: State, g: nat, b: int, k: Stack, r: nat)
    requires Kept(s, g, b, k, r) && OnChain(s.envs, s.cur, g) && Post(b, next) && !Binding(b, next)
    requires s.stack.On? && s.stack.top == Symbol(RET_VAL)
    ensures KeptOut(Exec(Plain(Bind), next, s), g, b, k, r)
  {
    TouchKept(s, s.envs[s.cur].(ip := next), g, b);
  }

  lemma OnRet(next: int, s: State, g: nat, b: int, k: Stack, r: nat)
    requires Kept(s, g, b, k, r) && OnChain(s.envs, s.cur, g) && Post(b, next) && !Binding(b, next)
    ensures KeptOut(Exec(Plain(Ret), next, s), g, b, k, r)
  {
    hide Throw, Saved;
    var s1 := SetIp(s, next);
    TouchKept(s, s.envs[s.cur].(ip := next), g, b);
    Frames.TouchInv(s, s.envs[s.cur].(ip := next));
    if s1.stack.On? {
      var a := s1.stack.top;
      var s2 := s1.(stack := s1.stack.rest);
      ThrowKept(s2, "Attempt to jump to non-closure", [a], g, b, k, r);
      if a.Closure? { EnterKept(s2, a.env, g, b); }
    }
  }

  lemma OnMark(s: State, g: nat, b: int, k: Stack, r: nat)
    requires Kept(s, g, b, k, r) && (OnChain(s.envs, s.cur, g) ==> Post(b, s.Ip() + 1) && !Binding(b, s.Ip() + 1))
    ensures KeptOut(Next(SetIp(s, s.Ip() + 1)), g, b, k, r)
  {
    TouchKept(s, s.envs[s.cur].(ip := s.Ip() + 1), g, b);
  }

  /** Where the jumps of the routine go. */
  lemma Targets(code: seq<Item>, b: int)
    requires Loaded(code, b)
    ensures LabelPos(code, Named("scheme-call-cc-return")) == b
      && LabelPos(code, Named("scheme-call-cc-empty")) == b + 1
    ensures LabelPos(code, Named("scheme-call-cc-empty-done")) == b + 8
      && LabelPos(code, Named("scheme-call-cc-restore")) == b + 11
    ensures LabelPos(code, Named("scheme-call-cc-restore-done")) == b + 20
  {
    hide LabelPos;
    LabelPosUnique(code, Named("scheme-call-cc-return"), b);
    LabelPosUnique(code, Named("scheme-call-cc-empty"), b + 1);
    LabelPosUnique(code, Named("scheme-call-cc-empty-done"), b + 8);
    LabelPosUnique(code, Named("scheme-call-cc-restore"), b + 11);
    LabelPosUnique(code, Named("scheme-call-cc-restore-done"), b + 20);
  }

  lemma OnStepLow(code: seq<Item>, b: int, s: State, g: nat, k: Stack, r: nat)
    requires Loaded(code, b) && Kept(s, g, b, k, r) && OnChain(s.envs, s.cur, g) && b <= s.Ip() < b + 14
    ensures KeptOut(Step(code, s), g, b, k, r)
  {
    hide Exec, Kept, KeptOut, LabelPos, UniqueLabels;
    Targets(code, b);
    var p := s.Ip();
    var n := p - b;
    if n == 0 || n == 1 || n == 8 || n == 11 { OnMark(s, g, b, k, r); }
    else if n == 3 { OnLiteral(LitFixnum(0), p + 1, s, g, b, k, r); }
    else if n == 9 { OnLiteral(LitSymbol(STACK_SAVE), p + 1, s, g, b, k, r); }
    else if n == 5 { OnJump(Jnf, b + 8, p + 1, s, g, b, k, r); }
    else if n == 7 { OnJump(Jmp, b + 1, p + 1, s, g, b, k, r); }
    else { OnPlain(code[p].i.op, p + 1, s, g, b, k, r); }
  }

  lemma OnStepHigh(code: seq<Item>, b: int, s: State, g: nat, k: Stack, r: nat)
    requires Loaded(code, b) && Kept(s, g, b, k, r) && OnChain(s.envs, s.cur, g) && Post(b, s.Ip()) && s.Ip() >= b + 14
    ensures KeptOut(Step(code, s), g, b, k, r)
  {
    assert Binding(b, s.Ip()) ==> s.stack.On? && s.stack.top == Symbol(RET_VAL);
    hide Exec, Kept, KeptOut, LabelPos, UniqueLabels, EmptyPart, RestorePart, ExitPart, CallPart, EntryPart, SavePart;
    Targets(code, b);
    var n := s.Ip() - b;
    if n < 27 { OnRestore(code, b, s, g, k, r); }
    else if n < 33 { OnExit(code, b, s, g, k, r); }
    else { OnReturned(code, b, s, g, k, r); }
  }

  lemma OnRestore(code: seq<Item>, b: int, s: State, g: nat, k: Stack, r: nat)
    requires Kept(s, g, b, k, r) && OnChain(s.envs, s.cur, g) && b + 14 <= s.Ip() < b + 27
    requires 0 <= b && b + SIZE <= |code| && RestorePart(code, b)
    requires LabelPos(code, Named("scheme-call-cc-restore")) == b + 11
      && LabelPos(code, Named("scheme-call-cc-restore-done")) == b + 20
    ensures KeptOut(Step(code, s), g, b, k, r)
  {
    hide Exec, Kept, KeptOut, LabelPos, Step, RestorePart;
    if s.Ip() < b + 20 { OnRestoreLoop(code, b, s, g, k, r); } else { OnRestoreDone(code, b, s, g, k, r); }
  }

  lemma OnRestoreLoop(code: seq<Item>, b: int, s: State, g: nat, k: Stack, r: nat)
    requires Kept(s, g, b, k, r) && OnChain(s.envs, s.cur, g) && b + 14 <= s.Ip() < b + 20
    requires 0 <= b && b + SIZE <= |code| && RestorePart(code, b)
    requires LabelPos(code, Named("scheme-call-cc-restore")) == b + 11
      && LabelPos(code, Named("scheme-call-cc-restore-done")) == b + 20
    ensures KeptOut(Step(code, s), g, b, k, r)
  {
    hide Exec, Kept, KeptOut, LabelPos;
    var p := s.Ip();
    if p == b + 14 { OnJump(Jnf, b + 20, p + 1, s, g, b, k, r); }
    else if p == b + 19 { OnJump(Jmp, b + 11, p + 1, s, g, b, k, r); }
    else { OnPlain(code[p].i.op, p + 1, s, g, b, k, r); }
  }

  lemma OnRestoreDone(code: seq<Item>, b: int, s: State, g: nat, k: Stack, r: nat)
    requires Kept(s, g, b, k, r) && OnChain(s.envs, s.cur, g) && b + 20 <= s.Ip() < b + 27
    requires 0 <= b && b + SIZE <= |code| && RestorePart(code, b)
    ensures KeptOut(Step(code, s), g, b, k, r)
  {
    hide Exec, Kept, KeptOut, LabelPos;
    var p := s.Ip();
    if p == b + 20 { OnMark(s, g, b, k, r); }
    else if p == b + 22 { OnLiteral(LitSymbol(RET_VAL), p + 1, s, g, b, k, r); }
    else if p == b + 24 { OnLiteral(LitSymbol(RETURN), p + 1, s, g, b, k, r); }
    else if p == b + 26 { OnRet(p + 1, s, g, b, k, r); }
    else { OnPlain(code[p].i.op, p + 1, s, g, b, k, r); }
  }

  lemma OnExit(code: seq<Item>, b: int, s: State, g: nat, k: Stack, r: nat)
    requires Kept(s, g, b, k, r) && OnChain(s.envs, s.cur, g) && b + 27 <= s.Ip() < b + 33
    requires 0 <= b && b + SIZE <= |code| && ExitPart(code, b) && LabelPos(code, Named("scheme-call-cc-return")) == b
    requires Binding(b, s.Ip()) ==> s.stack.On? && s.stack.top == Symbol(RET_VAL)
    ensures KeptOut(Step(code, s), g, b, k, r)
  {
    hide Exec, Kept, KeptOut, LabelPos;
    var p := s.Ip();
    var n := p - b;
    if n == 27 { OnMark(s, g, b, k, r); }
    else if n == 30 { OnLiteral(LitSymbol(RET_VAL), p + 1, s, g, b, k, r); }
    else if n == 31 { OnBind(p + 1, s, g, b, k, r); }
    else if n == 32 { OnJump(Jmp, b, p + 1, s, g, b, k, r); }
    else { OnPlain(code[p].i.op, p + 1, s, g, b, k, r); }
  }

  lemma OnReturned(code: seq<Item>, b: int, s: State, g: nat, k: Stack, r: nat)
    requires Kept(s, g, b, k, r) && OnChain(s.envs, s.cur, g) && b + 62 <= s.Ip() < b + 65
    requires 0 <= b && b + SIZE <= |code| && CallPart(code, b) && LabelPos(code, Named("scheme-call-cc-return")) == b
    requires Binding(b, s.Ip()) ==> s.stack.On? && s.stack.top == Symbol(RET_VAL)
    ensures KeptOut(Step(code, s), g, b, k, r)
  {
    hide Exec, Kept, KeptOut, LabelPos;
    var p := s.Ip();
    if p == b + 62 { OnLiteral(LitSymbol(RET_VAL), p + 1, s, g, b, k, r); }
    else if p == b + 63 { OnBind(p + 1, s, g, b, k, r); }
    else { OnJump(Jmp, b, p + 1, s, g, b, k, r); }
  }

  // ---------- every step, every run ----------

  /** Not about to lend the captured table to code outside the routine. */
  ghost predicate Harmless(code: seq<Item>, s: State, g: nat, b: int) {
    s.cur < |s.envs| && 0 <= s.Ip() < |code| && code[s.Ip()] == Emit.Do(Adopt) ==> LendsSafely(s, g, b)
  }

  /** One step keeps the invariant if and only if it is harmless. */
  lemma StepKept(code: seq<Item>, b: int, s: State, g: nat, k: Stack, r: nat)
    requires Loaded(code, b) && Kept(s, g, b, k, r) && 0 <= s.Ip() < |code|
    ensures Step(code, s).Next? ==> (Kept(Step(code, s).s, g, b, k, r) <==> Harmless(code, s, g, b))
  {
    hide Exec, Loaded, LendsSafely;
    if OnChain(s.envs, s.cur, g) {
      NoAdoptInside(code, b, s.Ip());
      if s.Ip() < b + 14 { OnStepLow(code, b, s, g, k, r); } else { OnStepHigh(code, b, s, g, k, r); }
    } else if code[s.Ip()].Mark? {
      OnMark(s, g, b, k, r);
    } else if code[s.Ip()] == Emit.Do(Adopt) {
      OffAdopt(s.Ip() + 1, s, g, b, k, r);
    } else {
      OffExec(Resolve(code, code[s.Ip()].i), s.Ip() + 1, s, g, b, k, r);
    }
    StepInv(code, s);
  }

  lemma NoAdoptInside(code: seq<Item>, b: int, p: int)
    requires Loaded(code, b) && b <= p < b + SIZE
    ensures code[p] != Emit.Do(Adopt)
  {
    hide UniqueLabels;
    NoAdoptLow(code, b, p);
  }

  lemma NoAdoptLow(code: seq<Item>, b: int, p: int)
    requires 0 <= b && b + SIZE <= |code| && b <= p < b + SIZE
    requires EmptyPart(code, b) && RestorePart(code, b) && ExitPart(code, b) && EntryPart(code, b)
      && SavePart(code, b) && CallPart(code, b)
    ensures code[p] != Emit.Do(Adopt)
  {
    var n := p - b;
    assert p == b + n;
    if n < 11 { assert EmptyPart(code, b); }
    else if n < 27 { assert RestorePart(code, b); }
    else if n < 33 { assert ExitPart(code, b); }
    else if n < 43 { assert EntryPart(code, b); }
    else if n < 56 { assert SavePart(code, b); }
  }

  lemma StepInv(code: seq<Item>, s: State)
    requires Frames.Inv(s) && 0 <= s.Ip() < |code|
    ensures Step(code, s).Next? ==> Frames.Inv(Step(code, s).s) && Frames.Keeps(s, Step(code, s).s)
  {
    hide Exec;
    if code[s.Ip()].Mark? { Frames.TouchInv(s, s.envs[s.cur].(ip := s.Ip() + 1)); }
    else { Frames.ExecInv(Resolve(code, code[s.Ip()].i), s.Ip() + 1, s); }
  }

  /** Every adopt among the first n steps is harmless. */
  ghost predicate HarmlessRun(code: seq<Item>, s: State, n: nat, g: nat, b: int)
    decreases n
  {
    n == 0 || (Harmless(code, s, g, b)
      && (Stepper(code)(s).Some? ==> HarmlessRun(code, Stepper(code)(s).value, n - 1, g, b)))
  }

  /** The invariant holds in every state of a run. */
  ghost predicate KeptRun(code: seq<Item>, s: State, n: nat, g: nat, b: int, k: Stack, r: nat)
    decreases n
  {
    Kept(s, g, b, k, r)
      && (n > 0 && Stepper(code)(s).Some? ==> KeptRun(code, Stepper(code)(s).value, n - 1, g, b, k, r))
  }

  /** Over a run the invariant holds throughout if and only if every step that is taken is harmless. */
  lemma {:induction false} RunKept(code: seq<Item>, b: int, s: State, n: nat, t: State, g: nat, k: Stack, r: nat)
    requires Loaded(code, b) && Kept(s, g, b, k, r) && Iterate(Stepper(code), s, n) == Some(t)
    ensures KeptRun(code, s, n, g, b, k, r) <==> HarmlessRun(code, s, n, g, b)
    ensures HarmlessRun(code, s, n, g, b) ==> Kept(t, g, b, k, r)
    decreases n
  {
    hide Exec, Loaded, Step, Harmless, Kept;
    if n > 0 {
      KeptOk(s, g, b, k, r);
      StepKept(code, b, s, g, k, r);
      var u := Stepper(code)(s).value;
      if Harmless(code, s, g, b) { RunKept(code, b, u, n - 1, t, g, k, r); }
      else { NotKeptRun(code, u, n - 1, g, b, k, r); }
    }
  }

  lemma KeptOk(s: State, g: nat, b: int, k: Stack, r: nat)
    requires Kept(s, g, b, k, r)
    ensures s.Ok()
  {
  }

  lemma NotKeptRun(code: seq<Item>, s: State, n: nat, g: nat, b: int, k: Stack, r: nat)
    requires !Kept(s, g, b, k, r)
    ensures !KeptRun(code, s, n, g, b, k, r)
  {
  }

  /** A program without adopt does no harm. */
  lemma {:induction false} NoAdoptHarmless(code: seq<Item>, s: State, n: nat, g: nat, b: int)
    requires Emit.Do(Adopt) !in code
    ensures HarmlessRun(code, s, n, g, b)
    decreases n
  {
    hide Exec, Step;
    if n > 0 && Stepper(code)(s).Some? { NoAdoptHarmless(code, Stepper(code)(s).value, n - 1, g, b); }
  }

  /** Nor does a run that stops in front of every adopt. */
  lemma {:induction false} WalkKept(code: seq<Item>, b: int, s: State, n: nat, t: State, g: nat, k: Stack, r: nat)
    requires Loaded(code, b) && Kept(s, g, b, k, r) && Iterate(Walker(code), s, n) == Some(t)
    ensures Kept(t, g, b, k, r)
    decreases n
  {
    hide Exec, Loaded, Step, Kept;
    if n > 0 {
      KeptOk(s, g, b, k, r);
      assert Walker(code)(s).Some?;
      assert Stepper(code)(s) == Walker(code)(s);
      StepKept(code, b, s, g, k, r);
      WalkKept(code, b, Walker(code)(s).value, n - 1, t, g, k, r);
    }
  }

  lemma ReachesBy2(code: seq<Item>, s: State, n: nat, t: State)
    requires Iterate(Stepper(code), s, n) == Some(t)
    ensures Reaches(code, s, t)
  {
  }

  // ---------- from the call of call/cc to the invariant ----------

  lemma {:induction false} RunInv(code: seq<Item>, s: State, n: nat, t: State)
    requires Frames.Inv(s) && Iterate(Stepper(code), s, n) == Some(t)
    ensures Frames.Inv(t) && Frames.Keeps(s, t)
    decreases n
  {
    hide Exec, Step, Frames.Inv;
    if n > 0 {
      StepInv(code, s);
      var u := Stepper(code)(s).value;
      RunInv(code, u, n - 1, t);
      Frames.KeepsTrans(s, u, t);
    }
  }

  lemma ReachInv(code: seq<Item>, s: State, t: State)
    requires Frames.Inv(s) && Reaches(code, s, t)
    ensures Frames.Inv(t) && Frames.Keeps(s, t)
  {
    hide Exec, Step, Frames.Inv;
    var n: nat :| Iterate(Stepper(code), s, n) == Some(t);
    RunInv(code, s, n, t);
  }

  /** Only the current record and the continuation's own record see the fresh table. */
  ghost predicate OnlyHere(u: State, g: nat, b: int, e: nat) {
    && u.cur < |u.envs| && e < |u.envs| && u.envs[u.cur].table == g && !u.envs[u.cur].handler
    && u.envs[e].table == g && Good(u.envs[e], b)
    && forall i :: 0 <= i < |u.envs| && i != u.cur && i != e ==> u.envs[i].table != g
  }

  lemma {:induction false} OnlyHereOff(u: State, g: nat, b: int, e: nat, i: nat)
    requires Frames.Inv(u) && OnlyHere(u, g, b, e) && i < |u.envs| && i != u.cur && i != e
    requires forall j :: 0 <= j < |u.envs| ==> u.envs[j].parent != Some(e)
    ensures !OnChain(u.envs, i, g)
    decreases i
  {
    assert Frames.EnvApart(u.envs[i], i, |u.tables|, u.cur);
    if u.envs[i].parent.Some? { OnlyHereOff(u, g, b, e, u.envs[i].parent.value); }
  }

  /** The call of the procedure leaves the routine's record at the return point. */
  lemma OnCallIn(code: seq<Item>, b: int, u: State, g: nat, e: nat, k: Stack, r: nat)
    requires Loaded(code, b) && Frames.Inv(u) && u.Ip() == b + 61 && OnlyHere(u, g, b, e) && Saved(u.tables, g, k, r)
    requires forall j :: 0 <= j < |u.envs| ==> u.envs[j].parent != Some(e)
    ensures Step(code, u).Next? ==> Kept(Step(code, u).s, g, b, k, r)
  {
    StepInv(code, u);
    hide Loaded, Throw, Enter, PushEnv, LabelPos, Saved;
    forall i: nat | i < |u.envs| && i != u.cur && OnChain(u.envs, i, g) ensures Good(u.envs[i], b) {
      if i != e { OnlyHereOff(u, g, b, e, i); }
    }
    CodeHere(code, b);
    var u1 := SetIp(u, b + 62);
    TouchKept(u, u.envs[u.cur].(ip := b + 62), g, b);
    Frames.TouchInv(u, u.envs[u.cur].(ip := b + 62));
    if u1.stack.On? { CallInKept(u1, b, g, k, r); }
  }

  lemma CodeHere(code: seq<Item>, b: int)
    requires Loaded(code, b)
    ensures 0 <= b && b + 61 < |code| && code[b + 61] == Emit.Do(CallIn)
  {
  }

  lemma CallInKept(u: State, b: int, g: nat, k: Stack, r: nat)
    requires Frames.Inv(u) && Saved(u.tables, g, k, r) && ChainGood(u.envs, u.cur, g, b) && Good(u.envs[u.cur], b)
      && u.stack.On?
    ensures KeptOut(ExecTransfer(CallIn, u.stack.top, u.(stack := u.stack.rest)), g, b, k, r)
  {
    hide Throw;
    var a := u.stack.top;
    var u1 := u.(stack := u.stack.rest);
    Frames.StackInv(u, u.stack.rest);
    ThrowKept(u1, "Attempt to jump to non-closure", [a], g, b, k, r);
    if a.Closure? {
      var u2 := Push(u1, Closure(u1.cur));
      EnterKept(u1, a.env, g, b);
      ChildKept(Enter(u2, u1.envs[a.env]), g, b);
    }
  }

  /** Calling call/cc from any point of any program, by either call instruction: the procedure is
      about to be called with a continuation closure c whose table holds the stack below the
      arguments and the return, which is the point after an ordinary call and the caller's own
      return for a tail call; and from the next step on that is kept through harmless runs. */
  lemma CallCcCaptures(code: seq<Item>, b: int, s: State, e: nat, f: Value, more: Value, r: nat)
    returns (u: State, c: nat)
    requires Loaded(code, b) && Frames.Inv(s) && Calling(code, s, e, Pair(f, more)) && s.envs[e].ip == b + ENTRY
    requires ReturnOf(code, s, e, Pair(f, more)) == Closure(r)
    ensures Reaches(code, s, u) && u.Ok() && u.Ip() == b + 61
    ensures u.stack == On(f, On(Pair(Closure(c), Empty), Bottom))
    ensures c < |u.envs| && u.envs[c].ip == b + EXIT && u.envs[c].table == |s.tables|
    ensures r < |s.envs| <= |u.envs| && u.envs[r] == if r == s.cur then s.envs[r].(ip := s.Ip() + 1) else s.envs[r]
    ensures 0 <= u.Ip() < |code|
    ensures Step(code, u).Next? ==> Kept(Step(code, u).s, |s.tables|, b, Below(code, s, e, Pair(f, more)), r)
  {
    hide Exec, Loaded, Step, Walks, Reaches, LabelPos;
    CodeHere(code, b);
    var k := Below(code, s, e, Pair(f, more));
    ReturnApart(code, s, e, Pair(f, more), r);
    CallWalk(code, s, e, Pair(f, more));
    var t := Entered(s, e, On(Closure(r), On(Pair(f, more), k)));
    u := Capture(code, b, t, f, more, r, k);
    c := |t.envs|;
    WalksReach(code, s, t);
    WalksReach(code, t, u);
    ReachInv(code, s, t);
    ReachInv(code, t, u);
    ReachesTrans(code, s, t, u);
    FreshTable(s, e, t, u, c, b);
    OnCallIn(code, b, u, |s.tables|, c, k, r);
  }

  lemma ReturnApart(code: seq<Item>, s: State, e: nat, args: Value, r: nat)
    requires Frames.Inv(s) && Calling(code, s, e, args) && ReturnOf(code, s, e, args) == Closure(r)
    ensures e != s.cur && r < |s.envs|
  {
    if code[s.Ip()] != Emit.Do(CallIn) {
      assert Frames.StackApart(s.stack.rest, |s.envs|, s.cur);
      assert Frames.StackApart(s.stack.rest.rest, |s.envs|, s.cur);
    }
  }

  lemma FreshTable(s: State, e: nat, t: State, u: State, c: nat, b: int)
    requires Frames.Inv(s) && e < |s.envs| && t == Entered(s, e, t.stack) && u.cur == t.cur
      && |u.envs| == |t.envs| + 1 && c == |t.envs|
    requires u.envs[c] == t.envs[t.cur].(ip := b + EXIT) && u.envs[u.cur] == t.envs[t.cur].(ip := b + 61)
    requires forall i :: 0 <= i < c && i != t.cur ==> u.envs[i] == t.envs[i]
    ensures OnlyHere(u, |s.tables|, b, c) && forall j :: 0 <= j < |u.envs| ==> u.envs[j].parent != Some(c)
  {
    forall i | 0 <= i < |s.envs| ensures Frames.EnvApart(s.envs[i], i, |s.tables|, s.cur) {}
  }
}
