/** Environment records are immutable once anything refers to them.

    Whatever instructions run, the current record is never the record of a closure on the stack or
    in a table, and never a parent.  So a record that has been captured or has become a parent is
    never the one being changed, and keeps its address, table, parent and handler for good. */
module Frames {
  import opened Machine

  /** Every closure inside v names an existing record other than the current one. */
  ghost predicate Apart(v: Value, n: nat, cur: nat) {
    match v
    case Closure(e) => e < n && e != cur
    case Pair(a, d) => Apart(a, n, cur) && Apart(d, n, cur)
    case _ => true
  }

  ghost predicate StackApart(k: Stack, n: nat, cur: nat) {
    match k
    case Bottom => true
    case On(v, rest) => Apart(v, n, cur) && StackApart(rest, n, cur)
  }

  ghost predicate TableApart(t: Table, n: nat, cur: nat) {
    forall x :: x in t ==> Apart(t[x], n, cur)
  }

  ghost predicate EnvApart(e: Env, i: nat, tables: nat, cur: nat) {
    e.table < tables && (e.parent.Some? ==> e.parent.value < i && e.parent.value != cur)
  }

  ghost predicate Inv(s: State) {
    && s.cur < |s.envs|
    && (forall i :: 0 <= i < |s.envs| ==> EnvApart(s.envs[i], i, |s.tables|, s.cur))
    && StackApart(s.stack, |s.envs|, s.cur)
    && (forall t :: 0 <= t < |s.tables| ==> TableApart(s.tables[t], |s.envs|, s.cur))
  }

  /** The only record a step changes is the current one, and a record once left never becomes
      current again. */
  ghost predicate Keeps(s: State, t: State) { KeepsRecords(s.envs, s.cur, t.envs, t.cur) }

  ghost predicate KeepsRecords(envs: seq<Env>, cur: nat, envs': seq<Env>, cur': nat) {
    && |envs| <= |envs'| && (cur' == cur || cur' >= |envs|)
    && (forall i :: 0 <= i < |envs| && i != cur ==> envs'[i] == envs[i])
  }

  lemma {:induction false} ApartMono(v: Value, n: nat, cur: nat, n': nat, cur': nat)
    requires Apart(v, n, cur) && n <= n' && (cur' == cur || cur' >= n)
    ensures Apart(v, n', cur')
    decreases v
  {
    if v.Pair? {
      ApartMono(v.car, n, cur, n', cur');
      ApartMono(v.cdr, n, cur, n', cur');
    }
  }

  lemma {:induction false} StackApartMono(k: Stack, n: nat, cur: nat, n': nat, cur': nat)
    requires StackApart(k, n, cur) && n <= n' && (cur' == cur || cur' >= n)
    ensures StackApart(k, n', cur')
    decreases k
  {
    if k.On? {
      ApartMono(k.top, n, cur, n', cur');
      StackApartMono(k.rest, n, cur, n', cur');
    }
  }

  lemma TablesMono(ts: seq<Table>, n: nat, cur: nat, n': nat, cur': nat)
    requires forall t :: 0 <= t < |ts| ==> TableApart(ts[t], n, cur)
    requires n <= n' && (cur' == cur || cur' >= n)
    ensures forall t :: 0 <= t < |ts| ==> TableApart(ts[t], n', cur')
  {
    forall t | 0 <= t < |ts| ensures TableApart(ts[t], n', cur') {
      forall x | x in ts[t] ensures Apart(ts[t][x], n', cur') { ApartMono(ts[t][x], n, cur, n', cur'); }
    }
  }

  lemma {:induction false} ListApart(vs: seq<Value>, acc: Value, n: nat, cur: nat)
    requires (forall i :: 0 <= i < |vs| ==> Apart(vs[i], n, cur)) && Apart(acc, n, cur)
    ensures Apart(ListOnto(vs, acc), n, cur)
    decreases |vs|
  {
    if vs != [] { ListApart(vs[1..], Pair(vs[0], acc), n, cur); }
  }

  // ---------- the elementary updates ----------

  /** A change of the current record's address or handler. */
  lemma TouchInv(s: State, e: Env)
    requires Inv(s) && e.table == s.envs[s.cur].table && e.parent == s.envs[s.cur].parent
    ensures Inv(s.(envs := s.envs[s.cur := e])) && Keeps(s, s.(envs := s.envs[s.cur := e]))
  {
    var t := s.(envs := s.envs[s.cur := e]);
    forall i | 0 <= i < |t.envs| ensures EnvApart(t.envs[i], i, |t.tables|, t.cur) {
      assert EnvApart(s.envs[i], i, |s.tables|, s.cur);
    }
  }

  lemma StackInv(s: State, k: Stack)
    requires Inv(s) && StackApart(k, |s.envs|, s.cur)
    ensures Inv(s.(stack := k)) && Keeps(s, s.(stack := k))
  {
  }

  /** A new record that is only captured: the current one stays current. */
  lemma CaptureInv(s: State, e: Env)
    requires Inv(s) && EnvApart(e, |s.envs|, |s.tables|, s.cur)
    ensures Inv(s.(envs := s.envs + [e])) && Keeps(s, s.(envs := s.envs + [e]))
  {
    var t := s.(envs := s.envs + [e]);
    StackApartMono(s.stack, |s.envs|, s.cur, |t.envs|, t.cur);
    TablesMono(s.tables, |s.envs|, s.cur, |t.envs|, t.cur);
    forall i | 0 <= i < |t.envs| ensures EnvApart(t.envs[i], i, |t.tables|, t.cur) {
      if i < |s.envs| { assert EnvApart(s.envs[i], i, |s.tables|, s.cur); }
    }
  }

  /** A new record becomes current; the old current one may be captured in the same breath. */
  lemma EnterInv(s: State, e: Env, k: Stack)
    requires Inv(s) && e.table < |s.tables| && (e.parent.Some? ==> e.parent.value < |s.envs|)
    requires StackApart(k, |s.envs|, |s.envs|)
    ensures Inv(Enter(s.(stack := k), e)) && Keeps(s, Enter(s.(stack := k), e))
  {
    var t := Enter(s.(stack := k), e);
    StackApartMono(k, |s.envs|, |s.envs|, |t.envs|, t.cur);
    TablesMono(s.tables, |s.envs|, s.cur, |t.envs|, t.cur);
    forall i | 0 <= i < |t.envs| ensures EnvApart(t.envs[i], i, |t.tables|, t.cur) {
      if i < |s.envs| { assert EnvApart(s.envs[i], i, |s.tables|, s.cur); }
    }
  }

  lemma PushEnvInv(s: State)
    requires Inv(s)
    ensures Inv(PushEnv(s)) && Keeps(s, PushEnv(s))
  {
    var s1 := s.(tables := s.tables + [map[]]);
    forall i | 0 <= i < |s1.envs| ensures EnvApart(s1.envs[i], i, |s1.tables|, s1.cur) {
      assert EnvApart(s.envs[i], i, |s.tables|, s.cur);
    }
    StackApartMono(s.stack, |s.envs|, s.cur, |s.envs|, |s.envs|);
    EnterInv(s1, Env(s.Ip(), |s.tables|, false, 0, Some(s.cur)), s.stack);
  }

  lemma BindInv(s: State, t: nat, x: string, v: Value)
    requires Inv(s) && t < |s.tables| && Apart(v, |s.envs|, s.cur)
    ensures var u := s.(tables := s.tables[t := s.tables[t][x := v]]); Inv(u) && Keeps(s, u)
  {
    var u := s.(tables := s.tables[t := s.tables[t][x := v]]);
    forall i | 0 <= i < |u.tables| ensures TableApart(u.tables[i], |u.envs|, u.cur) {
      assert TableApart(s.tables[i], |s.envs|, s.cur);
    }
  }

  lemma KeepsTrans(s: State, t: State, u: State)
    requires Keeps(s, t) && Keeps(t, u)
    ensures Keeps(s, u)
  {
  }

  // ---------- every instruction ----------

  ghost predicate Preserved(s: State, r: Outcome) {
    r.Next? ==> Inv(r.s) && Keeps(s, r.s)
  }

  lemma ThrowInv(s: State, msg: string, objs: seq<Value>)
    requires Inv(s) && forall i :: 0 <= i < |objs| ==> Apart(objs[i], |s.envs|, s.cur)
    ensures Preserved(s, Throw(s, msg, objs))
  {
    var n := |s.envs|;
    assert EnvApart(s.envs[s.cur], s.cur, |s.tables|, s.cur);
    var s0 := s.(envs := s.envs + [s.envs[s.cur]]);
    CaptureInv(s, s.envs[s.cur]);
    ListApart(objs, Empty, n, s.cur);
    var exn := Pair(Str(msg), Pair(Closure(n), ListOnto(objs, Empty)));
    ApartMono(ListOnto(objs, Empty), n, s.cur, n + 1, s.cur);
    var s1 := s0.(stack := On(exn, s.stack));
    StackInv(s0, s1.stack);
    var h := FindHandler(s1.envs, s1.cur);
    if h.Some? && h.value < |s1.envs| {
      assert EnvApart(s1.envs[h.value], h.value, |s1.tables|, s1.cur);
      StackApartMono(s1.stack, |s1.envs|, s1.cur, |s1.envs|, |s1.envs|);
      EnterInv(s1, s1.envs[h.value].(handler := false, ip := s1.envs[h.value].handlerAddr), s1.stack);
      KeepsTrans(s, s0, Throw(s, msg, objs).s);
    }
  }

  lemma {:induction false} LookupBound(envs: seq<Env>, tables: seq<Table>, e: nat, x: string)
    ensures var t := Lookup(envs, tables, e, x); t.Some? ==> t.value < |tables| && x in tables[t.value]
    decreases e
  {
    if e < |envs| && envs[e].table < |tables| && x !in tables[envs[e].table] && envs[e].parent.Some?
      && envs[e].parent.value < e {
      LookupBound(envs, tables, envs[e].parent.value, x);
    }
  }

  lemma ReadInv(a: Value, s: State)
    requires Inv(s) && Apart(a, |s.envs|, s.cur)
    ensures Preserved(s, ExecRead(a, s))
  {
    hide Throw;
    if !a.Symbol? {
      ThrowInv(s, "Attempt to read with non-symbol", [a]);
    } else {
      var t := Lookup(s.envs, s.tables, s.cur, a.name);
      ThrowInv(s, "Attempt to read undefined symbol", [a]);
      LookupBound(s.envs, s.tables, s.cur, a.name);
      if t.Some? {
        assert TableApart(s.tables[t.value], |s.envs|, s.cur);
        StackInv(s, On(s.tables[t.value][a.name], s.stack));
      }
    }
  }

  lemma TransferInv(op: Op, a: Value, s: State)
    requires Inv(s) && Apart(a, |s.envs|, s.cur)
    ensures Preserved(s, ExecTransfer(op, a, s))
  {
    hide Throw, Inv, StackApart, Enter, PushEnv, Preserved;
    TransferParts(a, s);
    NotNext(s);
    if !a.Closure? {
      ThrowInv(s, "Attempt to jump to non-closure", [a]);
    } else {
      var target := s.envs[a.env];
      assert s.(stack := s.stack) == s;
      match op
      case Ret => Entering(s, target, s.stack);
      case Jin => Entering(s, target.(table := s.envs[s.cur].table, parent := s.envs[s.cur].parent), s.stack);
      case CallIn => Entering(s, target, On(Closure(s.cur), s.stack));
      case _ =>
        if s.stack.On? && s.stack.rest.On? {
          Entering(s, target, On(s.stack.rest.top, On(s.stack.top, s.stack.rest.rest)));
        }
    }
  }

  lemma Entering(s: State, e: Env, k: Stack)
    requires Inv(s) && e.table < |s.tables| && (e.parent.Some? ==> e.parent.value < |s.envs|)
    requires StackApart(k, |s.envs|, |s.envs|)
    ensures Preserved(s, Next(Enter(s.(stack := k), e))) && Preserved(s, Next(PushEnv(Enter(s.(stack := k), e))))
  {
    hide Inv, Keeps, Enter, PushEnv;
    EnterInv(s, e, k);
    EnterCalleeInv(s, e, k);
  }

  /** The stacks and records a transfer takes with it. */
  lemma TransferParts(a: Value, s: State)
    requires Inv(s) && Apart(a, |s.envs|, s.cur)
    ensures s.cur < |s.envs| && EnvApart(s.envs[s.cur], s.cur, |s.tables|, s.cur)
    ensures a.Closure? ==> a.env < |s.envs| && EnvApart(s.envs[a.env], a.env, |s.tables|, s.cur)
    ensures StackApart(s.stack, |s.envs|, |s.envs|) && StackApart(On(Closure(s.cur), s.stack), |s.envs|, |s.envs|)
    ensures s.stack.On? && s.stack.rest.On? ==>
      StackApart(On(s.stack.rest.top, On(s.stack.top, s.stack.rest.rest)), |s.envs|, |s.envs|)
  {
    StackApartMono(s.stack, |s.envs|, s.cur, |s.envs|, |s.envs|);
  }

  lemma EnterCalleeInv(s: State, target: Env, k: Stack)
    requires Inv(s) && target.table < |s.tables| && (target.parent.Some? ==> target.parent.value < |s.envs|)
    requires StackApart(k, |s.envs|, |s.envs|)
    ensures var u := PushEnv(Enter(s.(stack := k), target)); Inv(u) && Keeps(s, u)
  {
    EnterInv(s, target, k);
    var t := Enter(s.(stack := k), target);
    PushEnvInv(t);
    KeepsTrans(s, t, PushEnv(t));
  }

  lemma OneInv(op: Op, a: Value, s: State)
    requires Inv(s) && Apart(a, |s.envs|, s.cur)
    ensures Preserved(s, ExecOne(op, a, s))
  {
    hide Throw, ExecTwo, ExecTransfer, ExecRead, Inv, Keeps;
    OneParts(op, a, s);
    match op
    case Read => ReadInv(a, s);
    case Ret | Jin | CallIn | TailCallIn => TransferInv(op, a, s);
    case Car | Cdr =>
      ThrowInv(s, if op.Car? then "Attempt to read the car of a non-pair"
                  else "Attempt to read the cdr of a non-pair", [a]);
    case Drop | Dup | Not | IsEmpty =>
    case _ =>
      if s.stack.On? { TwoInv(op, a, s.stack.top, s.(stack := s.stack.rest), s); }
  }

  /** The stack-only results of one-operand instructions. */
  lemma OneParts(op: Op, a: Value, s: State)
    requires Inv(s) && Apart(a, |s.envs|, s.cur)
    ensures Inv(s) && Keeps(s, s)
    ensures s.stack.On? ==> Inv(s.(stack := s.stack.rest)) && Apart(s.stack.top, |s.envs|, s.cur) && s.cur < |s.envs|
    ensures Preserved(s, Next(Push(Push(s, a), a))) && Preserved(s, Next(Push(s, Bool(a == Bool(false)))))
      && Preserved(s, Next(Push(s, Bool(a == Empty))))
    ensures a.Pair? ==> Preserved(s, Next(Push(s, a.car))) && Preserved(s, Next(Push(s, a.cdr)))
  {
  }

  lemma TwoInv(op: Op, a: Value, b: Value, s: State, s0: State)
    requires Inv(s) && Apart(a, |s.envs|, s.cur) && Apart(b, |s.envs|, s.cur)
    requires s0.envs == s.envs && s0.cur == s.cur
    ensures Preserved(s0, ExecTwo(op, a, b, s))
  {
    hide *;
    match op
    case Math(m) => MathInv(m, a, b, s, s0);
    case Bind | Set => WriteInv(op, a, b, s, s0);
    case Adopt => AdoptCaseInv(a, b, s, s0);
    case _ => ShuffleInv(op, a, b, s, s0);
  }

  lemma ShuffleInv(op: Op, a: Value, b: Value, s: State, s0: State)
    requires Inv(s) && Apart(a, |s.envs|, s.cur) && Apart(b, |s.envs|, s.cur) && s0.envs == s.envs && s0.cur == s.cur
    requires !op.Math? && !op.Bind? && !op.Set? && !op.Adopt?
    ensures Preserved(s0, ExecTwo(op, a, b, s))
  {
    hide Throw, Inv, Preserved;
    InvStack(s);
    if op == Cons { Restacked(s, On(Pair(a, b), s.stack), s0); }
    else if op == Swap { Restacked(s, On(b, On(a, s.stack)), s0); }
    else if s.stack.On? { Restacked(s, On(b, On(s.stack.top, On(a, s.stack.rest))), s0); }
    else { NotNext(s0); }
  }

  lemma InvStack(s: State)
    requires Inv(s)
    ensures StackApart(s.stack, |s.envs|, s.cur)
  {
  }

  lemma Restacked(s: State, k: Stack, s0: State)
    requires Inv(s) && StackApart(k, |s.envs|, s.cur) && s0.envs == s.envs && s0.cur == s.cur
    ensures Preserved(s0, Next(s.(stack := k)))
  {
    StackInv(s, k);
  }

  lemma NotNext(s: State)
    ensures Preserved(s, Abort) && Preserved(s, Undefined)
  {
  }

  lemma MathInv(m: MathOp, a: Value, b: Value, s: State, s0: State)
    requires Inv(s) && Apart(a, |s.envs|, s.cur) && Apart(b, |s.envs|, s.cur) && s0.envs == s.envs && s0.cur == s.cur
    ensures Preserved(s0, ExecTwo(Math(m), a, b, s))
  {
    hide Throw;
    MathThrow(m, a, b, s);
    if a.Fixnum? && b.Fixnum? && Arith(m, b.i, a.i).Some? { StackInv(s, On(Arith(m, b.i, a.i).value, s.stack)); }
  }

  lemma AdoptCaseInv(a: Value, b: Value, s: State, s0: State)
    requires Inv(s) && Apart(a, |s.envs|, s.cur) && Apart(b, |s.envs|, s.cur) && s0.envs == s.envs && s0.cur == s.cur
    ensures Preserved(s0, ExecTwo(Adopt, a, b, s))
  {
    hide Throw;
    ThrowInv(s, "Attempt to adopt with non-closure", [a]);
    ThrowInv(s, "Attempt to adopt non-closure", [b]);
    if a.Closure? && b.Closure? { AdoptInv(s, a.env, b.env); }
  }

  lemma WriteInv(op: Op, a: Value, b: Value, s: State, s0: State)
    requires (op == Bind || op == Set) && Inv(s) && Apart(a, |s.envs|, s.cur) && Apart(b, |s.envs|, s.cur)
    requires s0.envs == s.envs && s0.cur == s.cur
    ensures Preserved(s0, ExecTwo(op, a, b, s))
  {
    ThrowInv(s, "Attempt to bind with non-symbol", [a, b]);
    ThrowInv(s, "Attempt to set with non-symbol", [a, b]);
    ThrowInv(s, "Attempt to set undefined symbol", [a, b]);
    assert EnvApart(s.envs[s.cur], s.cur, |s.tables|, s.cur);
    hide Throw, Inv;
    if a.Symbol? {
      var t := if op == Bind then Some(s.envs[s.cur].table) else Lookup(s.envs, s.tables, s.cur, a.name);
      LookupBound(s.envs, s.tables, s.cur, a.name);
      if t.Some? { BindInv(s, t.value, a.name, b); }
    }
  }

  lemma MathThrow(m: MathOp, a: Value, b: Value, s: State)
    requires Inv(s) && Apart(a, |s.envs|, s.cur) && Apart(b, |s.envs|, s.cur)
    ensures Preserved(s, Throw(s, if m.NumEq? || m.NumLt? || m.NumGt? then "Attempt to compare with non-number\n"
                                  else "Attempt to calculate with non-number\n", [b, a]))
  {
    hide Throw;
    ThrowInv(s, if m.NumEq? || m.NumLt? || m.NumGt? then "Attempt to compare with non-number\n"
                else "Attempt to calculate with non-number\n", [b, a]);
  }

  lemma AdoptInv(s: State, parent: nat, child: nat)
    requires Inv(s) && parent < |s.envs| && child < |s.envs|
    ensures var e := s.envs[child].(table := s.envs[parent].table, parent := s.envs[parent].parent);
      var t := s.(envs := s.envs + [e], stack := On(Closure(|s.envs|), s.stack)); Inv(t) && Keeps(s, t)
  {
    var e := s.envs[child].(table := s.envs[parent].table, parent := s.envs[parent].parent);
    assert EnvApart(s.envs[parent], parent, |s.tables|, s.cur);
    CaptureInv(s, e);
    var t := s.(envs := s.envs + [e]);
    StackInv(t, On(Closure(|s.envs|), s.stack));
  }

  lemma JumpInv(k: JumpKind, t: int, s: State)
    requires Inv(s)
    ensures Preserved(s, ExecJump(k, t, s))
  {
    var e := s.envs[s.cur];
    match k
    case Jmp => TouchInv(s, e.(ip := t));
    case Jnf =>
      if s.stack.On? {
        var s1 := s.(stack := s.stack.rest);
        StackInv(s, s.stack.rest);
        TouchInv(s1, e.(ip := t));
      }
    case Call =>
      CallInv(s, t);
    case Proc =>
      assert EnvApart(e, s.cur, |s.tables|, s.cur);
      CaptureInv(s, e.(ip := t));
      StackInv(s.(envs := s.envs + [e.(ip := t)]), On(Closure(|s.envs|), s.stack));
    case Continue => TouchInv(s, e.(handler := true, handlerAddr := t));
  }

  lemma CallInv(s: State, t: int)
    requires Inv(s)
    ensures var u := SetIp(PushEnv(Push(s, Closure(s.cur))), t); Inv(u) && Keeps(s, u)
  {
    var s1 := s.(tables := s.tables + [map[]]);
    forall i | 0 <= i < |s1.envs| ensures EnvApart(s1.envs[i], i, |s1.tables|, s1.cur) {
      assert EnvApart(s.envs[i], i, |s.tables|, s.cur);
    }
    StackApartMono(s.stack, |s.envs|, s.cur, |s.envs|, |s.envs|);
    var k := On(Closure(s.cur), s.stack);
    EnterInv(s1, Env(s.Ip(), |s.tables|, false, 0, Some(s.cur)), k);
    var u := PushEnv(Push(s, Closure(s.cur)));
    assert u == Enter(s1.(stack := k), Env(s.Ip(), |s.tables|, false, 0, Some(s.cur)));
    TouchInv(u, u.envs[u.cur].(ip := t));
    KeepsTrans(s, u, SetIp(u, t));
  }

  /** Every instruction keeps the invariant and every record but the current one. */
  lemma ExecInv(i: Instr<int>, next: int, s: State)
    requires Inv(s)
    ensures Preserved(s, Exec(i, next, s))
  {
    var s1 := SetIp(s, next);
    TouchInv(s, s.envs[s.cur].(ip := next));
    var r := Exec(i, next, s);
    match i {
      case Literal(l) => StackInv(s1, On(LitValue(l), s1.stack));
      case Jump(k, t) => JumpInv(k, t, s1);
      case Plain(op) =>
        if op == GetDepth {
          StackInv(s1, On(Fixnum(Depth(s1.stack)), s1.stack));
        } else if op == Restore {
          TouchInv(s1, s1.envs[s1.cur].(handler := true));
        } else if s1.stack.On? {
          StackInv(s1, s1.stack.rest);
          OneInv(op, s1.stack.top, s1.(stack := s1.stack.rest));
        }
    }
    hide Exec, Inv, SetIp;
    if r.Next? { KeepsTrans(s, s1, r.s); }
  }

  // ---------- runs ----------

  /** A run of the machine under any sequence of instructions. */
  ghost predicate IsRun(states: seq<State>) {
    forall j :: 0 <= j < |states| - 1 ==> Steps(states[j], states[j + 1])
  }

  ghost predicate Steps(s: State, t: State) {
    s.cur < |s.envs| && exists i: Instr<int>, next: int :: Exec(i, next, s) == Next(t)
  }

  lemma StepsKeep(s: State, t: State)
    requires Inv(s) && Steps(s, t)
    ensures Inv(t) && Keeps(s, t)
  {
    hide Exec, Inv, Keeps;
    var i: Instr<int>, next: int :| Exec(i, next, s) == Next(t);
    ExecInv(i, next, s);
  }

  /** Over any run a record that is not current, so in particular one that a closure or a child
      record refers to, stays exactly as it is. */
  lemma {:induction false} RecordsImmutable(states: seq<State>, a: nat, b: nat)
    requires IsRun(states) && a <= b < |states| && Inv(states[a])
    ensures Inv(states[b]) && Keeps(states[a], states[b])
    decreases b - a
  {
    hide Steps, Inv;
    if a < b {
      assert Steps(states[a], states[a + 1]);
      StepsKeep(states[a], states[a + 1]);
      RecordsImmutable(states, a + 1, b);
      KeepsTrans(states[a], states[a + 1], states[b]);
    }
  }

  // ---------- captured records and parents ----------

  ghost predicate Mentions(v: Value, e: nat) {
    match v
    case Closure(x) => x == e
    case Pair(a, d) => Mentions(a, e) || Mentions(d, e)
    case _ => false
  }

  ghost predicate StackMentions(k: Stack, e: nat) {
    k.On? && (Mentions(k.top, e) || StackMentions(k.rest, e))
  }

  /** Some closure on the stack or in a table holds record e, or some record has it as parent. */
  ghost predicate Referenced(s: State, e: nat) {
    || StackMentions(s.stack, e)
    || (exists t, x :: 0 <= t < |s.tables| && x in s.tables[t] && Mentions(s.tables[t][x], e))
    || (exists i :: 0 <= i < |s.envs| && s.envs[i].parent == Some(e))
  }

  lemma {:induction false} MentionsApart(v: Value, e: nat, n: nat, cur: nat)
    requires Apart(v, n, cur) && Mentions(v, e)
    ensures e < n && e != cur
    decreases v
  {
    if v.Pair? { if Mentions(v.car, e) { MentionsApart(v.car, e, n, cur); } else { MentionsApart(v.cdr, e, n, cur); } }
  }

  lemma {:induction false} StackMentionsApart(k: Stack, e: nat, n: nat, cur: nat)
    requires StackApart(k, n, cur) && StackMentions(k, e)
    ensures e < n && e != cur
    decreases k
  {
    if Mentions(k.top, e) { MentionsApart(k.top, e, n, cur); } else { StackMentionsApart(k.rest, e, n, cur); }
  }

  lemma ReferencedApart(s: State, e: nat)
    requires Inv(s) && Referenced(s, e)
    ensures e < |s.envs| && e != s.cur
  {
    if StackMentions(s.stack, e) {
      StackMentionsApart(s.stack, e, |s.envs|, s.cur);
    } else if exists i :: 0 <= i < |s.envs| && s.envs[i].parent == Some(e) {
      var i :| 0 <= i < |s.envs| && s.envs[i].parent == Some(e);
      assert EnvApart(s.envs[i], i, |s.tables|, s.cur);
    } else {
      var t, x :| 0 <= t < |s.tables| && x in s.tables[t] && Mentions(s.tables[t][x], e);
      assert TableApart(s.tables[t], |s.envs|, s.cur);
      MentionsApart(s.tables[t][x], e, |s.envs|, s.cur);
    }
  }

  /** Once a record is captured by a closure or is a parent, its address, table, parent and handler
      never change again, whatever runs. */
  lemma CapturedImmutable(states: seq<State>, a: nat, b: nat, e: nat)
    requires IsRun(states) && a <= b < |states| && Inv(states[a]) && Referenced(states[a], e)
    ensures e < |states[a].envs| <= |states[b].envs| && states[b].envs[e] == states[a].envs[e] && states[b].cur != e
  {
    hide Steps, Inv, Referenced;
    RecordsImmutable(states, a, b);
    ReferencedApart(states[a], e);
  }

  lemma StartInv()
    ensures Inv(Start())
  {
  }
}
