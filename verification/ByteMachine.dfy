/** The machine on bytes, as vm_eval runs it, and its relation to the labelled-code machine.

    An instruction treats addresses as opaque: it copies them and never looks at them.  So running
    assembled bytes is the same as running the labelled code with every address replaced by the
    byte address of the item it names, and every address the machine ever holds names an item. */
module ByteMachine {
  import opened Machine
  import opened Runs
  import opened Code
  import opened Bytes
  import opened Assembler

  /** One turn of the vm_eval loop. */
  function ByteStep(bs: seq<Byte>, s: State): Outcome
    requires s.Ok() && 0 <= s.Ip() < |bs|
  {
    match Decode(bs, s.Ip())
    case Decoded(i, next) => Exec(i, next, s)
    case Illegal => Abort
  }

  function ByteStepper(bs: seq<Byte>): State -> Option<State> {
    (s: State) =>
      if s.cur < |s.envs| && 0 <= s.Ip() < |bs| then
        (match ByteStep(bs, s) case Next(t) => Some(t) case _ => None)
      else None
  }

  ghost predicate ByteReaches(bs: seq<Byte>, s: State, t: State) {
    ReachesBy(ByteStepper(bs), s, t)
  }

  // ---------- states with byte addresses ----------

  function OnBytesEnv(code: seq<Item>, e: Env): Env {
    e.(ip := Addr(code, e.ip), handlerAddr := Addr(code, e.handlerAddr))
  }

  function OnBytesEnvs(code: seq<Item>, envs: seq<Env>): (r: seq<Env>)
    ensures |r| == |envs| && forall i :: 0 <= i < |envs| ==> r[i] == OnBytesEnv(code, envs[i])
  {
    seq(|envs|, i requires 0 <= i < |envs| => OnBytesEnv(code, envs[i]))
  }

  function OnBytes(code: seq<Item>, s: State): State {
    s.(envs := OnBytesEnvs(code, s.envs))
  }

  function OnBytesOut(code: seq<Item>, r: Outcome): Outcome {
    match r
    case Next(s) => Next(OnBytes(code, s))
    case Abort => Abort
    case Undefined => Undefined
  }

  lemma MapUpdate(code: seq<Item>, envs: seq<Env>, i: nat, e: Env)
    requires i < |envs|
    ensures OnBytesEnvs(code, envs[i := e]) == OnBytesEnvs(code, envs)[i := OnBytesEnv(code, e)]
  {
  }

  lemma MapAppend(code: seq<Item>, envs: seq<Env>, e: Env)
    ensures OnBytesEnvs(code, envs + [e]) == OnBytesEnvs(code, envs) + [OnBytesEnv(code, e)]
  {
  }

  lemma {:induction false} LookupMap(code: seq<Item>, envs: seq<Env>, tables: seq<Table>, e: nat, x: string)
    ensures Lookup(OnBytesEnvs(code, envs), tables, e, x) == Lookup(envs, tables, e, x)
    decreases e
  {
    if e < |envs| && envs[e].table < |tables| && x !in tables[envs[e].table] && envs[e].parent.Some?
      && envs[e].parent.value < e {
      LookupMap(code, envs, tables, envs[e].parent.value, x);
    }
  }

  lemma {:induction false} HandlerMap(code: seq<Item>, envs: seq<Env>, e: nat)
    ensures FindHandler(OnBytesEnvs(code, envs), e) == FindHandler(envs, e)
    decreases e
  {
    if e < |envs| && !envs[e].handler && envs[e].parent.Some? && envs[e].parent.value < e {
      HandlerMap(code, envs, envs[e].parent.value);
    }
  }

  // ---------- instructions commute with the change of addresses ----------

  lemma SetIpMap(code: seq<Item>, s: State, ip: int)
    requires s.Ok()
    ensures SetIp(OnBytes(code, s), Addr(code, ip)) == OnBytes(code, SetIp(s, ip))
  {
    MapUpdate(code, s.envs, s.cur, s.envs[s.cur].(ip := ip));
  }

  lemma EnterMap(code: seq<Item>, s: State, e: Env)
    ensures Enter(OnBytes(code, s), OnBytesEnv(code, e)) == OnBytes(code, Enter(s, e))
  {
    MapAppend(code, s.envs, e);
  }

  lemma PushEnvMap(code: seq<Item>, s: State)
    requires s.Ok()
    ensures PushEnv(OnBytes(code, s)) == OnBytes(code, PushEnv(s))
  {
    MapAppend(code, s.envs, Env(s.Ip(), |s.tables|, false, 0, Some(s.cur)));
  }

  lemma ThrowMap(code: seq<Item>, s: State, msg: string, objs: seq<Value>)
    requires s.Ok()
    ensures Throw(OnBytes(code, s), msg, objs) == OnBytesOut(code, Throw(s, msg, objs))
  {
    hide ListOnto;
    MapAppend(code, s.envs, s.envs[s.cur]);
    var envs1 := s.envs + [s.envs[s.cur]];
    HandlerMap(code, envs1, s.cur);
    var h := FindHandler(envs1, s.cur);
    if h.Some? && h.value < |envs1| {
      MapAppend(code, envs1, envs1[h.value].(handler := false, ip := envs1[h.value].handlerAddr));
    }
  }

  lemma JumpMap(code: seq<Item>, k: JumpKind, t: int, s: State)
    requires s.Ok()
    ensures ExecJump(k, Addr(code, t), OnBytes(code, s)) == OnBytesOut(code, ExecJump(k, t, s))
  {
    match k
    case Jmp => SetIpMap(code, s, t);
    case Jnf => if s.stack.On? { SetIpMap(code, s.(stack := s.stack.rest), t); }
    case Call =>
      var s1 := Push(s, Closure(s.cur));
      PushEnvMap(code, s1);
      SetIpMap(code, PushEnv(s1), t);
    case Proc => MapAppend(code, s.envs, s.envs[s.cur].(ip := t));
    case Continue => MapUpdate(code, s.envs, s.cur, s.envs[s.cur].(handler := true, handlerAddr := t));
  }

  lemma ReadMap(code: seq<Item>, a: Value, s: State)
    requires s.Ok()
    ensures ExecRead(a, OnBytes(code, s)) == OnBytesOut(code, ExecRead(a, s))
  {
    hide Throw;
    ThrowMap(code, s, "Attempt to read with non-symbol", [a]);
    ThrowMap(code, s, "Attempt to read undefined symbol", [a]);
    if a.Symbol? { LookupMap(code, s.envs, s.tables, s.cur, a.name); }
  }

  lemma TransferMap(code: seq<Item>, op: Op, a: Value, s: State)
    requires s.Ok()
    ensures ExecTransfer(op, a, OnBytes(code, s)) == OnBytesOut(code, ExecTransfer(op, a, s))
  {
    hide Throw, PushEnv, Enter;
    ThrowMap(code, s, "Attempt to jump to non-closure", [a]);
    if a.Closure? && a.env < |s.envs| {
      var target := s.envs[a.env];
      assert OnBytes(code, s).envs[a.env] == OnBytesEnv(code, target);
      if op == Ret {
        EnterMap(code, s, target);
      } else if op == Jin {
        var e := target.(table := s.envs[s.cur].table, parent := s.envs[s.cur].parent);
        assert OnBytesEnv(code, e) == OnBytesEnv(code, target).(table := s.envs[s.cur].table,
                                                                parent := s.envs[s.cur].parent);
        EnterMap(code, s, e);
      } else if op == CallIn {
        CalleeMap(code, Push(s, Closure(s.cur)), target);
      } else if s.stack.On? && s.stack.rest.On? {
        CalleeMap(code, s.(stack := On(s.stack.rest.top, On(s.stack.top, s.stack.rest.rest))), target);
      }
    }
  }

  lemma CalleeMap(code: seq<Item>, s: State, target: Env)
    ensures Enter(OnBytes(code, s), OnBytesEnv(code, target)).Ok() && Enter(s, target).Ok()
    ensures PushEnv(Enter(OnBytes(code, s), OnBytesEnv(code, target))) == OnBytes(code, PushEnv(Enter(s, target)))
  {
    EnterMap(code, s, target);
    PushEnvMap(code, Enter(s, target));
  }

  lemma TwoMap(code: seq<Item>, op: Op, a: Value, b: Value, s: State)
    requires s.Ok()
    ensures ExecTwo(op, a, b, OnBytes(code, s)) == OnBytesOut(code, ExecTwo(op, a, b, s))
  {
    hide Throw, Arith;
    match op
    case Math(m) =>
      ThrowMap(code, s, if m.NumEq? || m.NumLt? || m.NumGt? then "Attempt to compare with non-number\n"
                        else "Attempt to calculate with non-number\n", [b, a]);
    case Bind => ThrowMap(code, s, "Attempt to bind with non-symbol", [a, b]);
    case Set =>
      ThrowMap(code, s, "Attempt to set with non-symbol", [a, b]);
      ThrowMap(code, s, "Attempt to set undefined symbol", [a, b]);
      if a.Symbol? { LookupMap(code, s.envs, s.tables, s.cur, a.name); }
    case Adopt =>
      AdoptMap(code, a, b, s);
    case _ =>
  }

  lemma AdoptMap(code: seq<Item>, a: Value, b: Value, s: State)
    requires s.Ok()
    ensures ExecTwo(Adopt, a, b, OnBytes(code, s)) == OnBytesOut(code, ExecTwo(Adopt, a, b, s))
  {
    hide Throw;
    ThrowMap(code, s, "Attempt to adopt with non-closure", [a]);
    ThrowMap(code, s, "Attempt to adopt non-closure", [b]);
    if a.Closure? && b.Closure? && a.env < |s.envs| && b.env < |s.envs| {
      MapAppend(code, s.envs, s.envs[b.env].(table := s.envs[a.env].table, parent := s.envs[a.env].parent));
    }
  }

  lemma OneMap(code: seq<Item>, op: Op, a: Value, s: State)
    requires s.Ok()
    ensures ExecOne(op, a, OnBytes(code, s)) == OnBytesOut(code, ExecOne(op, a, s))
  {
    hide Throw, ExecTwo, ExecTransfer, ExecRead;
    match op
    case Car => ThrowMap(code, s, "Attempt to read the car of a non-pair", [a]);
    case Cdr => ThrowMap(code, s, "Attempt to read the cdr of a non-pair", [a]);
    case Read => ReadMap(code, a, s);
    case Ret | Jin | CallIn | TailCallIn => TransferMap(code, op, a, s);
    case Drop | Dup | Not | IsEmpty =>
    case _ => if s.stack.On? { TwoMap(code, op, a, s.stack.top, s.(stack := s.stack.rest)); }
  }

  /** An instruction run with byte addresses gives the result with byte addresses. */
  lemma ExecMap(code: seq<Item>, i: Instr<int>, next: int, s: State)
    requires s.Ok()
    ensures Exec(Placed(code, i), Addr(code, next), OnBytes(code, s)) == OnBytesOut(code, Exec(i, next, s))
  {
    hide ExecOne, ExecJump;
    var s1 := SetIp(s, next);
    SetIpMap(code, s, next);
    match i
    case Literal(_) =>
    case Jump(k, t) => JumpMap(code, k, t, s1);
    case Plain(op) =>
      if op == Restore {
        MapUpdate(code, s1.envs, s1.cur, s1.envs[s1.cur].(handler := true));
      } else if op != GetDepth && s1.stack.On? {
        OneMap(code, op, s1.stack.top, s1.(stack := s1.stack.rest));
      }
  }

  // ---------- forward: labelled code to bytes ----------

  lemma MarkMap(code: seq<Item>, s: State)
    requires s.Ok() && 0 <= s.Ip() < |code| && code[s.Ip()].Mark?
    ensures OnBytes(code, SetIp(s, s.Ip() + 1)) == OnBytes(code, s)
  {
    assert Addr(code, s.Ip() + 1) == Addr(code, s.Ip());
    SetIpMap(code, s, s.Ip() + 1);
    assert OnBytesEnvs(code, s.envs)[s.cur := OnBytesEnvs(code, s.envs)[s.cur]] == OnBytesEnvs(code, s.envs);
  }

  lemma StepOnBytes(code: seq<Item>, s: State)
    requires Assemblable(code) && s.Ok() && 0 <= s.Ip() < |code| && code[s.Ip()].Ins?
    ensures Addr(code, s.Ip()) < |Assembled(code)|
    ensures ByteStep(Assembled(code), OnBytes(code, s)) == OnBytesOut(code, Step(code, s))
  {
    hide Exec, Decode, Assembled, Placed;
    DecodeAssembled(code, s.Ip(), code[s.Ip()].i);
    ExecMap(code, Resolve(code, code[s.Ip()].i), s.Ip() + 1, s);
  }

  lemma {:induction false} RunOnBytes(code: seq<Item>, s: State, n: nat, t: State)
    requires Assemblable(code) && Iterate(Stepper(code), s, n) == Some(t)
    ensures ByteReaches(Assembled(code), OnBytes(code, s), OnBytes(code, t))
    decreases n
  {
    hide Exec, Decode, Assembled, AllDefined, Addr;
    var bs := Assembled(code);
    if n == 0 {
      ByRefl(ByteStepper(bs), OnBytes(code, s));
    } else {
      var s1 := Stepper(code)(s).value;
      RunOnBytes(code, s1, n - 1, t);
      if code[s.Ip()].Mark? {
        MarkMap(code, s);
      } else {
        StepOnBytes(code, s);
        ByStep(ByteStepper(bs), OnBytes(code, s), OnBytes(code, s1));
        ByTrans(ByteStepper(bs), OnBytes(code, s), OnBytes(code, s1), OnBytes(code, t));
      }
    }
  }

  /** What the labelled code reaches, its assembled bytes reach. */
  lemma BytesSimulate(code: seq<Item>, s: State, t: State)
    requires Assemblable(code) && Reaches(code, s, t)
    ensures ByteReaches(Assembled(code), OnBytes(code, s), OnBytes(code, t))
  {
    hide Exec, Decode, Assembled, Assemblable;
    var n: nat :| Iterate(Stepper(code), s, n) == Some(t);
    RunOnBytes(code, s, n, t);
  }
}
