/** Where an exception resumes.

    Raising looks for the nearest record up the parents whose handler is enabled, and goes on at its
    handler address in a copy of that record with the handler disabled.  `continue` and `restore`
    enable the handler of the current record, and no other instruction disables it again. */
module Exceptions {
  import opened Machine
  import opened Runs
  import opened Code
  import opened Stages
  import opened CallCc
  import Continuations
  import Frames
  import Emit

  // ---------- the handler that is found ----------

  /** A walk up the parents that ends at the first record with its handler enabled. */
  ghost predicate HandlerPath(envs: seq<Env>, path: seq<nat>) {
    && path != [] && (forall i :: 0 <= i < |path| ==> path[i] < |envs|)
    && (forall i :: 0 <= i < |path| - 1 ==> !envs[path[i]].handler && envs[path[i]].parent == Some(path[i + 1]))
    && envs[path[|path| - 1]].handler
  }

  ghost predicate PathTo(envs: seq<Env>, path: seq<nat>, e: nat, h: nat) {
    HandlerPath(envs, path) && path[0] == e && path[|path| - 1] == h
  }

  /** h is the nearest record from e upward that handles exceptions. */
  ghost predicate Nearest(envs: seq<Env>, e: nat, h: nat) { exists path :: PathTo(envs, path, e, h) }

  ghost predicate Descending(envs: seq<Env>) {
    forall i :: 0 <= i < |envs| && envs[i].parent.Some? ==> envs[i].parent.value < i
  }

  lemma InvDescending(s: State)
    requires Frames.Inv(s)
    ensures s.Ok() && Descending(s.envs)
  {
    forall i | 0 <= i < |s.envs| ensures Frames.EnvApart(s.envs[i], i, |s.tables|, s.cur) {}
  }

  lemma {:induction false} FoundNearest(envs: seq<Env>, e: nat)
    requires Descending(envs) && e < |envs|
    ensures var h := FindHandler(envs, e); h.Some? ==> Nearest(envs, e, h.value)
    decreases e
  {
    if envs[e].handler {
      assert PathTo(envs, [e], e, e);
    } else if envs[e].parent.Some? {
      var p := envs[e].parent.value;
      FoundNearest(envs, p);
      var h := FindHandler(envs, p);
      if h.Some? {
        var path :| PathTo(envs, path, p, h.value);
        var longer := [e] + path;
        forall i | 0 <= i < |longer| - 1
          ensures !envs[longer[i]].handler && envs[longer[i]].parent == Some(longer[i + 1])
        {
          if i > 0 { assert longer[i] == path[i - 1] && longer[i + 1] == path[i]; }
        }
        assert PathTo(envs, longer, e, h.value);
      }
    }
  }

  lemma {:induction false} NearestFound(envs: seq<Env>, path: seq<nat>)
    requires Descending(envs) && HandlerPath(envs, path)
    ensures FindHandler(envs, path[0]) == Some(path[|path| - 1])
    decreases |path|
  {
    if |path| > 1 {
      var rest := path[1..];
      forall i | 0 <= i < |rest| - 1 ensures !envs[rest[i]].handler && envs[rest[i]].parent == Some(rest[i + 1]) {
        assert rest[i] == path[i + 1] && rest[i + 1] == path[i + 2];
      }
      NearestFound(envs, rest);
      assert envs[path[0]].parent == Some(path[1]);
    }
  }

  /** Handlers and parents are all that counts. */
  lemma SamePath(envs: seq<Env>, envs': seq<Env>, path: seq<nat>)
    requires HandlerPath(envs, path) && |envs| <= |envs'|
    requires forall i :: 0 <= i < |envs| ==> envs'[i].handler == envs[i].handler && envs'[i].parent == envs[i].parent
    ensures HandlerPath(envs', path)
  {
  }

  // ---------- raising ----------

  /** A list of the given values, the last one first. */
  ghost predicate Listed(l: Value, vs: seq<Value>) {
    if vs == [] then l == Empty else l.Pair? && l.car == vs[|vs| - 1] && Listed(l.cdr, vs[..|vs| - 1])
  }

  lemma {:induction false} ListsAll(vs: seq<Value>, done: seq<Value>, acc: Value)
    requires Listed(acc, done)
    ensures Listed(ListOnto(vs, acc), done + vs)
    decreases |vs|
  {
    if vs == [] {
      assert done + vs == done;
    } else {
      assert (done + [vs[0]])[..|done|] == done;
      ListsAll(vs[1..], done + [vs[0]], Pair(vs[0], acc));
      assert done + [vs[0]] + vs[1..] == done + vs;
    }
  }

  /** The exception of a raise in s: the message, then a closure of the raising record, then the
      objects. */
  ghost predicate Exception(v: Value, s: State, u: State, msg: string, objs: seq<Value>)
    requires s.Ok()
  {
    && v.Pair? && v.car == Str(msg) && v.cdr.Pair? && Listed(v.cdr.cdr, objs)
    && v.cdr.car.Closure? && |s.envs| <= v.cdr.car.env < |u.envs| && u.envs[v.cdr.car.env] == s.envs[s.cur]
  }

  /** From s to u: the handler of record h goes on with the exception on the stack. */
  ghost predicate Handles(s: State, u: State, h: nat, msg: string, objs: seq<Value>) {
    && s.Ok() && u.Ok() && h < |s.envs| < |u.envs| && u.cur >= |s.envs| && u.tables == s.tables
    && (forall i :: 0 <= i < |s.envs| ==> u.envs[i] == s.envs[i])
    && u.envs[u.cur].table == s.envs[h].table && u.envs[u.cur].parent == s.envs[h].parent
    && u.Ip() == s.envs[h].handlerAddr && !u.envs[u.cur].handler
    && u.envs[u.cur].handlerAddr == s.envs[h].handlerAddr
    && u.stack.On? && u.stack.rest == s.stack && Exception(u.stack.top, s, u, msg, objs)
  }

  /** Raising resumes at the nearest enabled handler, and is a failed assertion if and only if there
      is none. */
  lemma Raises(s: State, msg: string, objs: seq<Value>)
    requires s.Ok() && Descending(s.envs)
    ensures Throw(s, msg, objs).Next? <==> exists h :: Nearest(s.envs, s.cur, h)
    ensures Throw(s, msg, objs).Abort? <==> !exists h :: Nearest(s.envs, s.cur, h)
    ensures forall h :: Nearest(s.envs, s.cur, h) ==>
      Throw(s, msg, objs).Next? && Handles(s, Throw(s, msg, objs).s, h, msg, objs)
  {
    var envs := s.envs + [s.envs[s.cur]];
    var found := FindHandler(envs, s.cur);
    FoundNearest(envs, s.cur);
    if found.Some? { NearestBefore(s, found.value); }
    forall h | Nearest(s.envs, s.cur, h)
      ensures Throw(s, msg, objs).Next? && Handles(s, Throw(s, msg, objs).s, h, msg, objs)
    {
      var path :| PathTo(s.envs, path, s.cur, h);
      SamePath(s.envs, envs, path);
      NearestFound(envs, path);
      RaiseHandled(s, h, msg, objs);
    }
  }

  /** The copy of the raising record is on nobody's path. */
  lemma NearestBefore(s: State, h: nat)
    requires s.Ok() && Descending(s.envs) && Nearest(s.envs + [s.envs[s.cur]], s.cur, h)
    ensures Nearest(s.envs, s.cur, h)
  {
    var envs := s.envs + [s.envs[s.cur]];
    var path :| PathTo(envs, path, s.cur, h);
    PathBelow(s, path, |path|);
    assert PathTo(s.envs, path, s.cur, h);
  }

  lemma {:induction false} PathBelow(s: State, path: seq<nat>, n: nat)
    requires s.Ok() && Descending(s.envs) && HandlerPath(s.envs + [s.envs[s.cur]], path)
    requires path[0] == s.cur && n <= |path|
    ensures forall i :: 0 <= i < n ==> path[i] < |s.envs|
    decreases n
  {
    if n > 1 {
      PathBelow(s, path, n - 1);
      assert s.envs[path[n - 2]].parent == Some(path[n - 2 + 1]);
    }
  }

  lemma RaiseHandled(s: State, h: nat, msg: string, objs: seq<Value>)
    requires s.Ok() && h < |s.envs| && FindHandler(s.envs + [s.envs[s.cur]], s.cur) == Some(h)
    ensures Throw(s, msg, objs).Next? && Handles(s, Throw(s, msg, objs).s, h, msg, objs)
  {
    hide Listed, ListOnto, FindHandler;
    ListedObjects(objs);
    var copy := s.envs + [s.envs[s.cur]];
    var u := Throw(s, msg, objs).s;
    assert u.envs == copy + [copy[h].(handler := false, ip := copy[h].handlerAddr)];
    assert u.stack == On(Pair(Str(msg), Pair(Closure(|s.envs|), ListOnto(objs, Empty))), s.stack);
  }

  lemma ListedObjects(objs: seq<Value>)
    ensures Listed(ListOnto(objs, Empty), objs)
  {
    ListsAll(objs, [], Empty);
    assert [] + objs == objs;
  }

  // ---------- when an instruction raises ----------

  /** Instruction op finds operands it cannot work on: objs go into the exception, and k is the
      stack below all it has popped. */
  ghost predicate Faulty(op: Op, s: State, k: Stack, objs: seq<Value>) {
    && s.stack.On?
    && var a := s.stack.top;
      match op
      case Car | Cdr => !a.Pair? && k == s.stack.rest && objs == [a]
      case Read => !Bound(s, a) && k == s.stack.rest && objs == [a]
      case Ret | Jin | CallIn | TailCallIn => !a.Closure? && k == s.stack.rest && objs == [a]
      case Math(_) =>
        && s.stack.rest.On? && k == s.stack.rest.rest && objs == [s.stack.rest.top, a]
        && !(a.Fixnum? && s.stack.rest.top.Fixnum?)
      case Bind => s.stack.rest.On? && !a.Symbol? && k == s.stack.rest.rest && objs == [a, s.stack.rest.top]
      case Set => s.stack.rest.On? && !Bound(s, a) && k == s.stack.rest.rest && objs == [a, s.stack.rest.top]
      case Adopt =>
        && s.stack.rest.On? && k == s.stack.rest.rest
        && (if a.Closure? then !s.stack.rest.top.Closure? && objs == [s.stack.rest.top] else objs == [a])
      case _ => false
  }

  /** A symbol some table up the parents binds. */
  ghost predicate Bound(s: State, a: Value) { a.Symbol? && Lookup(s.envs, s.tables, s.cur, a.name).Some? }

  /** Fewer operands than the instruction takes before it can tell that one of them is wrong. */
  ghost predicate Short(op: Op, s: State) {
    var k := s.stack;
    match op
    case GetDepth | Restore => false
    case Drop | Dup | Not | IsEmpty | Car | Cdr | Read | Ret | Jin | CallIn => k.Bottom?
    case TailCallIn =>
      k.Bottom? || (k.top.Closure? && k.top.env < |s.envs| && (k.rest.Bottom? || k.rest.rest.Bottom?))
    case Rot => k.Bottom? || k.rest.Bottom? || k.rest.rest.Bottom?
    case _ => k.Bottom? || k.rest.Bottom?
  }

  /** A wrong operand makes the instruction raise. */
  lemma FaultRaises(op: Op, next: int, s: State, k: Stack, objs: seq<Value>) returns (msg: string)
    requires s.Ok() && Faulty(op, s, k, objs)
    ensures Exec(Plain(op), next, s) == Throw(SetIp(s, next).(stack := k), msg, objs)
  {
    hide Throw;
    if s.stack.top.Symbol? { LookupIp(s.envs, SetIp(s, next).envs, s.tables, s.cur, s.stack.top.name); }
    match op
    case Car => msg := "Attempt to read the car of a non-pair";
    case Cdr => msg := "Attempt to read the cdr of a non-pair";
    case Read =>
      msg := if s.stack.top.Symbol? then "Attempt to read undefined symbol" else "Attempt to read with non-symbol";
    case Ret | Jin | CallIn | TailCallIn => msg := "Attempt to jump to non-closure";
    case Math(m) =>
      msg := if m.NumEq? || m.NumLt? || m.NumGt? then "Attempt to compare with non-number\n"
             else "Attempt to calculate with non-number\n";
    case Bind => msg := "Attempt to bind with non-symbol";
    case Set =>
      msg := if s.stack.top.Symbol? then "Attempt to set undefined symbol" else "Attempt to set with non-symbol";
    case Adopt =>
      msg := if s.stack.top.Closure? then "Attempt to adopt non-closure" else "Attempt to adopt with non-closure";
  }

  ghost predicate IsFaulty(op: Op, s: State) { exists k, objs :: Faulty(op, s, k, objs) }

  /** The fault of an instruction, if it has one. */
  lemma FaultThere(op: Op, s: State, k: Stack, objs: seq<Value>)
    requires Faulty(op, s, k, objs)
    ensures IsFaulty(op, s) && !Short(op, s)
  {
  }

  lemma SoundOne(op: Op, next: int, s: State)
    requires s.Ok() && !IsFaulty(op, s) && op in {Car, Cdr, Read, Ret, Jin, CallIn, TailCallIn}
    ensures Exec(Plain(op), next, s).Abort? <==> Short(op, s)
  {
    hide Throw, IsFaulty, Lookup;
    if s.stack.On? {
      var a, k := s.stack.top, s.stack.rest;
      if a.Symbol? { LookupIp(s.envs, SetIp(s, next).envs, s.tables, s.cur, a.name); }
      if Faulty(op, s, k, [a]) { FaultThere(op, s, k, [a]); }
      assert Exec(Plain(op), next, s) == ExecOne(op, a, SetIp(s, next).(stack := k));
    }
  }

  lemma SoundTwo(op: Op, next: int, s: State)
    requires s.Ok() && !IsFaulty(op, s) && (op.Math? || op in {Bind, Set, Adopt})
    ensures Exec(Plain(op), next, s).Abort? <==> Short(op, s)
  {
    hide Throw, IsFaulty, Arith;
    if s.stack.On? && s.stack.rest.On? {
      var a, b, k := s.stack.top, s.stack.rest.top, s.stack.rest.rest;
      if a.Symbol? { LookupIp(s.envs, SetIp(s, next).envs, s.tables, s.cur, a.name); }
      forall objs | Faulty(op, s, k, objs) ensures false { FaultThere(op, s, k, objs); }
      TwoFaults(op, s);
    }
  }

  lemma TwoFaults(op: Op, s: State)
    requires s.Ok() && s.stack.On? && s.stack.rest.On? && forall objs :: !Faulty(op, s, s.stack.rest.rest, objs)
    ensures op.Math? ==> s.stack.top.Fixnum? && s.stack.rest.top.Fixnum?
    ensures op == Bind ==> s.stack.top.Symbol?
    ensures op == Set ==> Bound(s, s.stack.top)
    ensures op == Adopt ==> s.stack.top.Closure? && s.stack.rest.top.Closure?
  {
    var a, b, k := s.stack.top, s.stack.rest.top, s.stack.rest.rest;
    assert !Faulty(op, s, k, [a, b]) && !Faulty(op, s, k, [b, a]) && !Faulty(op, s, k, [a]) && !Faulty(op, s, k, [b]);
  }

  lemma SoundRest(op: Op, next: int, s: State)
    requires s.Ok() && !op.Math? && op in {Cons, Swap, Rot, Not, IsEmpty, Dup, Drop, GetDepth, Restore}
    ensures Exec(Plain(op), next, s).Abort? <==> Short(op, s)
  {
  }

  /** The machine's assertion fails at an instruction if and only if the instruction lacks operands,
      or has a wrong one and there is no handler for it. */
  lemma AbortExactly(op: Op, next: int, s: State)
    requires s.Ok() && Descending(s.envs)
    ensures Exec(Plain(op), next, s).Abort?
      <==> Short(op, s) || (IsFaulty(op, s) && !exists h :: Nearest(s.envs, s.cur, h))
  {
    hide Exec, Short, Faulty, Throw, Nearest;
    if IsFaulty(op, s) {
      var k, objs :| Faulty(op, s, k, objs);
      FaultThere(op, s, k, objs);
      var msg := FaultRaises(op, next, s, k, objs);
      RaisesAt(next, s, k, msg, objs);
    } else if op.Math? || op in {Bind, Set, Adopt} {
      SoundTwo(op, next, s);
    } else if op in {Car, Cdr, Read, Ret, Jin, CallIn, TailCallIn} {
      SoundOne(op, next, s);
    } else {
      SoundRest(op, next, s);
    }
  }

  /** Raising with the instruction pointer moved on and operands popped. */
  lemma RaisesAt(next: int, s: State, k: Stack, msg: string, objs: seq<Value>)
    requires s.Ok() && Descending(s.envs)
    ensures var s1 := SetIp(s, next).(stack := k); var o := Throw(s1, msg, objs);
      && (o.Abort? <==> !exists h :: Nearest(s.envs, s.cur, h))
      && (forall h :: Nearest(s.envs, s.cur, h) ==> o.Next? && Handles(s1, o.s, h, msg, objs))
  {
    hide Throw, Nearest;
    var s1 := SetIp(s, next).(stack := k);
    forall h ensures Nearest(s.envs, s.cur, h) <==> Nearest(s1.envs, s1.cur, h) { NearestIp(s, next, h); }
    Raises(s1, msg, objs);
  }

  lemma NearestIp(s: State, next: int, h: nat)
    requires s.Ok()
    ensures Nearest(s.envs, s.cur, h) <==> Nearest(SetIp(s, next).envs, s.cur, h)
  {
    var envs := SetIp(s, next).envs;
    if Nearest(s.envs, s.cur, h) {
      var path :| PathTo(s.envs, path, s.cur, h);
      SamePath(s.envs, envs, path);
      assert PathTo(envs, path, s.cur, h);
    }
    if Nearest(envs, s.cur, h) {
      var path :| PathTo(envs, path, s.cur, h);
      SamePath(envs, s.envs, path);
      assert PathTo(s.envs, path, s.cur, h);
    }
  }

  // ---------- handlers over runs ----------

  /** Record e is d, with its handler enabled and wherever its instruction pointer may be. */
  ghost predicate Armed(envs: seq<Env>, e: nat, d: Env) {
    e < |envs| && d.handler && envs[e].(ip := d.ip) == d
  }

  /** What an instruction other than `continue` leaves of the handler of the current record. */
  ghost predicate HandlerStays(s: State, o: Outcome) {
    forall d :: s.Ok() && o.Next? && Armed(s.envs, s.cur, d) ==> Armed(o.s.envs, s.cur, d)
  }

  lemma ThrowStays(s: State, msg: string, objs: seq<Value>)
    requires s.Ok()
    ensures HandlerStays(s, Throw(s, msg, objs))
  {
  }

  lemma OneStays(op: Op, a: Value, s: State)
    requires s.Ok()
    ensures HandlerStays(s, ExecOne(op, a, s))
  {
    hide Throw, ExecTwo, Lookup;
    match op
    case Car => ThrowStays(s, "Attempt to read the car of a non-pair", [a]);
    case Cdr => ThrowStays(s, "Attempt to read the cdr of a non-pair", [a]);
    case Read =>
      ThrowStays(s, "Attempt to read with non-symbol", [a]);
      ThrowStays(s, "Attempt to read undefined symbol", [a]);
    case Ret | Jin | CallIn | TailCallIn => ThrowStays(s, "Attempt to jump to non-closure", [a]);
    case Drop | Dup | Not | IsEmpty =>
    case _ => if s.stack.On? { TwoStays(op, a, s.stack.top, s.(stack := s.stack.rest)); }
  }

  lemma TwoStays(op: Op, a: Value, b: Value, s: State)
    requires s.Ok()
    ensures HandlerStays(s, ExecTwo(op, a, b, s))
  {
    hide Throw, Arith, Lookup;
    match op
    case Math(m) =>
      ThrowStays(s, if m.NumEq? || m.NumLt? || m.NumGt? then "Attempt to compare with non-number\n"
                    else "Attempt to calculate with non-number\n", [b, a]);
    case Bind => ThrowStays(s, "Attempt to bind with non-symbol", [a, b]);
    case Set =>
      ThrowStays(s, "Attempt to set with non-symbol", [a, b]);
      ThrowStays(s, "Attempt to set undefined symbol", [a, b]);
    case Adopt =>
      ThrowStays(s, "Attempt to adopt with non-closure", [a]);
      ThrowStays(s, "Attempt to adopt non-closure", [b]);
    case _ =>
  }

  /** No instruction but `continue` moves or disables the handler of the record it runs in. */
  lemma ExecStays(i: Instr<int>, next: int, s: State)
    requires s.Ok() && !(i.Jump? && i.kind == Continue)
    ensures HandlerStays(s, Exec(i, next, s))
  {
    hide ExecOne;
    var s1 := SetIp(s, next);
    if i.Plain? && s.stack.On? { OneStays(i.op, s.stack.top, s1.(stack := s.stack.rest)); }
  }

  /** About to execute `continue` in record e. */
  ghost predicate Rearms(code: seq<Item>, s: State, e: nat) {
    s.Ok() && 0 <= s.Ip() < |code| && s.cur == e && code[s.Ip()].Ins? && code[s.Ip()].i.Jump?
    && code[s.Ip()].i.kind == Continue
  }

  lemma StepArmed(code: seq<Item>, s: State, e: nat, d: Env)
    requires Frames.Inv(s) && 0 <= s.Ip() < |code| && Armed(s.envs, e, d) && !Rearms(code, s, e)
    ensures Step(code, s).Next? ==> Armed(Step(code, s).s.envs, e, d) && Frames.Inv(Step(code, s).s)
  {
    hide Exec;
    Continuations.StepInv(code, s);
    if s.cur == e && code[s.Ip()].Ins? { ExecStays(Resolve(code, code[s.Ip()].i), s.Ip() + 1, s); }
  }

  /** None of the first n steps is another `continue` in record e. */
  ghost predicate NotRearmed(code: seq<Item>, s: State, n: nat, e: nat)
    decreases n
  {
    n == 0 || (!Rearms(code, s, e)
      && (Stepper(code)(s).Some? ==> NotRearmed(code, Stepper(code)(s).value, n - 1, e)))
  }

  lemma {:induction false} RunArmed(code: seq<Item>, s: State, n: nat, t: State, e: nat, d: Env)
    requires Frames.Inv(s) && Armed(s.envs, e, d) && Iterate(Stepper(code), s, n) == Some(t)
    requires NotRearmed(code, s, n, e)
    ensures Frames.Inv(t) && Armed(t.envs, e, d)
    decreases n
  {
    hide Frames.Inv, Armed, Step, Rearms;
    if n > 0 {
      StepArmed(code, s, e, d);
      RunArmed(code, Stepper(code)(s).value, n - 1, t, e, d);
    }
  }

  /** `continue l` enables the handler of the current record at l. */
  lemma ContinueArms(code: seq<Item>, s: State)
    requires s.Ok() && Rearms(code, s, s.cur)
    ensures Step(code, s).Next? && Armed(Step(code, s).s.envs, s.cur, Arming(code, s))
  {
  }

  /** The record that `continue` leaves. */
  ghost function Arming(code: seq<Item>, s: State): Env
    requires Rearms(code, s, s.cur)
  {
    s.envs[s.cur].(handler := true, handlerAddr := LabelPos(code, code[s.Ip()].i.target))
  }

  /** `restore` enables it again at the address it had. */
  lemma RestoreArms(code: seq<Item>, s: State)
    requires s.Ok() && 0 <= s.Ip() < |code| && code[s.Ip()] == Emit.Do(Restore)
    ensures Step(code, s).Next? && Armed(Step(code, s).s.envs, s.cur, s.envs[s.cur].(handler := true))
  {
  }

  /** Once the handler of record e has been enabled, then after any run without another `continue`
      in e, an instruction with a wrong operand whose nearest enabled handler is e goes on at the
      handler address, in the bindings of e, with the handler disabled and the exception on the
      stack. */
  lemma Catches(code: seq<Item>, s: State, n: nat, t: State, e: nat, d: Env, op: Op, k: Stack, objs: seq<Value>)
    returns (u: State, msg: string)
    requires Frames.Inv(s) && Armed(s.envs, e, d) && Iterate(Stepper(code), s, n) == Some(t)
    requires NotRearmed(code, s, n, e)
    requires t.Ok() && 0 <= t.Ip() < |code| && code[t.Ip()] == Emit.Do(op) && Faulty(op, t, k, objs)
    requires Nearest(t.envs, t.cur, e)
    ensures Step(code, t) == Next(u) && u.Ok() && u.envs[u.cur] == d.(handler := false, ip := d.handlerAddr)
    ensures Handles(SetIp(t, t.Ip() + 1).(stack := k), u, e, msg, objs)
  {
    hide Exec, Throw, Faulty, Nearest, Frames.Inv;
    RunArmed(code, s, n, t, e, d);
    InvDescending(t);
    msg := FaultRaises(op, t.Ip() + 1, t, k, objs);
    RaisesAt(t.Ip() + 1, t, k, msg, objs);
    u := Step(code, t).s;
  }

  /** `continue l`, any run, and a fault with no nearer handler: the next address is that of l. */
  lemma ContinueCatches(code: seq<Item>, s: State, n: nat, t: State, op: Op, k: Stack, objs: seq<Value>)
    returns (u: State, msg: string)
    requires Frames.Inv(s) && Rearms(code, s, s.cur)
    requires var s1 := Step(code, s).s; Iterate(Stepper(code), s1, n) == Some(t) && NotRearmed(code, s1, n, s.cur)
    requires t.Ok() && 0 <= t.Ip() < |code| && code[t.Ip()] == Emit.Do(op) && Faulty(op, t, k, objs)
    requires Nearest(t.envs, t.cur, s.cur)
    ensures Step(code, t) == Next(u) && u.Ok() && u.Ip() == LabelPos(code, code[s.Ip()].i.target)
    ensures u.envs[u.cur].table == s.envs[s.cur].table && u.envs[u.cur].parent == s.envs[s.cur].parent
    ensures !u.envs[u.cur].handler
    ensures Handles(SetIp(t, t.Ip() + 1).(stack := k), u, s.cur, msg, objs)
  {
    hide Exec, Faulty, Nearest, Frames.Inv;
    ContinueArms(code, s);
    Continuations.StepInv(code, s);
    var s1 := Step(code, s).s;
    u, msg := Catches(code, s1, n, t, s.cur, Arming(code, s), op, k, objs);
  }
}
