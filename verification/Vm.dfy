/** The virtual machine object.  Its methods change the stack, the environment records and the
    binding tables in place, one per instruction, and are held to the step function. */
module Vm {
  import opened Machine
  import opened Runs
  import opened Bytes
  import opened Assembler
  import opened ByteMachine

  datatype Status = Running | Aborted | Wild

  class Vm {
    var stack: Stack
    var depth: nat
    var envs: seq<Env>
    var tables: seq<Table>
    var env: nat

    ghost function Snap(): State
      reads this
    {
      State(stack, envs, tables, env)
    }

    /** The depth counter is right, and every record has a table and an older parent. */
    ghost predicate Valid()
      reads this
    {
      && env < |envs| && depth == Depth(stack)
      && forall i :: 0 <= i < |envs| ==> Linked(envs[i], i, |tables|)
    }

    ghost predicate Is(r: Status, o: Outcome)
      reads this
    {
      match r
      case Running => Valid() && o == Next(Snap())
      case Aborted => o.Abort?
      case Wild => o.Undefined?
    }

    constructor ()
      ensures Valid() && Snap() == Start()
    {
      stack, depth := Bottom, 0;
      envs, tables, env := [Env(0, 0, false, 0, None)], [map[]], 0;
    }

    // ---------- the stack ----------

    method VmPush(v: Value)
      requires Valid()
      modifies this`stack, this`depth
      ensures Valid() && Snap() == Push(old(Snap()), v)
    {
      stack := On(v, stack);
      depth := depth + 1;
    }

    method VmPop() returns (r: Status, v: Value)
      requires Valid()
      modifies this`stack, this`depth
      ensures Valid()
      ensures r == if old(stack).On? then Running else Aborted
      ensures r == Running ==> On(v, stack) == old(stack)
    {
      v := Empty;
      if stack.Bottom? { return Aborted, v; }
      v := stack.top;
      stack := stack.rest;
      depth := depth - 1;
      r := Running;
    }

    // ---------- environments ----------

    method PushChild()
      requires Valid()
      modifies this`envs, this`tables, this`env
      ensures Valid() && Snap() == PushEnv(old(Snap()))
    {
      tables := tables + [map[]];
      envs := envs + [Env(envs[env].ip, |tables| - 1, false, 0, Some(env))];
      env := |envs| - 1;
    }

    /** clone_env into the current environment. */
    method Clone(e: Env)
      requires Valid() && Linked(e, |envs|, |tables|)
      modifies this`envs, this`env
      ensures Valid() && Snap() == Enter(old(Snap()), e)
    {
      envs := envs + [e];
      env := |envs| - 1;
    }

    method JumpTo(ip: int)
      requires Valid()
      modifies this`envs
      ensures Valid() && Snap() == SetIp(old(Snap()), ip)
    {
      envs := envs[env := envs[env].(ip := ip)];
    }

    // ---------- exceptions ----------

    /** handle_exception for an exception that is not fatal. */
    method HandleException(msg: string, objs: seq<Value>) returns (r: Status)
      requires Valid()
      modifies this
      ensures Is(r, Throw(old(Snap()), msg, objs))
    {
      var exception := Empty;
      for i := 0 to |objs|
        invariant ListOnto(objs[i..], exception) == ListOnto(objs, Empty)
      {
        assert objs[i..][0] == objs[i] && objs[i..][1..] == objs[i + 1..];
        exception := Pair(objs[i], exception);
      }
      hide ListOnto;
      var here := |envs|;
      envs := envs + [envs[env]];
      VmPush(Pair(Str(msg), Pair(Closure(here), exception)));
      var e := FindFrom(env);
      if e.Some? {
        Clone(envs[e.value].(handler := false, ip := envs[e.value].handlerAddr));
        r := Running;
      } else {
        r := Aborted;
      }
    }

    /** The search for an enabled handler up the parents. */
    method FindFrom(from: nat) returns (e: Option<nat>)
      requires Valid() && from < |envs|
      ensures e == FindHandler(envs, from) && (e.Some? ==> e.value < |envs|)
    {
      e := Some(from);
      while e.Some? && !envs[e.value].handler
        invariant e.Some? ==> e.value < |envs|
        invariant FindHandler(envs, from) == if e.Some? then FindHandler(envs, e.value) else None
        decreases if e.Some? then e.value + 1 else 0
      {
        assert Linked(envs[e.value], e.value, |tables|);
        e := envs[e.value].parent;
      }
    }

    // ---------- bindings ----------

    /** The walk up the parents of op_read and op_set. */
    method FindTable(x: string) returns (t: Option<nat>)
      requires Valid()
      ensures t == Lookup(envs, tables, env, x) && (t.Some? ==> t.value < |tables| && x in tables[t.value])
    {
      var e: Option<nat> := Some(env);
      t := None;
      while e.Some? && t.None?
        invariant e.Some? ==> e.value < |envs|
        invariant t.Some? ==> t.value < |tables| && x in tables[t.value] && Lookup(envs, tables, env, x) == t
        invariant t.None? ==> Lookup(envs, tables, env, x) == if e.Some? then Lookup(envs, tables, e.value, x) else None
        decreases t.None?, if e.Some? then e.value + 1 else 0
      {
        assert Linked(envs[e.value], e.value, |tables|);
        if x in tables[envs[e.value].table] {
          t := Some(envs[e.value].table);
        } else {
          e := envs[e.value].parent;
        }
      }
    }

    method OpRead(key: Value) returns (r: Status)
      requires Valid()
      modifies this
      ensures Is(r, ExecRead(key, old(Snap())))
    {
      if !key.Symbol? { r := HandleException("Attempt to read with non-symbol", [key]); return; }
      var t := FindTable(key.name);
      if t.None? {
        r := HandleException("Attempt to read undefined symbol", [key]);
      } else {
        VmPush(tables[t.value][key.name]);
        r := Running;
      }
    }

    method OpBind(key: Value, v: Value) returns (r: Status)
      requires Valid()
      modifies this
      ensures Is(r, ExecTwo(Bind, key, v, old(Snap())))
    {
      if !key.Symbol? { r := HandleException("Attempt to bind with non-symbol", [key, v]); return; }
      assert Linked(envs[env], env, |tables|);
      var t := envs[env].table;
      tables := tables[t := tables[t][key.name := v]];
      r := Running;
    }

    method OpSet(key: Value, v: Value) returns (r: Status)
      requires Valid()
      modifies this
      ensures Is(r, ExecTwo(Set, key, v, old(Snap())))
    {
      if !key.Symbol? { r := HandleException("Attempt to set with non-symbol", [key, v]); return; }
      var t := FindTable(key.name);
      if t.None? {
        r := HandleException("Attempt to set undefined symbol", [key, v]);
      } else {
        tables := tables[t.value := tables[t.value][key.name := v]];
        r := Running;
      }
    }

    // ---------- jumps ----------

    method OpJump(k: JumpKind, target: int) returns (r: Status)
      requires Valid()
      modifies this
      ensures Is(r, ExecJump(k, target, old(Snap())))
    {
      r := Running;
      match k
      case Jmp => JumpTo(target);
      case Jnf =>
        var v;
        r, v := VmPop();
        if r == Running && v != Bool(false) { JumpTo(target); }
      case Call =>
        VmPush(Closure(env));
        PushChild();
        JumpTo(target);
      case Proc =>
        assert Linked(envs[env], env, |tables|);
        envs := envs + [envs[env].(ip := target)];
        VmPush(Closure(|envs| - 1));
      case Continue => envs := envs[env := envs[env].(handler := true, handlerAddr := target)];
    }

    method OpTransfer(op: Op, closure: Value) returns (r: Status)
      requires Valid() && (op == Ret || op == Jin || op == CallIn || op == TailCallIn)
      modifies this
      ensures Is(r, ExecTransfer(op, closure, old(Snap())))
    {
      if !closure.Closure? { r := HandleException("Attempt to jump to non-closure", [closure]); return; }
      if closure.env >= |envs| { return Wild; }
      r := Running;
      var target := envs[closure.env];
      assert Linked(target, closure.env, |tables|) && Linked(envs[env], env, |tables|);
      if op == Ret {
        Clone(target);
      } else if op == Jin {
        Clone(target.(table := envs[env].table, parent := envs[env].parent));
      } else if op == CallIn {
        VmPush(Closure(env));
        Clone(target);
        PushChild();
      } else {
        r := SwapTop();
        if r == Running {
          Clone(target);
          PushChild();
        }
      }
    }

    method SwapTop() returns (r: Status)
      requires Valid()
      modifies this`stack, this`depth
      ensures Valid() && r == if old(stack).On? && old(stack).rest.On? then Running else Aborted
      ensures r == Running ==> stack == On(old(stack).rest.top, On(old(stack).top, old(stack).rest.rest))
    {
      var a, b;
      r, a := VmPop();
      if r == Running {
        r, b := VmPop();
        if r == Running {
          VmPush(a);
          VmPush(b);
        }
      }
    }

    method OpAdopt(parent: Value, child: Value) returns (r: Status)
      requires Valid()
      modifies this
      ensures Is(r, ExecTwo(Adopt, parent, child, old(Snap())))
    {
      if !parent.Closure? { r := HandleException("Attempt to adopt with non-closure", [parent]); return; }
      if !child.Closure? { r := HandleException("Attempt to adopt non-closure", [child]); return; }
      if parent.env >= |envs| || child.env >= |envs| { return Wild; }
      assert Linked(envs[parent.env], parent.env, |tables|);
      envs := envs + [envs[child.env].(table := envs[parent.env].table, parent := envs[parent.env].parent)];
      VmPush(Closure(|envs| - 1));
      r := Running;
    }

    // ---------- the other instructions ----------

    method OpMath(m: MathOp, a: Value, b: Value) returns (r: Status)
      requires Valid()
      modifies this
      ensures Is(r, ExecTwo(Math(m), a, b, old(Snap())))
    {
      if !a.Fixnum? || !b.Fixnum? {
        r := HandleException(if m.NumEq? || m.NumLt? || m.NumGt? then "Attempt to compare with non-number\n"
                             else "Attempt to calculate with non-number\n", [b, a]);
        return;
      }
      hide Arith;
      var v := Arith(m, b.i, a.i);
      if v.None? { return Wild; }
      VmPush(v.value);
      r := Running;
    }

    method OpTwo(op: Op, a: Value) returns (r: Status)
      requires Valid() && (op in {Cons, Swap, Rot, Bind, Set, Adopt} || op.Math?)
      modifies this
      ensures Is(r, ExecOne(op, a, old(Snap())))
    {
      hide Throw, Lookup, Arith;
      var b;
      r, b := VmPop();
      if r != Running { return; }
      ghost var s := Snap();
      if op == Cons {
        VmPush(Pair(a, b));
      } else if op == Swap {
        VmPush(a);
        VmPush(b);
      } else if op == Rot {
        var c;
        r, c := VmPop();
        if r == Running {
          VmPush(a);
          VmPush(c);
          VmPush(b);
        }
      } else if op == Bind {
        r := OpBind(a, b);
      } else if op == Set {
        r := OpSet(a, b);
      } else if op == Adopt {
        r := OpAdopt(a, b);
      } else {
        r := OpMath(op.m, a, b);
      }
    }

    method OpOne(op: Op, a: Value) returns (r: Status)
      requires Valid() && op != GetDepth && op != Restore
      modifies this
      ensures Is(r, ExecOne(op, a, old(Snap())))
    {
      hide Throw, ExecRead, ExecTransfer, ExecTwo;
      r := Running;
      if op == Drop {
      } else if op == Dup {
        VmPush(a);
        VmPush(a);
      } else if op == Not {
        VmPush(Bool(a == Bool(false)));
      } else if op == IsEmpty {
        VmPush(Bool(a == Empty));
      } else if op == Car || op == Cdr {
        if a.Pair? {
          VmPush(if op == Car then a.car else a.cdr);
        } else {
          r := HandleException(if op == Car then "Attempt to read the car of a non-pair"
                               else "Attempt to read the cdr of a non-pair", [a]);
        }
      } else if op == Read {
        r := OpRead(a);
      } else if op == Ret || op == Jin || op == CallIn || op == TailCallIn {
        r := OpTransfer(op, a);
      } else {
        r := OpTwo(op, a);
      }
    }

    /** The instruction function called with the address already past the operands. */
    method Dispatch(i: Instr<int>, next: int) returns (r: Status)
      requires Valid()
      modifies this
      ensures Is(r, Exec(i, next, old(Snap())))
    {
      hide ExecOne, ExecJump;
      JumpTo(next);
      r := Running;
      match i
      case Literal(l) => VmPush(LitValue(l));
      case Jump(k, t) => r := OpJump(k, t);
      case Plain(op) =>
        if op == GetDepth {
          VmPush(Fixnum(depth));
        } else if op == Restore {
          envs := envs[env := envs[env].(handler := true)];
        } else {
          var a;
          r, a := VmPop();
          if r == Running { r := OpOne(op, a); }
        }
    }

    /** vm_eval for at most `limit` turns of its loop: the states it goes through are those of the
        step function, and it stops where that stops. */
    method Eval(bs: seq<Byte>, limit: nat) returns (r: Status, turns: nat)
      requires Valid() && envs[env].ip >= 0
      modifies this
      ensures turns <= limit
      ensures r == Running ==> Valid() && Iterate(ByteStepper(bs), old(Snap()), turns) == Some(Snap())
      ensures r == Running && turns < limit ==> !(0 <= envs[env].ip < |bs|)
      ensures r != Running ==> Iterate(ByteStepper(bs), old(Snap()), turns + 1) == None
    {
      hide ByteStep, Decode;
      turns, r := 0, Running;
      ghost var s0 := Snap();
      while turns < limit && 0 <= envs[env].ip < |bs|
        invariant Valid() && turns <= limit && r == Running && Iterate(ByteStepper(bs), s0, turns) == Some(Snap())
        decreases limit - turns
      {
        ghost var s := Snap();
        var d := Decode(bs, envs[env].ip);
        StepBy(bs, s0, turns, s);
        if d.Illegal? { return Aborted, turns; }
        r := Dispatch(d.i, d.next);
        if r != Running { return; }
        turns := turns + 1;
      }
    }
  }

  ghost predicate Linked(e: Env, i: nat, tables: nat) {
    e.table < tables && (e.parent.Some? ==> e.parent.value < i)
  }

  /** One more turn of the loop. */
  lemma StepBy(bs: seq<Byte>, s0: State, n: nat, s: State)
    requires Iterate(ByteStepper(bs), s0, n) == Some(s) && s.Ok() && 0 <= s.Ip() < |bs|
    ensures var o := match Decode(bs, s.Ip()) case Decoded(i, next) => Exec(i, next, s) case Illegal => Abort;
      Iterate(ByteStepper(bs), s0, n + 1) == if o.Next? then Some(o.s) else None
  {
    hide Exec, Decode;
    IteratePlus(ByteStepper(bs), s0, n, s, 1);
    assert Iterate(ByteStepper(bs), s, 1)
      == match ByteStepper(bs)(s) case None => None case Some(t) => Iterate(ByteStepper(bs), t, 0);
  }
}
