/** Control-flow integrity of assembled code: whatever the program does, the instruction pointer,
    every saved one and every handler address are starts of instructions or the end of the code. */
module ControlFlow {
  import opened Machine
  import opened Runs
  import opened Code
  import opened Bytes
  import opened Assembler
  import opened ByteMachine

  ghost predicate Within(e: Env, n: nat) { 0 <= e.ip <= n && 0 <= e.handlerAddr <= n }

  ghost predicate InRange(s: State, n: nat) {
    s.Ok() && forall i :: 0 <= i < |s.envs| ==> Within(s.envs[i], n)
  }

  ghost predicate OutInRange(r: Outcome, n: nat) { r.Next? ==> InRange(r.s, n) }

  // ---------- instructions only copy addresses ----------

  lemma ThrowRange(s: State, msg: string, objs: seq<Value>, n: nat)
    requires InRange(s, n)
    ensures OutInRange(Throw(s, msg, objs), n)
  {
    hide ListOnto, FindHandler;
  }

  lemma JumpRange(k: JumpKind, t: int, s: State, n: nat)
    requires InRange(s, n) && 0 <= t <= n
    ensures OutInRange(ExecJump(k, t, s), n)
  {
  }

  lemma ReadRange(a: Value, s: State, n: nat)
    requires InRange(s, n)
    ensures OutInRange(ExecRead(a, s), n)
  {
    hide Throw;
    ThrowRange(s, "Attempt to read with non-symbol", [a], n);
    ThrowRange(s, "Attempt to read undefined symbol", [a], n);
  }

  lemma TransferRange(op: Op, a: Value, s: State, n: nat)
    requires InRange(s, n)
    ensures OutInRange(ExecTransfer(op, a, s), n)
  {
    hide Throw;
    ThrowRange(s, "Attempt to jump to non-closure", [a], n);
  }

  lemma TwoRange(op: Op, a: Value, b: Value, s: State, n: nat)
    requires InRange(s, n)
    ensures OutInRange(ExecTwo(op, a, b, s), n)
  {
    hide Throw, Lookup;
    match op
    case Math(m) =>
      ThrowRange(s, if m.NumEq? || m.NumLt? || m.NumGt? then "Attempt to compare with non-number\n"
                    else "Attempt to calculate with non-number\n", [b, a], n);
    case Bind => ThrowRange(s, "Attempt to bind with non-symbol", [a, b], n);
    case Set =>
      ThrowRange(s, "Attempt to set with non-symbol", [a, b], n);
      ThrowRange(s, "Attempt to set undefined symbol", [a, b], n);
    case Adopt =>
      ThrowRange(s, "Attempt to adopt with non-closure", [a], n);
      ThrowRange(s, "Attempt to adopt non-closure", [b], n);
    case _ =>
  }

  lemma OneRange(op: Op, a: Value, s: State, n: nat)
    requires InRange(s, n)
    ensures OutInRange(ExecOne(op, a, s), n)
  {
    hide Throw, ExecTwo, ExecTransfer, ExecRead;
    match op
    case Car => ThrowRange(s, "Attempt to read the car of a non-pair", [a], n);
    case Cdr => ThrowRange(s, "Attempt to read the cdr of a non-pair", [a], n);
    case Read => ReadRange(a, s, n);
    case Ret | Jin | CallIn | TailCallIn => TransferRange(op, a, s, n);
    case Drop | Dup | Not | IsEmpty =>
    case _ => if s.stack.On? { TwoRange(op, a, s.stack.top, s.(stack := s.stack.rest), n); }
  }

  lemma ExecRange(i: Instr<int>, next: int, s: State, n: nat)
    requires InRange(s, n) && 0 <= next <= n && (i.Jump? ==> 0 <= i.target <= n)
    ensures OutInRange(Exec(i, next, s), n)
  {
    hide ExecOne, ExecJump;
    var s1 := SetIp(s, next);
    assert InRange(s1, n);
    match i
    case Literal(_) =>
    case Jump(k, t) => JumpRange(k, t, s1, n);
    case Plain(op) => if s1.stack.On? { OneRange(op, s1.stack.top, s1.(stack := s1.stack.rest), n); }
  }

  // ---------- back from bytes to labelled code ----------

  /** Labels take no space, so skipping them does not change the byte state. */
  lemma {:induction false} SkipMarks(code: seq<Item>, s: State) returns (t: State)
    requires InRange(s, |code|)
    ensures InRange(t, |code|) && OnBytes(code, t) == OnBytes(code, s)
    ensures t.Ip() == |code| || code[t.Ip()].Ins?
    ensures Reaches(code, s, t)
    decreases |code| - s.Ip()
  {
    t := s;
    ReachesRefl(code, s);
    if s.Ip() < |code| && code[s.Ip()].Mark? {
      MarkMap(code, s);
      var s1 := SetIp(s, s.Ip() + 1);
      ReachesStep(code, s, s1);
      hide Reaches;
      t := SkipMarks(code, s1);
      ReachesTrans(code, s, s1, t);
    }
  }

  lemma StepBack(code: seq<Item>, s: State, u: State) returns (t: State)
    requires Assemblable(code) && InRange(s, |code|) && ByteStepper(Assembled(code))(OnBytes(code, s)) == Some(u)
    ensures InRange(t, |code|) && u == OnBytes(code, t) && Reaches(code, s, t)
  {
    hide Exec, Decode, Assembled, ByteStep, Reaches;
    var s1 := SkipMarks(code, s);
    StepOrEnd(code, s1);
    var i := code[s1.Ip()].i;
    StepOnBytes(code, s1);
    TargetInRange(code, s1.Ip());
    ExecRange(Resolve(code, i), s1.Ip() + 1, s1, |code|);
    t := Step(code, s1).s;
    ReachesStep(code, s1, t);
    ReachesTrans(code, s, s1, t);
  }

  lemma StepOrEnd(code: seq<Item>, s: State)
    requires AllEncodable(code) && InRange(s, |code|) && OnBytes(code, s).Ip() < |Assembled(code)|
    ensures s.Ip() < |code|
  {
  }

  lemma TargetInRange(code: seq<Item>, i: nat)
    requires Assemblable(code) && i < |code| && code[i].Ins?
    ensures var r := Resolve(code, code[i].i); r.Jump? ==> 0 <= r.target <= |code|
  {
    if code[i].i.Jump? {
      var l := code[i].i.target;
      LabelPosLast(code, l);
      var j :| 0 <= j < |code| && code[j] == Mark(l);
    }
  }

  lemma {:induction false} RunBack(code: seq<Item>, s: State, n: nat, u: State) returns (t: State)
    requires Assemblable(code) && InRange(s, |code|)
      && Iterate(ByteStepper(Assembled(code)), OnBytes(code, s), n) == Some(u)
    ensures InRange(t, |code|) && u == OnBytes(code, t) && Reaches(code, s, t)
    decreases n
  {
    hide Exec, Decode, Assembled, ByteStepper, InRange, AllDefined, Addr, Reaches;
    t := s;
    ReachesRefl(code, s);
    if n > 0 {
      var u1 := ByteStepper(Assembled(code))(OnBytes(code, s)).value;
      var t1 := StepBack(code, s, u1);
      t := RunBack(code, t1, n - 1, u);
      ReachesTrans(code, s, t1, t);
    }
  }

  /** An address where some item starts, or the end of the code: never inside an operand. */
  ghost predicate Boundary(code: seq<Item>, a: int) {
    exists i :: 0 <= i <= |code| && a == Addr(code, i)
  }

  ghost predicate OnBoundaries(code: seq<Item>, s: State) {
    forall e :: 0 <= e < |s.envs| ==> Boundary(code, s.envs[e].ip) && Boundary(code, s.envs[e].handlerAddr)
  }

  /** From any start on boundaries, every state of every run of the assembled bytes has all its
      addresses on boundaries: the current ip, those of captured records and parents, and the
      handler addresses. */
  lemma ControlFlowIntegrity(code: seq<Item>, s: State, u: State)
    requires Assemblable(code) && InRange(s, |code|) && ByteReaches(Assembled(code), OnBytes(code, s), u)
    ensures OnBoundaries(code, u)
  {
    hide Exec, Decode, Assembled, ByteStepper, AllDefined, Addr;
    var n: nat :| Iterate(ByteStepper(Assembled(code)), OnBytes(code, s), n) == Some(u);
    var t := RunBack(code, s, n, u);
    forall e | 0 <= e < |u.envs| ensures Boundary(code, u.envs[e].ip) && Boundary(code, u.envs[e].handlerAddr) {
      assert Within(t.envs[e], |code|);
      assert u.envs[e] == OnBytesEnv(code, t.envs[e]);
    }
  }
}
