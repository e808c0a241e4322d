/** When a captured continuation is lost.

    A capture is two bindings of one table: the saved stack and the return.  A step loses it if and
    only if it is a `bind` or `set` that gives one of them another value, and a continuation can be
    invoked after any run without such a step.  `Continuations` shows that only a lent table can
    ever be written to like that. */
module Spoiling {
  import opened Machine
  import opened Runs
  import opened Code
  import opened Stages
  import opened CallCc
  import opened Continuations
  import Frames
  import Emit

  // ---------- what a step does to the tables ----------

  ghost predicate Extends(tables: seq<Table>, tables': seq<Table>) {
    |tables| <= |tables'| && forall i :: 0 <= i < |tables| ==> tables'[i] == tables[i]
  }

  ghost predicate ExtendsOut(tables: seq<Table>, o: Outcome) { o.Next? ==> Extends(tables, o.s.tables) }

  lemma ThrowTables(s: State, msg: string, objs: seq<Value>)
    requires s.Ok()
    ensures Throw(s, msg, objs).Next? ==> Throw(s, msg, objs).s.tables == s.tables
  {
  }

  lemma OneTables(op: Op, a: Value, s: State)
    requires s.Ok() && !op.Bind? && !op.Set?
    ensures ExtendsOut(s.tables, ExecOne(op, a, s))
  {
    hide Throw, ExecTwo, Arith;
    match op
    case Car => ThrowTables(s, "Attempt to read the car of a non-pair", [a]);
    case Cdr => ThrowTables(s, "Attempt to read the cdr of a non-pair", [a]);
    case Read =>
      ThrowTables(s, "Attempt to read with non-symbol", [a]);
      ThrowTables(s, "Attempt to read undefined symbol", [a]);
    case Ret | Jin | CallIn | TailCallIn => ThrowTables(s, "Attempt to jump to non-closure", [a]);
    case Drop | Dup | Not | IsEmpty =>
    case _ => RestTables(op, a, s);
  }

  lemma RestTables(op: Op, a: Value, s: State)
    requires s.Ok() && !op.Bind? && !op.Set?
    ensures s.stack.On? ==> ExtendsOut(s.tables, ExecTwo(op, a, s.stack.top, s.(stack := s.stack.rest)))
  {
    hide ExecTwo, Extends;
    if s.stack.On? { TwoTables(op, a, s.stack.top, s.(stack := s.stack.rest)); }
  }

  lemma TwoTables(op: Op, a: Value, b: Value, s: State)
    requires s.Ok() && !op.Bind? && !op.Set?
    ensures ExtendsOut(s.tables, ExecTwo(op, a, b, s))
  {
    hide Throw, Arith;
    match op
    case Math(m) =>
      ThrowTables(s, if m.NumEq? || m.NumLt? || m.NumGt? then "Attempt to compare with non-number\n"
                     else "Attempt to calculate with non-number\n", [b, a]);
    case Adopt =>
      ThrowTables(s, "Attempt to adopt with non-closure", [a]);
      ThrowTables(s, "Attempt to adopt non-closure", [b]);
    case _ =>
  }

  /** No instruction but bind and set changes a table. */
  lemma ExecTables(i: Instr<int>, next: int, s: State)
    requires s.Ok() && i != Plain(Bind) && i != Plain(Set)
    ensures ExtendsOut(s.tables, Exec(i, next, s))
  {
    hide ExecOne;
    var s1 := SetIp(s, next);
    if i.Plain? && s.stack.On? { OneTables(i.op, s.stack.top, s1.(stack := s.stack.rest)); }
  }

  /** The table a bind or set of x writes to. */
  ghost function Target(op: Op, s: State, x: string): Option<nat>
    requires s.Ok()
  {
    if op == Bind then Some(s.envs[s.cur].table) else Lookup(s.envs, s.tables, s.cur, x)
  }

  /** A bind or set changes one binding, or raises an exception and changes none. */
  lemma WriteTables(op: Op, next: int, s: State)
    requires s.Ok() && (op == Bind || op == Set)
    requires Exec(Plain(op), next, s).Next?
    ensures s.stack.On? && s.stack.rest.On?
    ensures var a, tables := s.stack.top, Exec(Plain(op), next, s).s.tables;
      && (a.Symbol? ==> tables == Written(s.tables, Target(op, s, a.name), a.name, s.stack.rest.top))
      && (!a.Symbol? ==> tables == s.tables)
  {
    hide Throw;
    if s.stack.On? && s.stack.rest.On? {
      var a, b := s.stack.top, s.stack.rest.top;
      var s1 := SetIp(s, next).(stack := s.stack.rest.rest);
      ThrowTables(s1, "Attempt to bind with non-symbol", [a, b]);
      ThrowTables(s1, "Attempt to set with non-symbol", [a, b]);
      ThrowTables(s1, "Attempt to set undefined symbol", [a, b]);
      if a.Symbol? { LookupIp(s.envs, s1.envs, s.tables, s.cur, a.name); }
    }
  }

  ghost function Written(tables: seq<Table>, g: Option<nat>, x: string, v: Value): seq<Table> {
    if g.Some? && g.value < |tables| then tables[g.value := tables[g.value][x := v]] else tables
  }

  // ---------- one step ----------

  /** About to give the saved stack or the return in table g another value. */
  ghost predicate Spoils(code: seq<Item>, s: State, g: nat) {
    && s.Ok() && 0 <= s.Ip() < |code| && s.stack.On? && s.stack.top.Symbol? && s.stack.rest.On?
    && (code[s.Ip()] == Emit.Do(Bind) || code[s.Ip()] == Emit.Do(Set))
    && var x := s.stack.top.name;
      && (x == STACK_SAVE || x == RETURN)
      && Target(code[s.Ip()].i.op, s, x) == Some(g)
      && g < |s.tables| && x in s.tables[g] && s.tables[g][x] != s.stack.rest.top
  }

  /** A step of any program leaves a captured stack and return as they are if and only if it does
      not spoil them. */
  lemma StepSaved(code: seq<Item>, s: State, g: nat, k: Stack, r: nat)
    requires s.Ok() && 0 <= s.Ip() < |code| && Saved(s.tables, g, k, r)
    ensures Step(code, s).Next? ==> (Saved(Step(code, s).s.tables, g, k, r) <==> !Spoils(code, s, g))
  {
    hide Exec;
    var it := code[s.Ip()];
    if it == Emit.Do(Bind) || it == Emit.Do(Set) {
      if Step(code, s).Next? { WriteTables(it.i.op, s.Ip() + 1, s); }
    } else if it.Ins? {
      ExecTables(Resolve(code, it.i), s.Ip() + 1, s);
    }
  }

  // ---------- whole runs ----------

  /** None of the first n steps spoils the capture in table g. */
  ghost predicate Unspoilt(code: seq<Item>, s: State, n: nat, g: nat)
    decreases n
  {
    n == 0 || (!Spoils(code, s, g)
      && (Stepper(code)(s).Some? ==> Unspoilt(code, Stepper(code)(s).value, n - 1, g)))
  }

  /** The capture is there in each of the first n states and the one after them. */
  ghost predicate SavedRun(code: seq<Item>, s: State, n: nat, g: nat, k: Stack, r: nat)
    decreases n
  {
    Saved(s.tables, g, k, r)
      && (n > 0 && Stepper(code)(s).Some? ==> SavedRun(code, Stepper(code)(s).value, n - 1, g, k, r))
  }

  /** Over a run of any program a capture is there in every state if and only if no step spoils it. */
  lemma {:induction false} RunSaved(code: seq<Item>, s: State, n: nat, t: State, g: nat, k: Stack, r: nat)
    requires Saved(s.tables, g, k, r) && Iterate(Stepper(code), s, n) == Some(t)
    ensures SavedRun(code, s, n, g, k, r) <==> Unspoilt(code, s, n, g)
    ensures Unspoilt(code, s, n, g) ==> Saved(t.tables, g, k, r)
    decreases n
  {
    hide Step, Spoils, Saved;
    if n > 0 {
      StepSaved(code, s, g, k, r);
      var u := Stepper(code)(s).value;
      if Spoils(code, s, g) { NotSavedRun(code, u, n - 1, g, k, r); } else { RunSaved(code, u, n - 1, t, g, k, r); }
    }
  }

  lemma NotSavedRun(code: seq<Item>, s: State, n: nat, g: nat, k: Stack, r: nat)
    requires !Saved(s.tables, g, k, r)
    ensures !SavedRun(code, s, n, g, k, r)
  {
  }

  /** Where every adopt is harmless nothing is spoilt: outside the routine no record sees the table,
      and inside only `ret-val` is bound. */
  lemma {:induction false} HarmlessUnspoilt(code: seq<Item>, b: int, s: State, n: nat, t: State, g: nat, k: Stack,
                                            r: nat)
    requires Loaded(code, b) && Kept(s, g, b, k, r) && Iterate(Stepper(code), s, n) == Some(t)
    requires HarmlessRun(code, s, n, g, b)
    ensures Unspoilt(code, s, n, g) && Kept(t, g, b, k, r)
    decreases n
  {
    hide Loaded, Step, Harmless, Kept, Spoils, Saved;
    if n > 0 {
      KeptSaved(s, g, b, k, r);
      StepKept(code, b, s, g, k, r);
      var u := Stepper(code)(s).value;
      KeptSaved(u, g, b, k, r);
      StepSaved(code, s, g, k, r);
      HarmlessUnspoilt(code, b, u, n - 1, t, g, k, r);
    }
  }

  lemma KeptSaved(s: State, g: nat, b: int, k: Stack, r: nat)
    requires Kept(s, g, b, k, r)
    ensures s.Ok() && Frames.Inv(s) && Saved(s.tables, g, k, r)
  {
  }

  // ---------- invoking the continuation ----------

  /** Whatever the table of a continuation holds at the time, a call of it by either call instruction
      and from any stack resumes that return with that stack and the value, and changes no table. */
  lemma Resume(code: seq<Item>, b: int, t: State, g: nat, k: Stack, r: nat, e: nat, v: Value, more: Value)
    returns (u: State)
    requires Loaded(code, b) && Frames.Inv(t) && Saved(t.tables, g, k, r)
    requires Calling(code, t, e, Pair(v, more)) && t.envs[e].ip == b + EXIT && t.envs[e].table == g
    ensures Resumes(code, t, u, k, v, r) && Reaches(code, t, u)
    ensures Frames.Inv(u) && Saved(u.tables, g, k, r) && (Kept(t, g, b, k, r) ==> Kept(u, g, b, k, r))
  {
    hide Loaded, Reaches, Frames.Inv, Kept, Walker;
    ClosuresApart(t, e, g, k, r);
    u := Invoke(code, b, t, e, v, more, g, k, r);
    WalksReach(code, t, u);
    ReachInv(code, t, u);
    var m: nat :| Iterate(Walker(code), t, m) == Some(u);
    if Kept(t, g, b, k, r) { WalkKept(code, b, t, m, u, g, k, r); }
  }

  lemma ClosuresApart(t: State, e: nat, g: nat, k: Stack, r: nat)
    requires Frames.Inv(t) && Saved(t.tables, g, k, r) && t.stack.On? && t.stack.top == Closure(e)
    ensures e != t.cur
    ensures r < |t.envs| && r != t.cur
  {
    ReturnKept(t, g, k, r);
  }

  lemma ReturnKept(t: State, g: nat, k: Stack, r: nat)
    requires Frames.Inv(t) && Saved(t.tables, g, k, r)
    ensures r < |t.envs| && r != t.cur
  {
    assert Frames.TableApart(t.tables[g], |t.envs|, t.cur);
  }

  /** Multi-shot continuations: after any run from a capture that does not spoil it, calling the
      continuation with any value, by either call instruction and from any stack, ends with the stack
      of the capture plus that value, in the record of the return as it was at the capture.  The
      capture is still there, so the next run may do it again. */
  lemma MultiShot(code: seq<Item>, b: int, s: State, n: nat, t: State, g: nat, k: Stack, r: nat, e: nat, v: Value,
                  more: Value)
    returns (u: State)
    requires Loaded(code, b) && Frames.Inv(s) && Saved(s.tables, g, k, r)
    requires Iterate(Stepper(code), s, n) == Some(t) && Unspoilt(code, s, n, g)
    requires Calling(code, t, e, Pair(v, more)) && t.envs[e].ip == b + EXIT && t.envs[e].table == g
    ensures Resumes(code, t, u, k, v, r) && Reaches(code, s, u)
    ensures r < |s.envs| && u.envs[u.cur] == s.envs[r]
    ensures Frames.Inv(u) && Saved(u.tables, g, k, r)
  {
    hide Loaded, Walks, Reaches, Frames.Inv, Saved, Unspoilt, Step;
    RunSaved(code, s, n, t, g, k, r);
    RunInv(code, s, n, t);
    u := Resume(code, b, t, g, k, r, e, v, more);
    ReachesBy2(code, s, n, t);
    ReachesTrans(code, s, t, u);
    ReturnKept(s, g, k, r);
  }
}
