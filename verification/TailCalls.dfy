/** Tail calls: the code of a tail position agrees with ordinary code followed by a return, and a
    chain of tail calls of any length enters every callee with the same return and stack below. */
module TailCalls {
  import opened Machine
  import opened Syntax
  import opened Code
  import opened Emit
  import opened Eval
  import opened Simulation
  import opened Stages
  import opened Correct

  /** Emitting x for a tail position, or for any position and then returning, gives the caller the
      same value on the same stack. */
  lemma TailEquivalence(code: seq<Item>, x: Stream, l1: nat, l2: nat, k: nat, f: nat, st: Store, s: State, r: nat,
                        p2: int)
    returns (t1: State, w1: Value, t2: State, w2: Value)
    requires Ready(code, s, st, f, true, r) && EvalStream(k, x, f, st).Ok?
    requires CodeAt(code, s.Ip(), EmitStream(x, true, l1).code + [Do(Swap), Do(Ret)])
    requires CodeAt(code, p2, EmitStream(x, false, l2).code + [Do(Swap), Do(Ret)])
    ensures var res := EvalStream(k, x, f, st); var s2 := Moved(s, s.stack, p2);
      && Returned(code, s, t1, st, res.st, r, s.stack.rest, w1) && ValRep(code, t1.envs, t1.cur, res.st, res.v, w1)
      && Returned(code, s2, t2, st, res.st, r, s.stack.rest, w2) && ValRep(code, t2.envs, t2.cur, res.st, res.v, w2)
  {
    hide Ready, Returned, ValRep, CodeAt, EvalStream, EmitStream;
    ReadyStart(code, s, st, f, true, r);
    t1, w1 := ValueReturns(code, x, true, l1, k, f, st, s, r);
    var s2 := Moved(s, s.stack, p2);
    MovedReady(code, s, st, f, r, p2);
    t2, w2 := ValueReturns(code, x, false, l2, k, f, st, s2, r);
  }

  /** Either form hands the value to the record of the return closure. */
  lemma ValueReturns(code: seq<Item>, x: Stream, tail: bool, l: nat, k: nat, f: nat, st: Store, s: State, r: nat)
    returns (t: State, w: Value)
    requires Ready(code, s, st, f, true, r) && EvalStream(k, x, f, st).Ok?
    requires CodeAt(code, s.Ip(), EmitStream(x, tail, l).code + [Do(Swap), Do(Ret)])
    ensures var res := EvalStream(k, x, f, st);
      Returned(code, s, t, st, res.st, r, s.stack.rest, w) && ValRep(code, t.envs, t.cur, res.st, res.v, w)
  {
    hide Exec, Stepper, Reaches, Grows, ValRep, Returned, Stage, Ends, CodeAt, UniqueLabels, EvalStream, EmitStream;
    var res := EvalStream(k, x, f, st);
    var c := EmitStream(x, tail, l).code;
    var q := s.Ip() + |c|;
    ReadyStart(code, s, st, f, true, r);
    CodeAtSplit(code, s.Ip(), c, [Do(Swap), Do(Ret)]);
    var u;
    if tail {
      u, w := RunStream(code, x, true, l, k, f, st, s, r);
    } else {
      u, w := RunStream(code, x, false, l, k, f, st, s, 0);
      YieldsStage(code, s, u, st, res, f, 0, w, q);
      StageYields(code, s, u, st, res, f, true, r, w, q);
    }
    t := FinishTail(code, s, u, st, res.st, f, r, res.v, w, q);
  }

  lemma MovedReady(code: seq<Item>, s: State, st: Store, f: nat, r: nat, p: int)
    requires Ready(code, s, st, f, true, r)
    ensures Ready(code, Moved(s, s.stack, p), st, f, true, r)
    ensures Moved(s, s.stack, p).Ok() && Moved(s, s.stack, p).Ip() == p
  {
    hide VarsRep, ValRep;
    var u := Moved(s, s.stack, p);
    StoreMono(code, s, u, st);
    EnvMono(s.envs, u.envs, st, st, s.cur, f);
  }

  // ---------- which call a tail position makes ----------

  datatype Tail = Tail(g: Val, args: Val, st: Store)

  /** The call evaluation of x in a tail position ends with, if it ends with one. */
  function TailOf(k: nat, x: Stream, f: nat, st: Store): Option<Tail>
    decreases x
  {
    match x
    case End => None
    case Seq(n, rest) =>
      if rest.End? then TailNode(k, n, f, st)
      else
        var r := EvalNode(k, n, f, st);
        if r.Fail? then None else TailOf(k, rest, f, r.st)
  }

  function TailNode(k: nat, n: Node, f: nat, st: Store): Option<Tail>
    decreases n
  {
    match n
    case If(c, t, e) =>
      var r := EvalStream(k, c, f, st);
      if r.Fail? then None else if r.v == SBool(false) then TailOf(k, e, f, r.st) else TailOf(k, t, f, r.st)
    case Cond(cs) => TailClauses(k, cs, f, st)
    case LetStar(bs, body) =>
      var b := EvalStream(k, bs, |st|, NewFrame(st, f));
      if b.Fail? then None else TailOf(k, body, |st|, b.st)
    case Apply(g, xs) =>
      var a := EvalArgs(k, xs, f, st, SEmpty);
      if a.Fail? then None
      else
        var r := EvalStream(k, g, f, a.st);
        if r.Fail? || !r.v.SClosure? then None else Some(Tail(r.v, a.v, r.st))
    case _ => None
  }

  function TailClauses(k: nat, cs: Clauses, f: nat, st: Store): Option<Tail>
    decreases cs
  {
    match cs
    case NoClause => None
    case Clause(t, b, rest) =>
      var r := EvalStream(k, t, f, st);
      if r.Fail? then None
      else if r.v == SBool(false) then TailClauses(k, rest, f, r.st)
      else TailOf(k, b, f, r.st)
  }

  /** State u is at the first instruction of the callee, with r to return to and base below. */
  ghost predicate AtEntry(code: seq<Item>, u: State, c: Tail, r: nat, base: Stack) {
    && c.g.SClosure? && UniqueLabels(code)
    && Sim(code, NewFrame(c.st, c.g.frame), |c.st|, u) && ProcAt(code, u.Ip(), c.g.formals, c.g.body)
    && u.stack.On? && u.stack.rest.On? && u.stack == On(Closure(r), On(u.stack.rest.top, base))
    && r < |u.envs| && r != u.cur
    && ValRep(code, u.envs, u.cur, NewFrame(c.st, c.g.frame), c.args, u.stack.rest.top)
  }

  ghost predicate Enters(code: seq<Item>, s: State, u: State, c: Tail, r: nat, base: Stack) {
    Reaches(code, s, u) && Grows(s, u) && AtEntry(code, u, c, r, base)
  }

  lemma StageEnters(code: seq<Item>, s: State, t: State, u: State, st: Store, st': Store, f: nat, k: Stack, p: int,
                    c: Tail, r: nat, base: Stack)
    requires Stage(code, s, t, st, st', f, k, p) && Enters(code, t, u, c, r, base)
    ensures Enters(code, s, u, c, r, base)
  {
    hide Exec, Stepper, AtEntry, Sim;
    ReachesTrans(code, s, t, u);
    GrowsTrans(s, t, u);
  }

  lemma StreamToTail(code: seq<Item>, x: Stream, l: nat, k: nat, f: nat, st: Store, s: State, r: nat)
    returns (u: State)
    requires Ready(code, s, st, f, true, r) && TailOf(k, x, f, st).Some?
    requires CodeAt(code, s.Ip(), EmitStream(x, true, l).code)
    ensures s.stack.On? && Enters(code, s, u, TailOf(k, x, f, st).value, r, s.stack.rest)
    decreases x, 2
  {
    hide Exec, Stepper, Reaches, Grows, StoreRep, EnvRep, ValRep, Stage, CodeAt, UniqueLabels, Enters, Sim;
    hide Ready, EmitNode;
    ReadyStart(code, s, st, f, true, r);
    var n, rest := x.head, x.next;
    if rest.End? {
      var a := EmitNode(n, true, l);
      CodeAtSplit(code, s.Ip(), a.code, if Pushes(n) then [] else [Put(LitEmpty)]);
      u := NodeToTail(code, n, l, k, f, st, s, r);
    } else {
      var a := EmitNode(n, false, l);
      var d := if Pushes(n) then [Do(Drop)] else [];
      var b := EmitStream(rest, true, a.next);
      CodeAtSplit(code, s.Ip(), a.code, d + b.code);
      CodeAtSplit(code, s.Ip() + |a.code|, d, b.code);
      var t1 := RunDropped(code, n, l, k, f, st, s);
      var st1 := EvalNode(k, n, f, st).st;
      var p := s.Ip() + |a.code| + |d|;
      StageReady(code, s, t1, st, st1, f, p, true, r);
      u := StreamToTail(code, rest, a.next, k, f, st1, t1, r);
      StageEnters(code, s, t1, u, st, st1, f, s.stack, p, TailOf(k, x, f, st).value, r, s.stack.rest);
    }
  }

  lemma ArmToTail(code: seq<Item>, x: Stream, l: nat, k: nat, f: nat, st: Store, st1: Store, s: State, t1: State,
                  r: nat, p: int)
    returns (u: State)
    requires Ready(code, s, st, f, true, r) && TailOf(k, x, f, st1).Some? && Stage(code, s, t1, st, st1, f, s.stack, p)
    requires CodeAt(code, p, EmitStream(x, true, l).code)
    ensures s.stack.On? && Enters(code, s, u, TailOf(k, x, f, st1).value, r, s.stack.rest)
    decreases x, 3
  {
    hide Exec, Stepper, Reaches, Grows, StoreRep, EnvRep, ValRep, Stage, CodeAt, UniqueLabels, Enters, Sim;
    hide TailOf, EmitStream;
    StageReady(code, s, t1, st, st1, f, p, true, r);
    u := StreamToTail(code, x, l, k, f, st1, t1, r);
    StageEnters(code, s, t1, u, st, st1, f, s.stack, p, TailOf(k, x, f, st1).value, r, s.stack.rest);
  }

  lemma NodeToTail(code: seq<Item>, n: Node, l: nat, k: nat, f: nat, st: Store, s: State, r: nat)
    returns (u: State)
    requires Ready(code, s, st, f, true, r) && TailNode(k, n, f, st).Some?
    requires CodeAt(code, s.Ip(), EmitNode(n, true, l).code)
    ensures s.stack.On? && Enters(code, s, u, TailNode(k, n, f, st).value, r, s.stack.rest)
    decreases n, 1
  {
    hide Exec, Stepper, Reaches, Grows, StoreRep, EnvRep, ValRep, Stage, CodeAt, UniqueLabels, Enters, Sim, Ready;
    ReadyStart(code, s, st, f, true, r);
    match n
    case If(_, _, _) => u := IfToTail(code, n, l, k, f, st, s, r);
    case Cond(cs) =>
      var a := EmitClauses(cs, l, true, l + 1);
      CodeAtSplit(code, s.Ip(), a.code, [Put(LitEmpty), Here(l)]);
      u := ClausesToTail(code, cs, l, l + 1, k, f, st, s, r);
    case LetStar(_, _) => u := LetToTail(code, n, l, k, f, st, s, r);
    case Apply(_, _) => u := ApplyToTail(code, n, l, k, f, st, s, r);
  }

  lemma IfToTail(code: seq<Item>, n: Node, l: nat, k: nat, f: nat, st: Store, s: State, r: nat)
    returns (u: State)
    requires Ready(code, s, st, f, true, r) && n.If? && TailNode(k, n, f, st).Some?
    requires CodeAt(code, s.Ip(), EmitNode(n, true, l).code)
    ensures s.stack.On? && Enters(code, s, u, TailNode(k, n, f, st).value, r, s.stack.rest)
    decreases n, 0
  {
    hide Exec, Stepper, Reaches, Grows, StoreRep, EnvRep, ValRep, Stage, CodeAt, UniqueLabels, Enters, Sim;
    hide Ready, TailOf;
    ReadyStart(code, s, st, f, true, r);
    var cc := EmitStream(n.test, false, l + 2);
    var ce := EmitStream(n.onFalse, true, cc.next);
    var ct := EmitStream(n.onTrue, true, ce.next);
    var p1 := s.Ip() + |cc.code|;
    var p2 := p1 + 1 + |ce.code|;
    IfPlaced(code, s.Ip(), cc, ce, ct, l);
    var res := EvalStream(k, n.test, f, st);
    var t1, w1 := RunStream(code, n.test, false, l + 2, k, f, st, s, 0);
    YieldsStage(code, s, t1, st, res, f, 0, w1, p1);
    FalseRep(code, t1.envs, t1.cur, res.st, res.v, w1);
    var t2 := StageBranch(code, s, t1, st, res.st, f, w1, s.stack, p1, l, p2 + 1);
    if w1 == Bool(false) {
      u := ArmToTail(code, n.onFalse, cc.next, k, f, st, res.st, s, t2, r, p1 + 1);
    } else {
      t2 := StagePure(code, s, t2, st, res.st, f, s.stack, p2 + 1, s.stack);
      u := ArmToTail(code, n.onTrue, ce.next, k, f, st, res.st, s, t2, r, p2 + 2);
    }
  }

  lemma ClausesToTail(code: seq<Item>, cs: Clauses, done: nat, l: nat, k: nat, f: nat, st: Store, s: State, r: nat)
    returns (u: State)
    requires Ready(code, s, st, f, true, r) && TailClauses(k, cs, f, st).Some?
    requires CodeAt(code, s.Ip(), EmitClauses(cs, done, true, l).code)
    ensures s.stack.On? && Enters(code, s, u, TailClauses(k, cs, f, st).value, r, s.stack.rest)
    decreases cs
  {
    hide Exec, Stepper, Reaches, Grows, StoreRep, EnvRep, ValRep, Stage, CodeAt, UniqueLabels, Enters, Sim;
    hide Ready, TailOf;
    ReadyStart(code, s, st, f, true, r);
    var ct := EmitStream(cs.test, false, l);
    var cb := EmitStream(cs.body, true, ct.next + 1);
    var cr := EmitClauses(cs.rest, done, true, cb.next);
    ClausePlaced(code, s.Ip(), ct, cb, cr, done);
    var p1 := s.Ip() + |ct.code|;
    var p2 := p1 + 2 + |cb.code|;
    var res := EvalStream(k, cs.test, f, st);
    var t1, w1 := RunStream(code, cs.test, false, l, k, f, st, s, 0);
    YieldsStage(code, s, t1, st, res, f, 0, w1, p1);
    FalseRep(code, t1.envs, t1.cur, res.st, res.v, w1);
    var no := Bool(w1 == Bool(false));
    t1 := StagePure(code, s, t1, st, res.st, f, On(w1, s.stack), p1, On(no, s.stack));
    t1 := StageBranch(code, s, t1, st, res.st, f, no, s.stack, p1 + 1, ct.next, p2 + 1);
    if w1 == Bool(false) {
      t1 := StagePure(code, s, t1, st, res.st, f, s.stack, p2 + 1, s.stack);
      StageReady(code, s, t1, st, res.st, f, p2 + 2, true, r);
      u := ClausesToTail(code, cs.rest, done, cb.next, k, f, res.st, t1, r);
      StageEnters(code, s, t1, u, st, res.st, f, s.stack, p2 + 2, TailClauses(k, cs, f, st).value, r, s.stack.rest);
    } else {
      u := ArmToTail(code, cs.body, ct.next + 1, k, f, st, res.st, s, t1, r, p1 + 2);
    }
  }

  lemma LetToTail(code: seq<Item>, n: Node, l: nat, k: nat, f: nat, st: Store, s: State, r: nat)
    returns (u: State)
    requires Ready(code, s, st, f, true, r) && n.LetStar? && TailNode(k, n, f, st).Some?
    requires CodeAt(code, s.Ip(), EmitNode(n, true, l).code)
    ensures s.stack.On? && Enters(code, s, u, TailNode(k, n, f, st).value, r, s.stack.rest)
    decreases n, 0
  {
    hide Exec, Stepper, Reaches, Grows, StoreRep, EnvRep, ValRep, Stage, CodeAt, UniqueLabels, Enters, Sim;
    hide Ready, TailOf, EmitStream, EvalStream;
    ReadyStart(code, s, st, f, true, r);
    var b := EmitStream(n.bindings, false, l + 2);
    var c := EmitStream(n.body, true, b.next);
    var e := LetEntry(true, l);
    var q := s.Ip() + 6;
    CodeAtSplit(code, s.Ip(), e, b.code + ([Do(Drop)] + (c.code + [Do(Swap), Do(Ret), Here(l + 1)])));
    LetPlaced(code, q, b.code, c.code, l);
    var st1 := NewFrame(st, f);
    var g := |st|;
    var v, v1 := EnterLetTail(code, l, f, st, s, r);
    StageTailReady(code, v, v1, st1, st1, g, s.stack, q, r, s.stack.rest);
    ReadyStart(code, v1, st1, g, true, r);
    var r1 := EvalStream(k, n.bindings, g, st1);
    var p := q + |b.code|;
    var t1, w1 := RunStream(code, n.bindings, false, l + 2, k, g, st1, v1, 0);
    YieldsStage(code, v1, t1, st1, r1, g, 0, w1, p);
    t1 := StagePure(code, v1, t1, st1, r1.st, g, On(w1, s.stack), p, s.stack);
    u := ArmToTail(code, n.body, b.next, k, g, st1, r1.st, v1, t1, r, p + 1);
    StageEnters(code, v, v1, u, st1, st1, g, s.stack, q, TailNode(k, n, f, st).value, r, s.stack.rest);
    EntersTrans(code, s, v, u, TailNode(k, n, f, st).value, r, s.stack.rest);
  }

  lemma EntersTrans(code: seq<Item>, s: State, t: State, u: State, c: Tail, r: nat, base: Stack)
    requires Reaches(code, s, t) && Grows(s, t) && Enters(code, t, u, c, r, base)
    ensures Enters(code, s, u, c, r, base)
  {
    hide Exec, Stepper, AtEntry;
    ReachesTrans(code, s, t, u);
    GrowsTrans(s, t, u);
  }

  lemma ApplyToTail(code: seq<Item>, n: Node, l: nat, k: nat, f: nat, st: Store, s: State, r: nat)
    returns (u: State)
    requires Ready(code, s, st, f, true, r) && n.Apply? && TailNode(k, n, f, st).Some?
    requires CodeAt(code, s.Ip(), EmitNode(n, true, l).code)
    ensures s.stack.On? && Enters(code, s, u, TailNode(k, n, f, st).value, r, s.stack.rest)
    decreases n, 0
  {
    hide Exec, Stepper, Reaches, Grows, StoreRep, EnvRep, ValRep, CodeAt, UniqueLabels, Stage, EmitArgs;
    hide EmitStream, EvalStream, EvalArgs, Enters, Entered;
    ReadyStart(code, s, st, f, true, r);
    var ca := EmitArgs(n.args, l);
    var cg := EmitStream(n.operator, false, ca.next);
    var p := s.Ip() + 1 + |ca.code| + |cg.code|;
    ApplyPlaced(code, s.Ip(), ca.code, cg.code, TailCallIn);
    var t2, wa, wg := RunOperands(code, n, l, k, f, st, s);
    var a := EvalArgs(k, n.args, f, st, SEmpty);
    var g := EvalStream(k, n.operator, f, a.st);
    var kk := On(wg, On(wa, s.stack));
    StageSim(code, s, t2, st, g.st, f, kk, p);
    StageKeeps(code, s, t2, st, g.st, f, kk, p, r);
    ClosureParts(code, t2, g.st, g.v, wg);
    var base := s.stack.rest;
    TailCallStep(code, t2, wg.env, wa, Closure(r), base);
    var k2 := On(Closure(r), On(wa, base));
    u := Entered(t2, wg.env, k2);
    EnteredRep(code, t2, g.st, wg.env, g.v.frame, k2);
    EnteredFacts(t2, wg.env, k2);
    ValMono(code, t2, u, g.st, NewFrame(g.st, g.v.frame), a.v, wa);
    EntersMade(code, t2, u, Tail(g.v, a.v, g.st), r, base);
    StageEnters(code, s, t2, u, st, g.st, f, kk, p, Tail(g.v, a.v, g.st), r, base);
  }

  lemma EntersMade(code: seq<Item>, t: State, u: State, c: Tail, r: nat, base: Stack)
    requires Reaches(code, t, u) && Grows(t, u) && AtEntry(code, u, c, r, base)
    ensures Enters(code, t, u, c, r, base)
  {
  }

  // ---------- chains of tail calls ----------

  /** The call the body of c makes in turn. */
  function NextTail(k: nat, c: Tail): Option<Tail> {
    if !c.g.SClosure? then None
    else match BindFormals(c.g.formals, c.args, map[])
      case None => None
      case Some(vars) => TailOf(k, c.g.body, |c.st|, c.st + [Frame(vars, Some(c.g.frame))])
  }

  function NthTail(k: nat, c: Tail, n: nat): Option<Tail>
    decreases n
  {
    if n == 0 then Some(c)
    else match NextTail(k, c)
      case None => None
      case Some(d) => NthTail(k, d, n - 1)
  }

  /** From the entry of one procedure to the entry of the one it tail-calls. */
  lemma EntryToNext(code: seq<Item>, k: nat, c: Tail, s: State, r: nat, base: Stack)
    returns (u: State)
    requires AtEntry(code, s, c, r, base) && NextTail(k, c).Some?
    ensures Enters(code, s, u, NextTail(k, c).value, r, base)
  {
    hide Exec, Stepper, Reaches, Grows, StoreRep, EnvRep, ValRep, Stage, CodeAt, UniqueLabels, EmitStream;
    hide TailOf, Enters;
    var st1 := NewFrame(c.st, c.g.frame);
    var f := |c.st|;
    var vars := BindFormals(c.g.formals, c.args, map[]).value;
    var st2 := c.st + [Frame(vars, Some(c.g.frame))];
    assert st1[f := st1[f].(vars := vars)] == st2;
    var entry: nat, l: nat :| CodeAt(code, s.Ip(), EmitProc(c.g.formals, c.g.body, entry, l).code);
    var p := s.Ip();
    var aw := s.stack.rest.top;
    ProcPlaced(code, p, c.g.formals, c.g.body, entry, l);
    StageRefl(code, s, st1, f);
    var kr := On(Closure(r), base);
    var t1 := StagePure(code, s, s, st1, st1, f, s.stack, p, s.stack);
    t1 := StagePure(code, s, t1, st1, st1, f, s.stack, p + 1, On(aw, kr));
    ValKept(code, s, t1, st1, st1, f, On(aw, kr), p + 2, c.args, aw);
    StageSim(code, s, t1, st1, st1, f, On(aw, kr), p + 2);
    var t2 := RunFormals(code, c.g.formals, c.args, aw, kr, st1, f, t1, vars);
    var p2 := p + 2 + |EmitFormals(c.g.formals)|;
    StageTrans(code, s, t1, t2, st1, st1, st2, f, On(aw, kr), p + 2, kr, p2);
    StageTailReady(code, s, t2, st1, st2, f, kr, p2, r, base);
    u := StreamToTail(code, c.g.body, l, k, f, st2, t2, r);
    StageEnters(code, s, t2, u, st1, st2, f, kr, p2, NextTail(k, c).value, r, base);
  }

  /** However many tail calls follow one another, each callee is entered with the same return
      record and the same stack below its arguments, so at the same depth. */
  lemma {:induction false} TailChain(code: seq<Item>, k: nat, c: Tail, n: nat, s: State, r: nat, base: Stack)
    returns (u: State)
    requires AtEntry(code, s, c, r, base) && NthTail(k, c, n).Some?
    ensures Enters(code, s, u, NthTail(k, c, n).value, r, base)
    ensures Depth(u.stack) == Depth(s.stack)
    decreases n
  {
    hide Exec, Stepper, Reaches, Grows, NextTail, ProcAt, ValRep, UniqueLabels;
    u := s;
    if n == 0 {
      EnterRefl(code, s, c, r, base);
    } else {
      var t := EntryToNext(code, k, c, s, r, base);
      u := TailChain(code, k, NextTail(k, c).value, n - 1, t, r, base);
      EntersTrans(code, s, t, u, NthTail(k, c, n).value, r, base);
    }
  }

  lemma EnterRefl(code: seq<Item>, s: State, c: Tail, r: nat, base: Stack)
    requires AtEntry(code, s, c, r, base)
    ensures Enters(code, s, s, c, r, base)
  {
    hide Exec, Stepper;
    ReachesRefl(code, s);
  }
}
