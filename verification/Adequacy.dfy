/** The converse of compiler correctness: where the evaluator gives no value with a bound of k nested
    calls, the machine gets stuck or is still running after k steps.  So a compiled program that
    comes to its end has the value of the evaluator, and one that has none never gets there. */
module Adequacy {
  import opened Machine
  import opened Syntax
  import opened Runs
  import opened Code
  import opened Emit
  import opened Eval
  import opened Simulation
  import opened Stages
  import opened Correct
  import opened StackSafety
  import opened StackDiscipline
  import opened Formation
  import opened Failing
  import Arithmetic
  import Fuel
  import Labels
  import TailCalls
  import Theorems

  /** Ready to run, with no exception handler anywhere and well-formed procedures in the store. */
  ghost predicate Live(code: seq<Item>, s: State, st: Store, f: nat, tail: bool, r: nat) {
    Ready(code, s, st, f, tail, r) && NoHandler(s.envs) && Calm(code) && FormedStore(st)
  }

  lemma LiveStart(code: seq<Item>, s: State, st: Store, f: nat, tail: bool, r: nat)
    requires Live(code, s, st, f, tail, r)
    ensures Ready(code, s, st, f, tail, r) && Ready(code, s, st, f, false, 0) && UniqueLabels(code)
      && FormedStore(st) && Calm(code)
    ensures s.Ok() && Sim(code, st, f, s) && NoHandler(s.envs) && Live(code, s, st, f, false, 0)
      && TailReady(s, tail, r)
    ensures Stage(code, s, s, st, st, f, s.stack, s.Ip())
  {
    ReadyStart(code, s, st, f, tail, r);
  }

  /** After a stage, outside tail positions. */
  lemma LiveNext(code: seq<Item>, s: State, t: State, st: Store, st': Store, f: nat, k: Stack, p: int)
    requires Live(code, s, st, f, false, 0) && Stage(code, s, t, st, st', f, k, p) && FormedStore(st')
    ensures Live(code, t, st', f, false, 0) && t.Ok() && t.Ip() == p && t.stack == k && Reaches(code, s, t)
    ensures NoHandler(t.envs) && Sim(code, st', f, t) && Ready(code, t, st', f, false, 0)
  {
    StageReadyAny(code, s, t, st, st', f, k, p);
    hide Exec, Stepper, Ready;
    ReachCalm(code, s, t);
  }

  /** After a stage that leaves the stack as it was, in any position. */
  lemma LiveOn(code: seq<Item>, s: State, t: State, st: Store, st': Store, f: nat, p: int, tail: bool, r: nat)
    requires Live(code, s, st, f, tail, r) && Stage(code, s, t, st, st', f, s.stack, p) && FormedStore(st')
    ensures Live(code, t, st', f, tail, r) && t.Ok() && t.Ip() == p && t.stack == s.stack && Reaches(code, s, t)
  {
    StageReady(code, s, t, st, st', f, p, tail, r);
    hide Exec, Stepper, Ready;
    ReachCalm(code, s, t);
  }

  lemma LoseStream(code: seq<Item>, x: Stream, tail: bool, l: nat, k: nat, f: nat, st: Store, s: State, r: nat)
    requires Live(code, s, st, f, tail, r) && Formed(x) && EvalStream(k, x, f, st).Fail?
    requires CodeAt(code, s.Ip(), EmitStream(x, tail, l).code)
    ensures Lost(code, s, k)
    decreases 2 * k, x, 3
  {
    hide Exec, Stepper, Reaches, Ready, Live, CodeAt, Stage, Lost, EvalNode, EmitNode, FormedNode;
    LiveStart(code, s, st, f, tail, r);
    var n, rest := x.head, x.next;
    if rest.End? {
      LoseValue(code, n, tail, l, k, f, st, s, r);
    } else {
      var a := EmitNode(n, false, l);
      var d := if Pushes(n) then [Do(Drop)] else [];
      var b := EmitStream(rest, tail, a.next);
      CodeAtSplit(code, s.Ip(), a.code, d + b.code);
      CodeAtSplit(code, s.Ip() + |a.code|, d, b.code);
      if EvalNode(k, n, f, st).Fail? {
        LoseNode(code, n, false, l, k, f, st, s, 0);
      } else {
        var t1 := RunDropped(code, n, l, k, f, st, s);
        NodeForms(k, n, f, st);
        var st1 := EvalNode(k, n, f, st).st;
        LiveOn(code, s, t1, st, st1, f, s.Ip() + |a.code| + |d|, tail, r);
        LoseStream(code, rest, tail, a.next, k, f, st1, t1, r);
        LostFrom(code, s, t1, k);
      }
    }
  }

  lemma LoseValue(code: seq<Item>, n: Node, tail: bool, l: nat, k: nat, f: nat, st: Store, s: State, r: nat)
    requires Live(code, s, st, f, tail, r) && FormedNode(n) && EvalNode(k, n, f, st).Fail?
    requires CodeAt(code, s.Ip(), EmitValue(n, tail, l).code)
    ensures Lost(code, s, k)
    decreases 2 * k, n, 2
  {
    hide Live, CodeAt, Lost, EvalNode, EmitNode, FormedNode;
    LiveStart(code, s, st, f, tail, r);
    CodeAtSplit(code, s.Ip(), EmitNode(n, tail, l).code, if Pushes(n) then [] else [Put(LitEmpty)]);
    LoseNode(code, n, tail, l, k, f, st, s, r);
  }

  lemma LoseNode(code: seq<Item>, n: Node, tail: bool, l: nat, k: nat, f: nat, st: Store, s: State, r: nat)
    requires Live(code, s, st, f, tail, r) && FormedNode(n) && EvalNode(k, n, f, st).Fail?
    requires CodeAt(code, s.Ip(), EmitNode(n, tail, l).code)
    ensures Lost(code, s, k)
    decreases 2 * k, n, 1
  {
    hide Live, CodeAt, Lost, EmitNode, EvalStream, EvalPair, EvalClauses, EvalBool, EvalArgs, EvalCall;
    match n
    case LiteralNode(_) =>
    case Quoted(_) =>
    case Load(_) => LoseLoad(code, n, tail, l, k, f, st, s, r);
    case BindNode(_, _) => LoseWrite(code, n, tail, l, k, f, st, s, r);
    case StoreNode(_, _) => LoseWrite(code, n, tail, l, k, f, st, s, r);
    case MathNode(_, _, _) => LoseMath(code, n, tail, l, k, f, st, s, r);
    case If(_, _, _) => LoseIf(code, n, tail, l, k, f, st, s, r);
    case Cond(_) => LoseCond(code, n, tail, l, k, f, st, s, r);
    case And(_) => LoseLogic(code, n, tail, l, k, f, st, s, r);
    case Or(_) => LoseLogic(code, n, tail, l, k, f, st, s, r);
    case Lambda(_, _) =>
    case Apply(_, _) => LoseApply(code, n, tail, l, k, f, st, s, r);
    case LetStar(_, _) => LoseLet(code, n, tail, l, k, f, st, s, r);
    case RecordType(_) => LoseRecord(code, n, tail, l, k, f, st, s, r);
  }

  lemma LoseLoad(code: seq<Item>, n: Node, tail: bool, l: nat, k: nat, f: nat, st: Store, s: State, r: nat)
    requires Live(code, s, st, f, tail, r) && n.Load? && FormedNode(n) && EvalNode(k, n, f, st).Fail?
    requires CodeAt(code, s.Ip(), EmitNode(n, tail, l).code)
    ensures Lost(code, s, k)
    decreases 2 * k, n, 0
  {
    hide Exec, Stepper, Reaches, Live, CodeAt, Stage, Lost, EmitStream, EvalStream, Formed, Stuck, Sim;
    LiveStart(code, s, st, f, tail, r);
    var c := EmitStream(n.name, false, l);
    var p := s.Ip() + |c.code|;
    CodeAtSplit(code, s.Ip(), c.code, [Do(Read)]);
    CodeIndex(code, p, [Do(Read)], 0);
    var res := EvalStream(k, n.name, f, st);
    if res.Fail? {
      LoseStream(code, n.name, false, l, k, f, st, s, 0);
    } else {
      StreamForms(k, n.name, f, st);
      var t1, w1 := RunStream(code, n.name, false, l, k, f, st, s, 0);
      YieldsStage(code, s, t1, st, res, f, 0, w1, p);
      LiveNext(code, s, t1, st, res.st, f, On(w1, s.stack), p);
      SymbolRep(code, t1, res.st, res.v, w1);
      if res.v.SSymbol? { FoundBound(code, res.st, t1, f, res.v.name); }
      StuckRead(code, res.st, t1, f, w1, s.stack);
      LostStuck(code, t1, k);
      LostFrom(code, s, t1, k);
    }
  }

  lemma SymbolRep(code: seq<Item>, t: State, st: Store, v: Val, w: Value)
    requires ValRep(code, t.envs, t.cur, st, v, w)
    ensures v.SSymbol? <==> w.Symbol?
    ensures v.SSymbol? ==> w.name == v.name
    ensures v.SPair? <==> w.Pair?
    ensures v.SClosure? <==> w.Closure?
    ensures v.SEmpty? <==> w.Empty?
    ensures v.SFixnum? <==> w.Fixnum?
    ensures v.SFixnum? ==> w.i == v.i
  {
  }

  /** What is found is in its frame. */
  lemma FoundBound(code: seq<Item>, st: Store, t: State, f: nat, x: string)
    requires Sim(code, st, f, t)
    ensures var g := FindFrame(st, f, x); g.Some? ==> g.value < |st| && x in st[g.value].vars
    ensures f < |st|
  {
    LookupRep(code, st, t, t.cur, f, x);
  }

  // ---------- two operands ----------

  lemma LosePair(code: seq<Item>, n: Node, a: Stream, b: Stream, l: nat, k: nat, f: nat, st: Store, s: State)
    requires Live(code, s, st, f, false, 0) && a < n && b < n && Formed(a) && Formed(b)
      && EvalPair(k, n, a, b, f, st).Fail?
    requires CodeAt(code, s.Ip(), EmitStream(a, false, l).code)
    requires CodeAt(code, s.Ip() + |EmitStream(a, false, l).code|,
                    EmitStream(b, false, EmitStream(a, false, l).next).code)
    ensures Lost(code, s, k)
    decreases 2 * k, n, 0, 0
  {
    hide Exec, Stepper, Reaches, Live, CodeAt, Stage, Lost, EmitStream, EvalStream, Formed;
    LiveStart(code, s, st, f, false, 0);
    var ca := EmitStream(a, false, l);
    var p := s.Ip() + |ca.code|;
    var r1 := EvalStream(k, a, f, st);
    if r1.Fail? {
      LoseStream(code, a, false, l, k, f, st, s, 0);
    } else {
      StreamForms(k, a, f, st);
      var t1, w1 := RunStream(code, a, false, l, k, f, st, s, 0);
      YieldsStage(code, s, t1, st, r1, f, 0, w1, p);
      LiveNext(code, s, t1, st, r1.st, f, On(w1, s.stack), p);
      LoseStream(code, b, false, ca.next, k, f, r1.st, t1, 0);
      LostFrom(code, s, t1, k);
    }
  }

  lemma LoseWrite(code: seq<Item>, n: Node, tail: bool, l: nat, k: nat, f: nat, st: Store, s: State, r: nat)
    requires Live(code, s, st, f, tail, r) && (n.BindNode? || n.StoreNode?) && FormedNode(n)
      && EvalNode(k, n, f, st).Fail?
    requires CodeAt(code, s.Ip(), EmitNode(n, tail, l).code)
    ensures Lost(code, s, k)
    decreases 2 * k, n, 0, 1
  {
    hide Exec, Stepper, Reaches, Live, CodeAt, Stage, Lost, EmitStream, EvalStream, EvalPair, Formed, Stuck, Sim;
    LiveStart(code, s, st, f, tail, r);
    var ca := EmitStream(n.value, false, l);
    var cb := EmitStream(n.name, false, ca.next);
    var op := if n.BindNode? then Bind else Set;
    DoublePlaced(code, s.Ip(), ca.code, cb.code, op);
    var res := EvalPair(k, n, n.value, n.name, f, st);
    if res.Fail? {
      LosePair(code, n, n.value, n.name, l, k, f, st, s);
    } else {
      PairForms(k, n, n.value, n.name, f, st);
      var p := s.Ip() + |ca.code| + |cb.code|;
      var t1, w1, w2 := RunPair(code, n, n.value, n.name, l, k, f, st, s);
      LiveNext(code, s, t1, st, res.st, f, On(w2, On(w1, s.stack)), p);
      SymbolRep(code, t1, res.st, res.v.cdr, w2);
      if res.v.cdr.SSymbol? { FoundBound(code, res.st, t1, f, res.v.cdr.name); }
      StuckWrite(code, res.st, t1, f, op, w2, w1, s.stack);
      LostStuck(code, t1, k);
      LostFrom(code, s, t1, k);
    }
  }

  lemma LoseMath(code: seq<Item>, n: Node, tail: bool, l: nat, k: nat, f: nat, st: Store, s: State, r: nat)
    requires Live(code, s, st, f, tail, r) && n.MathNode? && FormedNode(n) && EvalNode(k, n, f, st).Fail?
    requires CodeAt(code, s.Ip(), EmitNode(n, tail, l).code)
    ensures Lost(code, s, k)
    decreases 2 * k, n, 0, 1
  {
    hide Exec, Stepper, Reaches, Live, CodeAt, Stage, Lost, EmitStream, EvalStream, EvalPair, Formed, Stuck;
    hide Sim, MathVal;
    LiveStart(code, s, st, f, tail, r);
    var ca := EmitStream(n.left, false, l);
    var cb := EmitStream(n.right, false, ca.next);
    DoublePlaced(code, s.Ip(), ca.code, cb.code, Math(n.op));
    var res := EvalPair(k, n, n.left, n.right, f, st);
    if res.Fail? {
      LosePair(code, n, n.left, n.right, l, k, f, st, s);
    } else {
      PairForms(k, n, n.left, n.right, f, st);
      var p := s.Ip() + |ca.code| + |cb.code|;
      var t1, w1, w2 := RunPair(code, n, n.left, n.right, l, k, f, st, s);
      LiveNext(code, s, t1, st, res.st, f, On(w2, On(w1, s.stack)), p);
      SymbolRep(code, t1, res.st, res.v.car, w1);
      SymbolRep(code, t1, res.st, res.v.cdr, w2);
      NoMath(n.op, res.v.car, res.v.cdr);
      StuckMath(code, t1, n.op, w2, w1, s.stack);
      LostStuck(code, t1, k);
      LostFrom(code, s, t1, k);
    }
  }

  lemma NoMath(m: MathOp, a: Val, b: Val)
    requires MathVal(m, a, b).None?
    ensures a.SFixnum? && b.SFixnum? ==> Arith(m, a.i, b.i).None?
  {
    hide MathVal, Arith;
    if a.SFixnum? && b.SFixnum? { Arithmetic.MathAgrees(m, a.i, b.i); }
  }

  // ---------- choices ----------

  lemma LoseArm(code: seq<Item>, x: Stream, tail: bool, l: nat, k: nat, f: nat, st: Store, st1: Store, s: State,
                t: State, r: nat, p: int)
    requires Live(code, s, st, f, tail, r) && FormedStore(st1) && Formed(x) && EvalStream(k, x, f, st1).Fail?
    requires Stage(code, s, t, st, st1, f, s.stack, p) && CodeAt(code, p, EmitStream(x, tail, l).code)
    ensures Lost(code, s, k)
    decreases 2 * k, x, 4
  {
    hide Exec, Stepper, Reaches, Live, CodeAt, Stage, Lost, EmitStream, EvalStream, Formed;
    LiveOn(code, s, t, st, st1, f, p, tail, r);
    LoseStream(code, x, tail, l, k, f, st1, t, r);
    LostFrom(code, s, t, k);
  }

  lemma LoseIf(code: seq<Item>, n: Node, tail: bool, l: nat, k: nat, f: nat, st: Store, s: State, r: nat)
    requires Live(code, s, st, f, tail, r) && n.If? && FormedNode(n) && EvalNode(k, n, f, st).Fail?
    requires CodeAt(code, s.Ip(), EmitNode(n, tail, l).code)
    ensures Lost(code, s, k)
    decreases 2 * k, n, 0
  {
    hide Exec, Stepper, Reaches, Live, CodeAt, Stage, Lost, EmitStream, EvalStream, Formed, Sim, ValRep;
    LiveStart(code, s, st, f, tail, r);
    var cc := EmitStream(n.test, false, l + 2);
    var ce := EmitStream(n.onFalse, tail, cc.next);
    var ct := EmitStream(n.onTrue, tail, ce.next);
    var p1 := s.Ip() + |cc.code|;
    var p2 := p1 + 1 + |ce.code|;
    IfPlaced(code, s.Ip(), cc, ce, ct, l);
    var res := EvalStream(k, n.test, f, st);
    if res.Fail? {
      LoseStream(code, n.test, false, l + 2, k, f, st, s, 0);
    } else {
      StreamForms(k, n.test, f, st);
      var t1, w1 := RunStream(code, n.test, false, l + 2, k, f, st, s, 0);
      YieldsStage(code, s, t1, st, res, f, 0, w1, p1);
      FalseRep(code, t1.envs, t1.cur, res.st, res.v, w1);
      var t2 := StageBranch(code, s, t1, st, res.st, f, w1, s.stack, p1, l, p2 + 1);
      if w1 == Bool(false) {
        LoseArm(code, n.onFalse, tail, cc.next, k, f, st, res.st, s, t2, r, p1 + 1);
      } else {
        t2 := StagePure(code, s, t2, st, res.st, f, s.stack, p2 + 1, s.stack);
        LoseArm(code, n.onTrue, tail, ce.next, k, f, st, res.st, s, t2, r, p2 + 2);
      }
    }
  }

  lemma LoseCond(code: seq<Item>, n: Node, tail: bool, l: nat, k: nat, f: nat, st: Store, s: State, r: nat)
    requires Live(code, s, st, f, tail, r) && n.Cond? && FormedNode(n) && EvalNode(k, n, f, st).Fail?
    requires CodeAt(code, s.Ip(), EmitNode(n, tail, l).code)
    ensures Lost(code, s, k)
    decreases 2 * k, n, 0
  {
    hide Live, CodeAt, Lost, EmitClauses, EvalClauses, FormedClauses;
    LiveStart(code, s, st, f, tail, r);
    CodeAtSplit(code, s.Ip(), EmitClauses(n.clauses, l, tail, l + 1).code, [Put(LitEmpty), Here(l)]);
    LoseClauses(code, n.clauses, l, tail, l + 1, k, f, st, s, r);
  }

  lemma LoseClauses(code: seq<Item>, cs: Clauses, done: nat, tail: bool, l: nat, k: nat, f: nat, st: Store, s: State,
                    r: nat)
    requires Live(code, s, st, f, tail, r) && FormedClauses(cs) && EvalClauses(k, cs, f, st).Fail?
    requires CodeAt(code, s.Ip(), EmitClauses(cs, done, tail, l).code)
    ensures Lost(code, s, k)
    decreases 2 * k, cs
  {
    hide Exec, Stepper, Reaches, Live, CodeAt, Stage, Lost, EmitStream, EvalStream, Formed, Sim, ValRep;
    LiveStart(code, s, st, f, tail, r);
    var ct := EmitStream(cs.test, false, l);
    var cb := EmitStream(cs.body, tail, ct.next + 1);
    var cr := EmitClauses(cs.rest, done, tail, cb.next);
    ClausePlaced(code, s.Ip(), ct, cb, cr, done);
    var p1 := s.Ip() + |ct.code|;
    var p2 := p1 + 2 + |cb.code|;
    var res := EvalStream(k, cs.test, f, st);
    if res.Fail? {
      LoseStream(code, cs.test, false, l, k, f, st, s, 0);
    } else {
      StreamForms(k, cs.test, f, st);
      var t1, w1 := RunStream(code, cs.test, false, l, k, f, st, s, 0);
      YieldsStage(code, s, t1, st, res, f, 0, w1, p1);
      FalseRep(code, t1.envs, t1.cur, res.st, res.v, w1);
      t1 := ClauseBranch(code, s, t1, st, res.st, f, w1, s.stack, s.Ip(), ct, cb, cr, done);
      if w1 == Bool(false) {
        LiveOn(code, s, t1, st, res.st, f, p2 + 2, tail, r);
        LoseClauses(code, cs.rest, done, tail, cb.next, k, f, res.st, t1, r);
        LostFrom(code, s, t1, k);
      } else {
        LoseArm(code, cs.body, tail, ct.next + 1, k, f, st, res.st, s, t1, r, p1 + 2);
      }
    }
  }

  lemma LoseLogic(code: seq<Item>, n: Node, tail: bool, l: nat, k: nat, f: nat, st: Store, s: State, r: nat)
    requires Live(code, s, st, f, tail, r) && (n.And? || n.Or?) && FormedNode(n) && EvalNode(k, n, f, st).Fail?
    requires CodeAt(code, s.Ip(), EmitNode(n, tail, l).code)
    ensures Lost(code, s, k)
    decreases 2 * k, n, 0
  {
    LogicParts(n, tail, l, k, f, st);
    hide Live, CodeAt, Lost, EmitBool, EvalBool, Formed, EvalNode, EmitNode, Ready, Sim, Stage;
    LiveStart(code, s, st, f, tail, r);
    var a := EmitBool(n.args, n.And?, l, l + 1);
    CodeAtSplit(code, s.Ip(), a.code, [Here(l)]);
    CodeIndex(code, s.Ip() + |a.code|, [Here(l)], 0);
    LoseBool(code, n.args, n.And?, l, l + 1, k, f, st, s, s.Ip() + |a.code|);
  }

  lemma LogicParts(n: Node, tail: bool, l: nat, k: nat, f: nat, st: Store)
    requires (n.And? || n.Or?) && EvalNode(k, n, f, st).Fail?
    ensures n.args.Seq? && EvalBool(k, n.args, n.And?, f, st).Fail?
    ensures EmitNode(n, tail, l).code == EmitBool(n.args, n.And?, l, l + 1).code + [Here(l)]
  {
    hide EvalBool, EmitBool;
  }

  lemma LoseBool(code: seq<Item>, xs: Stream, conj: bool, done: nat, l: nat, k: nat, f: nat, st: Store, s: State,
                 q: int)
    requires Live(code, s, st, f, false, 0) && xs.Seq? && Formed(xs) && EvalBool(k, xs, conj, f, st).Fail?
    requires CodeAt(code, s.Ip(), EmitBool(xs, conj, done, l).code) && 0 <= q < |code| && code[q] == Here(done)
    ensures Lost(code, s, k)
    decreases 2 * k, xs, 0
  {
    hide Exec, Stepper, Reaches, Live, CodeAt, Stage, Lost, EvalNode, EmitNode, EmitValue, FormedNode, Sim;
    hide ValRep, EvalBool, EmitBool, Formed;
    LiveStart(code, s, st, f, false, 0);
    BoolParts(xs, conj, done, l, k, f, st);
    var a := EmitValue(xs.head, false, l);
    var p := s.Ip() + |a.code|;
    var res := EvalNode(k, xs.head, f, st);
    if xs.next.End? {
      LoseValue(code, xs.head, false, l, k, f, st, s, 0);
    } else {
      var b := BoolTest(conj, done, a.next);
      var c := EmitBool(xs.next, conj, done, b.next);
      CodeAtSplit(code, s.Ip(), a.code, b.code + c.code);
      if res.Fail? {
        LoseValue(code, xs.head, false, l, k, f, st, s, 0);
      } else {
        BoolPlaced(code, p, conj, done, a.next, c.code);
        NodeForms(k, xs.head, f, st);
        var t, w := RunValue(code, xs.head, false, l, k, f, st, s, 0);
        YieldsStage(code, s, t, st, res, f, 0, w, p);
        FalseRep(code, t.envs, t.cur, res.st, res.v, w);
        var t1 := RunBoolTest(code, s, t, st, res.st, f, w, res.v, p, conj, done, a.next, q);
        LiveOn(code, s, t1, st, res.st, f, p + |b.code|, false, 0);
        LoseBool(code, xs.next, conj, done, b.next, k, f, res.st, t1, q);
        LostFrom(code, s, t1, k);
      }
    }
  }

  lemma BoolParts(xs: Stream, conj: bool, done: nat, l: nat, k: nat, f: nat, st: Store)
    requires xs.Seq? && Formed(xs) && EvalBool(k, xs, conj, f, st).Fail?
    ensures FormedNode(xs.head) && Formed(xs.next)
    ensures var a := EmitValue(xs.head, false, l);
      var t := BoolTest(conj, done, a.next);
      var res := EvalNode(k, xs.head, f, st);
      && (xs.next.End? ==> EmitBool(xs, conj, done, l) == a && res.Fail?)
      && (xs.next.Seq? ==>
        EmitBool(xs, conj, done, l).code == a.code + (t.code + EmitBool(xs.next, conj, done, t.next).code))
      && (xs.next.Seq? && res.Ok? ==> (res.v == SBool(false)) != conj && EvalBool(k, xs.next, conj, f, res.st).Fail?)
  {
    hide EvalNode, EmitValue, FormedNode, BoolTest;
  }

  // ---------- procedures ----------

  /** Too few arguments: the prologue gets stuck taking the car of what is no pair. */
  lemma LoseFormals(code: seq<Item>, fs: Formals, args: Val, aw: Value, base: Stack, k: nat, st: Store, f: nat,
                    s: State)
    requires Live(code, s, st, f, false, 0) && s.stack == On(aw, base) && ValRep(code, s.envs, s.cur, st, args, aw)
      && FormedVal(args)
    requires CodeAt(code, s.Ip(), EmitFormals(fs)) && BindFormals(fs, args, st[f].vars).None?
    ensures Lost(code, s, k)
    decreases fs
  {
    hide Exec, Stepper, Reaches, Live, CodeAt, Stage, Lost, EmitFormals, ValRep, Stuck, Define, BindFormals, FormedVal;
    LiveStart(code, s, st, f, false, 0);
    TooFew(fs, args, st[f].vars);
    var p := s.Ip();
    var x, rest := fs.name, fs.next;
    FormalsPlaced(code, p, fs);
    CodeIndex(code, p, [Do(Dup), Do(Car), Put(LitSymbol(x)), Do(Bind)], 0);
    CodeIndex(code, p, [Do(Dup), Do(Car), Put(LitSymbol(x)), Do(Bind)], 1);
    if args.SPair? {
      var t1 := RunFormal(code, x, args, aw, base, st, f, s);
      var st1 := Define(st, f, x, args.car);
      DefineTwice(st, f, x, args.car, st[f].vars);
      DefineForms(st, f, x, args.car);
      var t2 := RunCdr(code, args, aw, base, st, st1, f, s, t1, p + 4);
      LiveNext(code, s, t2, st, st1, f, On(aw.cdr, base), p + 5);
      LoseFormals(code, rest, args.cdr, aw.cdr, base, k, st1, f, t2);
      LostFrom(code, s, t2, k);
    } else {
      LoseCar(code, args, aw, base, k, st, f, s);
    }
  }

  /** `dup car` of what is no pair. */
  lemma LoseCar(code: seq<Item>, args: Val, aw: Value, base: Stack, k: nat, st: Store, f: nat, s: State)
    requires Live(code, s, st, f, false, 0) && s.stack == On(aw, base) && ValRep(code, s.envs, s.cur, st, args, aw)
      && !args.SPair?
    requires 0 <= s.Ip() && s.Ip() + 1 < |code| && code[s.Ip()] == Do(Dup) && code[s.Ip() + 1] == Do(Car)
    ensures Lost(code, s, k)
  {
    hide Exec, Stepper, Reaches, Live, CodeAt, Stage, Lost, ValRep, Stuck;
    LiveStart(code, s, st, f, false, 0);
    SymbolRep(code, s, st, args, aw);
    var t := StagePure(code, s, s, st, st, f, On(aw, base), s.Ip(), On(aw, On(aw, base)));
    LiveNext(code, s, t, st, st, f, On(aw, On(aw, base)), s.Ip() + 1);
    StuckOne(code, t, Car, aw, On(aw, base));
    LostStuck(code, t, k);
    LostFrom(code, s, t, k);
  }

  lemma TooFew(fs: Formals, args: Val, vars: map<string, Val>)
    requires BindFormals(fs, args, vars).None? && FormedVal(args)
    ensures fs.Formal? && !fs.next.NoFormal?
    ensures args.SPair? ==> !fs.next.FixedEnd? && BindFormals(fs.next, args.cdr, vars[fs.name := args.car]).None?
    ensures args.SPair? ==> FormedVal(args.car) && FormedVal(args.cdr)
  {
  }

  /** A call that has been entered. */
  lemma LoseProc(code: seq<Item>, k: nat, g: Val, args: Val, aw: Value, st: Store, s: State, r: nat, base: Stack)
    requires UniqueLabels(code) && g.SClosure? && EvalCall(k, g, args, st).Fail? && FormedVal(g) && FormedVal(args)
      && FormedStore(st)
    requires Sim(code, NewFrame(st, g.frame), |st|, s) && ProcAt(code, s.Ip(), g.formals, g.body)
      && NoHandler(s.envs) && Calm(code)
    requires s.stack == On(Closure(r), On(aw, base)) && r < |s.envs| && r != s.cur
    requires ValRep(code, s.envs, s.cur, NewFrame(st, g.frame), args, aw)
    ensures Lost(code, s, k)
    decreases 2 * k + 1, 0
  {
    hide Exec, Stepper, Reaches, CodeAt, Stage, Lost, EmitStream, EvalStream, EmitFormals, ValRep, Formed;
    hide FormedStore, FormedVal;
    var st1 := NewFrame(st, g.frame);
    var f := |st|;
    FrameForms(st, g.frame);
    var entry: nat, l: nat :| CodeAt(code, s.Ip(), EmitProc(g.formals, g.body, entry, l).code);
    var p := s.Ip();
    ProcPlaced(code, p, g.formals, g.body, entry, l);
    StageRefl(code, s, st1, f);
    FreshLive(code, s, st1, f);
    var kr := On(Closure(r), base);
    var t1 := StagePure(code, s, s, st1, st1, f, s.stack, p, s.stack);
    t1 := StagePure(code, s, t1, st1, st1, f, s.stack, p + 1, On(aw, kr));
    ValKept(code, s, t1, st1, st1, f, On(aw, kr), p + 2, args, aw);
    LiveNext(code, s, t1, st1, st1, f, On(aw, kr), p + 2);
    var b := BindFormals(g.formals, args, map[]);
    if b.None? {
      LoseFormals(code, g.formals, args, aw, kr, k, st1, f, t1);
      LostFrom(code, s, t1, k);
    } else {
      LoseBody(code, k, g, args, aw, st, s, t1, r, base, l, p + 2);
    }
  }

  lemma FrameForms(st: Store, f: nat)
    requires FormedStore(st)
    ensures FormedStore(NewFrame(st, f)) && NewFrame(st, f)[|st|].vars == map[]
  {
  }

  lemma FreshLive(code: seq<Item>, s: State, st: Store, f: nat)
    requires UniqueLabels(code) && Sim(code, st, f, s) && NoHandler(s.envs) && Calm(code) && FormedStore(st)
    ensures Live(code, s, st, f, false, 0)
  {
    hide Sim, UniqueLabels, NoHandler, Calm, FormedStore;
  }

  lemma LoseBody(code: seq<Item>, k: nat, g: Val, args: Val, aw: Value, st: Store, s: State, t1: State, r: nat,
                 base: Stack, l: nat, p: int)
    requires g.SClosure? && EvalCall(k, g, args, st).Fail? && BindFormals(g.formals, args, map[]).Some?
      && FormedVal(g) && FormedVal(args)
    requires var st1 := NewFrame(st, g.frame); var kr := On(Closure(r), base);
      && FormedStore(st1) && Live(code, s, st1, |st|, false, 0) && r < |s.envs| && r != s.cur
      && Stage(code, s, t1, st1, st1, |st|, On(aw, kr), p) && ValRep(code, t1.envs, t1.cur, st1, args, aw)
    requires CodeAt(code, p, EmitFormals(g.formals))
    requires CodeAt(code, p + |EmitFormals(g.formals)|, EmitStream(g.body, true, l).code)
    ensures Lost(code, s, k)
    decreases 2 * k, g, 5
  {
    hide Exec, Stepper, Reaches, CodeAt, Stage, Lost, EmitStream, EvalStream, EmitFormals, ValRep, Live;
    hide Formed, FormedStore, FormedVal;
    var st1, f := NewFrame(st, g.frame), |st|;
    var kr := On(Closure(r), base);
    LiveStart(code, s, st1, f, false, 0);
    LiveNext(code, s, t1, st1, st1, f, On(aw, kr), p);
    var vars := BindFormals(g.formals, args, map[]).value;
    var st2 := st + [Frame(vars, Some(g.frame))];
    assert st1[f].vars == map[] && st1[f := st1[f].(vars := vars)] == st2;
    CallStore(g, args, st, st1);
    var t2 := RunFormals(code, g.formals, args, aw, kr, st1, f, t1, vars);
    var p2 := p + |EmitFormals(g.formals)|;
    StageTrans(code, s, t1, t2, st1, st1, st2, f, On(aw, kr), p, kr, p2);
    StageTailReady(code, s, t2, st1, st2, f, kr, p2, r, base);
    LiveNext(code, s, t2, st1, st2, f, kr, p2);
    TailLive(code, t2, st2, f, r);
    LoseStream(code, g.body, true, l, k, f, st2, t2, r);
    LostFrom(code, s, t2, k);
  }

  lemma CallStore(g: Val, args: Val, st: Store, st1: Store)
    requires g.SClosure? && FormedVal(g) && FormedVal(args) && FormedStore(st1) && st1 == NewFrame(st, g.frame)
      && BindFormals(g.formals, args, map[]).Some?
    ensures Formed(g.body) && FormedStore(st + [Frame(BindFormals(g.formals, args, map[]).value, Some(g.frame))])
  {
    BindForms(g.formals, args, map[]);
    forall i | 0 <= i < |st| ensures FormedVars(st[i].vars) { assert st1[i] == st[i]; }
  }

  lemma TailLive(code: seq<Item>, t: State, st: Store, f: nat, r: nat)
    requires Live(code, t, st, f, false, 0) && Ready(code, t, st, f, true, r)
    ensures Live(code, t, st, f, true, r)
  {
  }

  // ---------- calls ----------

  /** A call instruction with the operands on the stack. */
  lemma LoseCall(code: seq<Item>, k: nat, g: Val, args: Val, wf: Value, wa: Value, st: Store, f: nat, t: State,
                 tail: bool, r: nat, base: Stack)
    requires Live(code, t, st, f, false, 0) && EvalCall(k, g, args, st).Fail? && FormedVal(g) && FormedVal(args)
    requires 0 <= t.Ip() < |code| && code[t.Ip()] == Do(if tail then TailCallIn else CallIn)
    requires t.stack == On(wf, On(wa, if tail then On(Closure(r), base) else base))
    requires tail ==> r < |t.envs| && r != t.cur
    requires ValRep(code, t.envs, t.cur, st, g, wf) && ValRep(code, t.envs, t.cur, st, args, wa)
    ensures Lost(code, t, k + 1)
    decreases 2 * k + 1, 1
  {
    hide Exec, Stepper, Reaches, CodeAt, Lost, Stuck, UniqueLabels, StoreRep, EnvRep, EvalCall, Entered;
    hide FormedStore, FormedVal, Calm, Live, ValRep;
    LiveStart(code, t, st, f, false, 0);
    SymbolRep(code, t, st, g, wf);
    if g.SClosure? {
      ClosureParts(code, t, st, g, wf);
      var back := if tail then r else t.cur;
      var kk := On(Closure(back), On(wa, base));
      var u := Entered(t, wf.env, kk);
      EnteredRep(code, t, st, wf.env, g.frame, kk);
      EnteredFacts(t, wf.env, kk);
      EnterStep(code, t, wf.env, wa, tail, r, base);
      ValMono(code, t, u, st, NewFrame(st, g.frame), args, wa);
      ReachesStep(code, t, u);
      ReachCalm(code, t, u);
      LoseProc(code, k, g, args, wa, st, u, back, base);
      LostStep(code, t, u, k);
    } else {
      StuckOne(code, t, if tail then TailCallIn else CallIn, wf, t.stack.rest);
      LostStuck(code, t, k + 1);
    }
  }

  lemma EnterStep(code: seq<Item>, t: State, e: nat, wa: Value, tail: bool, r: nat, base: Stack)
    requires t.Ok() && 0 <= t.Ip() < |code| && code[t.Ip()] == Do(if tail then TailCallIn else CallIn)
      && e < |t.envs| && e != t.cur
    requires t.stack == On(Closure(e), On(wa, if tail then On(Closure(r), base) else base))
    ensures Step(code, t) == Next(Entered(t, e, On(Closure(if tail then r else t.cur), On(wa, base))))
  {
  }

  lemma LoseArgs(code: seq<Item>, xs: Stream, l: nat, k: nat, f: nat, st: Store, s: State, base: Stack, acc: Val,
                 aw: Value)
    requires Live(code, s, st, f, false, 0) && Formed(xs) && FormedVal(acc) && EvalArgs(k, xs, f, st, acc).Fail?
    requires s.stack == On(aw, base) && ValRep(code, s.envs, s.cur, st, acc, aw)
    requires CodeAt(code, s.Ip(), EmitArgs(xs, l).code)
    ensures Lost(code, s, k)
    decreases 2 * k, xs
  {
    hide Exec, Stepper, Reaches, Live, CodeAt, Stage, Lost, EvalNode, EmitNode, EmitValue, FormedNode, Sim, ValRep;
    LiveStart(code, s, st, f, false, 0);
    var n, rest := xs.head, xs.next;
    var a := EmitValue(n, false, l);
    var c := EmitArgs(rest, a.next);
    var p := s.Ip() + |a.code|;
    CodeAtSplit(code, s.Ip(), a.code, [Do(Cons)] + c.code);
    CodeAtHead(code, p, Do(Cons), c.code);
    var r1 := EvalNode(k, n, f, st);
    if r1.Fail? {
      LoseValue(code, n, false, l, k, f, st, s, 0);
    } else {
      NodeForms(k, n, f, st);
      var t1, w1 := RunValue(code, n, false, l, k, f, st, s, 0);
      YieldsStage(code, s, t1, st, r1, f, 0, w1, p);
      ValKept(code, s, t1, st, r1.st, f, On(w1, s.stack), p, acc, aw);
      PairRep(code, t1, r1.st, r1.v, w1, acc, aw);
      var t2 := StagePure(code, s, t1, st, r1.st, f, On(w1, On(aw, base)), p, On(Pair(w1, aw), base));
      ValMono(code, t1, t2, r1.st, r1.st, SPair(r1.v, acc), Pair(w1, aw));
      LiveNext(code, s, t2, st, r1.st, f, On(Pair(w1, aw), base), p + 1);
      LoseArgs(code, rest, a.next, k, f, r1.st, t2, base, SPair(r1.v, acc), Pair(w1, aw));
      LostFrom(code, s, t2, k);
    }
  }

  lemma LoseApply(code: seq<Item>, n: Node, tail: bool, l: nat, k: nat, f: nat, st: Store, s: State, r: nat)
    requires Live(code, s, st, f, tail, r) && n.Apply? && FormedNode(n) && EvalNode(k, n, f, st).Fail?
    requires CodeAt(code, s.Ip(), EmitNode(n, tail, l).code)
    ensures Lost(code, s, k)
    decreases 2 * k, n, 0
  {
    hide Exec, Stepper, Reaches, Live, CodeAt, Stage, Lost, EmitArgs, EmitStream, EvalStream, EvalArgs;
    hide EvalCall, Formed, Sim, ValRep;
    LiveStart(code, s, st, f, tail, r);
    var ca := EmitArgs(n.args, l);
    var cg := EmitStream(n.operator, false, ca.next);
    var p := s.Ip() + 1 + |ca.code| + |cg.code|;
    ApplyPlaced(code, s.Ip(), ca.code, cg.code, if tail then TailCallIn else CallIn);
    var a := EvalArgs(k, n.args, f, st, SEmpty);
    if a.Fail? || EvalStream(k, n.operator, f, a.st).Fail? {
      LoseOperands(code, n, l, k, f, st, s);
    } else if k == 0 {
      LostNow(code, s);
    } else {
      var g := EvalStream(k, n.operator, f, a.st);
      ArgsForm(k, n.args, f, st, SEmpty);
      StreamForms(k, n.operator, f, a.st);
      var t2, wa, wg := RunOperands(code, n, l, k, f, st, s);
      var kk := On(wg, On(wa, s.stack));
      LiveNext(code, s, t2, st, g.st, f, kk, p);
      if tail {
        StageKeeps(code, s, t2, st, g.st, f, kk, p, r);
        LoseCall(code, k - 1, g.v, a.v, wg, wa, g.st, f, t2, true, r, s.stack.rest);
      } else {
        LoseCall(code, k - 1, g.v, a.v, wg, wa, g.st, f, t2, false, 0, s.stack);
      }
      LostFrom(code, s, t2, k);
    }
  }

  lemma LoseOperands(code: seq<Item>, n: Node, l: nat, k: nat, f: nat, st: Store, s: State)
    requires Live(code, s, st, f, false, 0) && n.Apply? && FormedNode(n)
    requires var a := EvalArgs(k, n.args, f, st, SEmpty); a.Fail? || EvalStream(k, n.operator, f, a.st).Fail?
    requires CodeAt(code, s.Ip(), [Put(LitEmpty)]) && CodeAt(code, s.Ip() + 1, EmitArgs(n.args, l).code)
    requires CodeAt(code, s.Ip() + 1 + |EmitArgs(n.args, l).code|,
                    EmitStream(n.operator, false, EmitArgs(n.args, l).next).code)
    ensures Lost(code, s, k)
    decreases 2 * k, n, 0, 0
  {
    hide Exec, Stepper, Reaches, Live, CodeAt, Stage, Lost, EmitArgs, EmitStream, EvalStream, EvalArgs;
    hide Formed, Sim, ValRep;
    LiveStart(code, s, st, f, false, 0);
    var ca := EmitArgs(n.args, l);
    var a := EvalArgs(k, n.args, f, st, SEmpty);
    var p1 := s.Ip() + 1;
    var p2 := p1 + |ca.code|;
    var t0 := PushLit(code, s, st, f, LitEmpty);
    LiveNext(code, s, t0, st, st, f, On(Empty, s.stack), p1);
    if a.Fail? {
      LoseArgs(code, n.args, l, k, f, st, t0, s.stack, SEmpty, Empty);
      LostFrom(code, s, t0, k);
    } else {
      ArgsForm(k, n.args, f, st, SEmpty);
      var t1, wa := RunArgs(code, n.args, l, k, f, st, t0, s.stack, SEmpty, Empty);
      StageTrans(code, s, t0, t1, st, st, a.st, f, On(Empty, s.stack), p1, On(wa, s.stack), p2);
      LiveNext(code, s, t1, st, a.st, f, On(wa, s.stack), p2);
      LoseStream(code, n.operator, false, ca.next, k, f, a.st, t1, 0);
      LostFrom(code, s, t1, k);
    }
  }

  // ---------- let* ----------

  lemma LoseLet(code: seq<Item>, n: Node, tail: bool, l: nat, k: nat, f: nat, st: Store, s: State, r: nat)
    requires Live(code, s, st, f, tail, r) && n.LetStar? && FormedNode(n) && EvalNode(k, n, f, st).Fail?
    requires CodeAt(code, s.Ip(), EmitNode(n, tail, l).code)
    ensures Lost(code, s, k)
    decreases 2 * k, n, 0, 1
  {
    hide Exec, Stepper, Reaches, Live, CodeAt, Stage, Lost, EmitStream, EvalStream, Formed, Sim, ValRep, LetLayout;
    LiveStart(code, s, st, f, tail, r);
    SimFrame(code, st, f, s);
    var b := EmitStream(n.bindings, false, l + 2);
    var c := EmitStream(n.body, tail, b.next);
    var e := LetEntry(tail, l);
    var q := s.Ip() + |e|;
    CodeAtSplit(code, s.Ip(), e, b.code + ([Do(Drop)] + (c.code + [Do(Swap), Do(Ret), Here(l + 1)])));
    LetPlaced(code, q, b.code, c.code, l);
    var st1 := NewFrame(st, f);
    FrameForms(st, f);
    if tail {
      var u, u1 := EnterLetTail(code, l, f, st, s, r);
      LetLive(code, s, u, u1, st1, |st|, s.stack, q, r, s.stack.rest);
      LoseLetBody(code, n, tail, l, k, |st|, st1, u1, r, s.stack.rest);
      LostFrom(code, s, u1, k);
    } else {
      var u, u1 := EnterLet(code, l, f, st, s);
      LetLive(code, s, u, u1, st1, |st|, u.stack, q, s.cur, s.stack);
      LoseLetBody(code, n, tail, l, k, |st|, st1, u1, s.cur, s.stack);
      LostFrom(code, s, u1, k);
    }
  }

  /** The frame a let* opens. */
  lemma LetLive(code: seq<Item>, s: State, u: State, u1: State, st1: Store, f: nat, kr: Stack, q: int, r: nat,
                base: Stack)
    requires UniqueLabels(code) && Calm(code) && NoHandler(s.envs) && FormedStore(st1) && Reaches(code, s, u)
    requires Stage(code, u, u1, st1, st1, f, kr, q) && kr == On(Closure(r), base) && r < |u.envs| && r != u.cur
    ensures Live(code, u1, st1, f, true, r) && Reaches(code, s, u1) && u1.Ok() && u1.Ip() == q && u1.stack == kr
  {
    StageTailReady(code, u, u1, st1, st1, f, kr, q, r, base);
    StageSim(code, u, u1, st1, st1, f, kr, q);
    hide Exec, Stepper, Ready;
    ReachesTrans(code, s, u, u1);
    ReachCalm(code, s, u1);
  }

  lemma LoseLetBody(code: seq<Item>, n: Node, tail: bool, l: nat, k: nat, f: nat, st: Store, s: State, r: nat,
                    base: Stack)
    requires n.LetStar? && FormedNode(n) && Live(code, s, st, f, true, r) && s.stack == On(Closure(r), base)
    requires var b := EvalStream(k, n.bindings, f, st); b.Fail? || EvalStream(k, n.body, f, b.st).Fail?
    requires var b := EmitStream(n.bindings, false, l + 2);
      LetLayout(code, s.Ip(), b.code, EmitStream(n.body, tail, b.next).code, l)
    ensures Lost(code, s, k)
    decreases 2 * k, n, 0, 0
  {
    hide Exec, Stepper, Reaches, Live, CodeAt, Stage, Lost, EmitStream, EvalStream, Formed, Sim, ValRep;
    LiveStart(code, s, st, f, true, r);
    var b := EmitStream(n.bindings, false, l + 2);
    var p := s.Ip() + |b.code|;
    var r1 := EvalStream(k, n.bindings, f, st);
    if r1.Fail? {
      LoseStream(code, n.bindings, false, l + 2, k, f, st, s, 0);
    } else {
      StreamForms(k, n.bindings, f, st);
      var t1, w1 := RunStream(code, n.bindings, false, l + 2, k, f, st, s, 0);
      YieldsStage(code, s, t1, st, r1, f, 0, w1, p);
      t1 := StagePure(code, s, t1, st, r1.st, f, On(w1, s.stack), p, s.stack);
      LiveOn(code, s, t1, st, r1.st, f, p + 1, true, r);
      LiveStart(code, t1, r1.st, f, true, r);
      LoseStream(code, n.body, tail, b.next, k, f, r1.st, t1, if tail then r else 0);
      LostFrom(code, s, t1, k);
    }
  }

  // ---------- record types ----------

  lemma LoseRecord(code: seq<Item>, n: Node, tail: bool, l: nat, k: nat, f: nat, st: Store, s: State, r: nat)
    requires Live(code, s, st, f, tail, r) && n.RecordType? && FormedNode(n) && EvalNode(k, n, f, st).Fail?
    requires CodeAt(code, s.Ip(), EmitNode(n, tail, l).code)
    ensures Lost(code, s, k)
    decreases 2 * k, n, 0
  {
    hide Exec, Stepper, Reaches, Live, CodeAt, Stage, Lost, EvalCall, RecordLoop, QuotedNode, EmitQuoted;
    hide Sim, ValRep, WellQuoted, FindFrame, BindList, Stuck;
    if k == 0 {
      LostNow(code, s);
    } else {
      LiveStart(code, s, st, f, tail, r);
      RecordParts(code, s.Ip(), n, l);
      var p := s.Ip() + |EmitQuoted(n.def, false)|;
      var args := QuotedNode(Quoted(n.def));
      QuotedForms(Quoted(n.def));
      var t1, wa := RunQuoted(code, n.def, f, st, s);
      var ka := On(wa, s.stack);
      var t2 := StagePure(code, s, t1, st, st, f, ka, p, On(Symbol(FACTORY), ka));
      ValMono(code, t1, t2, st, st, args, wa);
      LiveNext(code, s, t2, st, st, f, On(Symbol(FACTORY), ka), p + 1);
      FoundBound(code, st, t2, f, FACTORY);
      var g := FindFrame(st, f, FACTORY);
      if g.None? {
        StuckRead(code, st, t2, f, Symbol(FACTORY), ka);
        LostStuck(code, t2, k);
        LostFrom(code, s, t2, k);
      } else {
        RecordFails(k, n, f, st);
        hide EvalNode, EmitNode, FormedNode;
        LoseFactory(code, l, k, f, st, s, t2, wa, args, FACTORY, g.value, p);
      }
    }
  }

  lemma RecordParts(code: seq<Item>, p: int, n: Node, l: nat)
    requires n.RecordType? && CodeAt(code, p, EmitQuoted(n.def, false) + EmitRecord(l))
    ensures CodeAt(code, p, EmitQuoted(n.def, false))
    ensures var q := p + |EmitQuoted(n.def, false)|;
      && 0 <= q && q + 3 <= |code| && code[q] == Put(LitSymbol(FACTORY)) && code[q + 1] == Do(Read)
      && code[q + 2] == Do(CallIn)
      && CodeAt(code, q + 3, RecordLoop(l))
  {
    hide CodeAt, RecordLoop, EmitQuoted;
    var call := [Put(LitSymbol(FACTORY)), Do(Read), Do(CallIn)];
    var q := p + |EmitQuoted(n.def, false)|;
    CodeAtSplit(code, p, EmitQuoted(n.def, false), call + RecordLoop(l));
    CodeAtSplit(code, q, call, RecordLoop(l));
    CodeIndex(code, q, call, 0);
    CodeIndex(code, q, call, 1);
    CodeIndex(code, q, call, 2);
  }

  /** The call of the factory and the loop over what it returns, from the read of its name at t2. */
  lemma LoseFactory(code: seq<Item>, l: nat, k: nat, f: nat, st: Store, s: State, t2: State, wa: Value, args: Val,
                    x: string, g: nat, p: int)
    requires k > 0 && FormedVal(args) && FormedStore(st) && FindFrame(st, f, x) == Some(g) && g < |st|
      && x in st[g].vars
    requires var r := EvalCall(k - 1, st[g].vars[x], args, st); r.Ok? && f < |r.st| ==> BindList(r.st, f, r.v).Fail?
    requires Live(code, s, st, f, false, 0) && Stage(code, s, t2, st, st, f, On(Symbol(x), On(wa, s.stack)), p + 1)
    requires ValRep(code, t2.envs, t2.cur, st, args, wa)
    requires 0 <= p && p + 3 <= |code| && code[p + 1] == Do(Read) && code[p + 2] == Do(CallIn)
      && CodeAt(code, p + 3, RecordLoop(l))
    ensures Lost(code, s, k)
    decreases 2 * k - 1, 3
  {
    hide Exec, Stepper, Reaches, Live, CodeAt, Stage, Grows, StoreRep, EnvRep, Lost, EvalCall, RecordLoop;
    hide Sim, ValRep, FindFrame, BindList;
    hide StoreGrows, FormedVal, FormedStore, Ready, NoHandler, Calm;
    ProcForms(st, g, x);
    var ka := On(wa, s.stack);
    var t3, wg := StageRead(code, s, t2, st, st, f, x, ka, p + 1, g);
    SameStore(st);
    ValMono(code, t2, t3, st, st, args, wa);
    LoseBinding(code, st[g].vars[x], args, wg, wa, l, k, f, st, s, t3, p + 2);
  }

  lemma SameStore(st: Store) ensures StoreGrows(st, st) {}

  /** From the call of the factory on. */
  lemma LoseBinding(code: seq<Item>, proc: Val, args: Val, wg: Value, wa: Value, l: nat, k: nat, f: nat, st: Store,
                    s: State, t: State, p: int)
    requires k > 0 && FormedVal(proc) && FormedVal(args) && FormedStore(st)
    requires var r := EvalCall(k - 1, proc, args, st); r.Ok? && f < |r.st| ==> BindList(r.st, f, r.v).Fail?
    requires Live(code, s, st, f, false, 0) && Stage(code, s, t, st, st, f, On(wg, On(wa, s.stack)), p)
    requires ValRep(code, t.envs, t.cur, st, proc, wg) && ValRep(code, t.envs, t.cur, st, args, wa)
    requires 0 <= p < |code| && code[p] == Do(CallIn) && CodeAt(code, p + 1, RecordLoop(l))
    ensures Lost(code, s, k)
    decreases 2 * k - 1, 2
  {
    hide Exec, Stepper, Reaches, Live, CodeAt, Stage, Lost, EvalCall, RecordLoop, Sim, ValRep, BindList;
    hide FormedVal, FormedStore;
    var ka := On(wa, s.stack);
    LiveNext(code, s, t, st, st, f, On(wg, ka), p);
    var res := EvalCall(k - 1, proc, args, st);
    if res.Fail? {
      LoseCall(code, k - 1, proc, args, wg, wa, st, f, t, false, 0, s.stack);
      LostFrom(code, s, t, k);
    } else {
      CallForms(k - 1, proc, args, st);
      var t4, w4 := RunCallIn(code, k - 1, proc, args, wg, wa, st, f, t, s.stack);
      StageTrans(code, s, t, t4, st, st, res.st, f, On(wg, ka), p, On(w4, s.stack), p + 1);
      LiveNext(code, s, t4, st, res.st, f, On(w4, s.stack), p + 1);
      SimFrame2(code, res.st, f, t4);
      LoseLoop(code, res.v, w4, s.stack, k, res.st, f, st, s, t4, l, p + 1);
    }
  }

  lemma ProcForms(st: Store, g: nat, x: string)
    requires FormedStore(st) && g < |st| && x in st[g].vars
    ensures FormedVal(st[g].vars[x])
  {
  }

  /** Why a record definition fails once its factory is found. */
  lemma RecordFails(k: nat, n: Node, f: nat, st: Store)
    requires n.RecordType? && WellQuoted(n.def) && k > 0 && EvalNode(k, n, f, st).Fail?
    requires FindFrame(st, f, FACTORY).Some? && FindFrame(st, f, FACTORY).value < |st|
      && FACTORY in st[FindFrame(st, f, FACTORY).value].vars
    ensures var r := EvalCall(k - 1, st[FindFrame(st, f, FACTORY).value].vars[FACTORY], QuotedNode(Quoted(n.def)), st);
      r.Ok? && f < |r.st| ==> BindList(r.st, f, r.v).Fail?
  {
    hide EvalCall, FindFrame, BindList, QuotedNode;
  }

  lemma SimFrame2(code: seq<Item>, st: Store, f: nat, s: State)
    requires Sim(code, st, f, s)
    ensures f < |st|
  {
  }

  /** The binding loop over something that is no list of (symbol . value) pairs. */
  lemma LoseLoop(code: seq<Item>, entries: Val, w: Value, base: Stack, k: nat, st: Store, f: nat, st0: Store,
                 s: State, t: State, l: nat, p: int)
    requires Live(code, s, st0, f, false, 0) && FormedStore(st) && FormedVal(entries)
    requires CodeAt(code, p, RecordLoop(l)) && f < |st| && BindList(st, f, entries).Fail?
    requires Stage(code, s, t, st0, st, f, On(w, base), p) && ValRep(code, t.envs, t.cur, st, entries, w)
    ensures Lost(code, s, k)
    decreases entries
  {
    hide Exec, Stepper, Reaches, Live, CodeAt, Stage, Lost, RecordLoop, Sim, ValRep, Define;
    LiveStart(code, s, st0, f, false, 0);
    RecordPlaced(code, p, l);
    var k1 := On(w, base);
    var u3 := LoopHead(code, entries, w, base, st, f, st0, s, t, l, p);
    var u4 := StagePure(code, s, u3, st0, st, f, k1, p + 4, On(w, k1));
    ValMono(code, u3, u4, st, st, entries, w);
    if entries.SPair? && entries.car.SPair? && entries.car.car.SSymbol? {
      var x, v := entries.car.car.name, entries.car.cdr;
      var u5 := RunEntry(code, entries, w, base, st, f, st0, s, u3, p);
      var st1 := Define(st, f, x, v);
      DefineForms(st, f, x, v);
      DefineSize(st, f, x, v);
      PairParts(code, u5, st1, entries, w);
      var u6 := StagePure(code, s, u5, st0, st1, f, k1, p + 11, On(w.cdr, base));
      ValMono(code, u5, u6, st1, st1, entries.cdr, w.cdr);
      var u7 := StageJump(code, s, u6, st0, st1, f, On(w.cdr, base), p + 12, l, p);
      ValMono(code, u6, u7, st1, st1, entries.cdr, w.cdr);
      LoseLoop(code, entries.cdr, w.cdr, base, k, st1, f, st0, s, u7, l, p);
    } else {
      LoseEntry(code, entries, w, base, k, st, f, st0, s, u4, l, p);
    }
  }

  /** `dup null? jnf` on what is not the empty list. */
  lemma LoopHead(code: seq<Item>, entries: Val, w: Value, base: Stack, st: Store, f: nat, st0: Store, s: State,
                 t: State, l: nat, p: int)
    returns (u3: State)
    requires UniqueLabels(code) && RecordLayout(code, p, l) && entries != SEmpty
    requires Stage(code, s, t, st0, st, f, On(w, base), p) && ValRep(code, t.envs, t.cur, st, entries, w)
    ensures Stage(code, s, u3, st0, st, f, On(w, base), p + 4) && ValRep(code, u3.envs, u3.cur, st, entries, w)
  {
    hide Exec, Stepper, Reaches, Stage, Sim, ValRep;
    SymbolRep(code, t, st, entries, w);
    var k1, b := On(w, base), Bool(false);
    var u := StagePure(code, s, t, st0, st, f, k1, p, k1);
    ValMono(code, t, u, st, st, entries, w);
    var u1 := StagePure(code, s, u, st0, st, f, k1, p + 1, On(w, k1));
    ValMono(code, u, u1, st, st, entries, w);
    var u2 := StagePure(code, s, u1, st0, st, f, On(w, k1), p + 2, On(b, k1));
    ValMono(code, u1, u2, st, st, entries, w);
    u3 := StageBranch(code, s, u2, st0, st, f, b, k1, p + 3, l + 1, p + 13);
    ValMono(code, u2, u3, st, st, entries, w);
  }

  lemma DefineSize(st: Store, f: nat, x: string, v: Val)
    requires f < |st|
    ensures |Define(st, f, x, v)| == |st|
  {
  }

  /** `car dup cdr swap car bind` on something else. */
  lemma LoseEntry(code: seq<Item>, entries: Val, w: Value, base: Stack, k: nat, st: Store, f: nat, st0: Store,
                  s: State, t: State, l: nat, p: int)
    requires Live(code, s, st0, f, false, 0) && FormedStore(st) && RecordLayout(code, p, l)
    requires !(entries.SPair? && entries.car.SPair? && entries.car.car.SSymbol?)
    requires Stage(code, s, t, st0, st, f, On(w, On(w, base)), p + 5) && ValRep(code, t.envs, t.cur, st, entries, w)
    ensures Lost(code, s, k)
  {
    hide Exec, Stepper, Reaches, Live, CodeAt, Stage, Lost, Sim, ValRep, Stuck;
    SymbolRep(code, t, st, entries, w);
    var k1 := On(w, base);
    if !entries.SPair? {
      LiveNext(code, s, t, st0, st, f, On(w, k1), p + 5);
      StuckOne(code, t, Car, w, k1);
      LostStuck(code, t, k);
      LostFrom(code, s, t, k);
    } else {
      PairParts(code, t, st, entries, w);
      var e := w.car;
      SymbolRep(code, t, st, entries.car, e);
      var t1 := StagePure(code, s, t, st0, st, f, On(w, k1), p + 5, On(e, k1));
      ValMono(code, t, t1, st, st, entries.car, e);
      var t2 := StagePure(code, s, t1, st0, st, f, On(e, k1), p + 6, On(e, On(e, k1)));
      ValMono(code, t1, t2, st, st, entries.car, e);
      if !entries.car.SPair? {
        LiveNext(code, s, t2, st0, st, f, On(e, On(e, k1)), p + 7);
        StuckOne(code, t2, Cdr, e, On(e, k1));
        LostStuck(code, t2, k);
        LostFrom(code, s, t2, k);
      } else {
        PairParts(code, t2, st, entries.car, e);
        SymbolRep(code, t2, st, entries.car.car, e.car);
        var t3 := StagePure(code, s, t2, st0, st, f, On(e, On(e, k1)), p + 7, On(e.cdr, On(e, k1)));
        var t4 := StagePure(code, s, t3, st0, st, f, On(e.cdr, On(e, k1)), p + 8, On(e, On(e.cdr, k1)));
        var t5 := StagePure(code, s, t4, st0, st, f, On(e, On(e.cdr, k1)), p + 9, On(e.car, On(e.cdr, k1)));
        LiveNext(code, s, t5, st0, st, f, On(e.car, On(e.cdr, k1)), p + 10);
        StuckWrite(code, st, t5, f, Bind, e.car, e.cdr, k1);
        LostStuck(code, t5, k);
        LostFrom(code, s, t5, k);
      }
    }
  }

  // ---------- whole programs ----------

  lemma StartLive(code: seq<Item>)
    requires UniqueLabels(code) && Calm(code)
    ensures Live(code, Start(), Theorems.GLOBAL, 0, false, 0)
  {
    Theorems.StartRep(code);
  }

  /** The state at the end of the code is the only one. */
  lemma {:induction false} OneEnd(code: seq<Item>, s: State, t: State, u: State)
    requires Reaches(code, s, t) && Reaches(code, s, u) && t.Ok() && t.Ip() == |code| && u.Ok() && u.Ip() == |code|
    ensures t == u
  {
    hide Step;
    var n: nat :| Iterate(Stepper(code), s, n) == Some(t);
    var m: nat :| Iterate(Stepper(code), s, m) == Some(u);
    assert Stepper(code)(t).None? && Stepper(code)(u).None?;
    if m > n { Stops(code, s, n, t, m); } else if n > m { Stops(code, s, m, u, n); }
  }

  ghost predicate HasValue(x: Stream, f: nat, st: Store) { exists k: nat :: EvalStream(k, x, f, st).Ok? }

  /** With a bound of k the evaluator gives x a value, and no other with any other bound. */
  ghost predicate ValueAt(k: nat, x: Stream, f: nat, st: Store) {
    && EvalStream(k, x, f, st).Ok?
    && forall m: nat :: EvalStream(m, x, f, st).Ok? ==> EvalStream(m, x, f, st) == EvalStream(k, x, f, st)
  }

  lemma OneValue(k: nat, x: Stream, f: nat, st: Store)
    requires EvalStream(k, x, f, st).Ok?
    ensures ValueAt(k, x, f, st)
  {
    hide EvalStream;
    forall m: nat | EvalStream(m, x, f, st).Ok? ensures EvalStream(m, x, f, st) == EvalStream(k, x, f, st) {
      if m <= k { Fuel.StreamFuel(m, k, x, f, st); } else { Fuel.StreamFuel(k, m, x, f, st); }
    }
  }

  ghost predicate ComesToEnd(code: seq<Item>, s: State, t: State) { Reaches(code, s, t) && t.Ok() && t.Ip() == |code| }

  /** Code that has come to its end with x still to be evaluated at s has a value of x. */
  lemma EndHasValue(code: seq<Item>, x: Stream, tail: bool, l: nat, f: nat, st: Store, s: State, r: nat, t: State)
    returns (k: nat)
    requires Live(code, s, st, f, tail, r) && Formed(x) && CodeAt(code, s.Ip(), EmitStream(x, tail, l).code)
    requires ComesToEnd(code, s, t)
    ensures ValueAt(k, x, f, st)
  {
    hide Live, CodeAt, Lost, EmitStream, EvalStream, Formed, ValueAt;
    var n: nat :| Iterate(Stepper(code), s, n) == Some(t);
    EndNotLost(code, s, n, t);
    k := n + 1;
    if EvalStream(k, x, f, st).Fail? { LoseStream(code, x, tail, l, k, f, st, s, r); }
    OneValue(k, x, f, st);
  }

  /** A compiled program that comes to its end has a value, and has it on the stack: the evaluator
      gives that one with some bound on nested calls, and no other with any bound. */
  lemma ProgramEnds(prog: Stream, t: State) returns (k: nat, w: Value)
    requires Formed(prog) && ComesToEnd(EmitStream(prog, false, 0).code, Start(), t)
    ensures ValueAt(k, prog, 0, Theorems.GLOBAL)
    ensures var code := EmitStream(prog, false, 0).code; var res := EvalStream(k, prog, 0, Theorems.GLOBAL);
      && t.stack == On(w, Bottom)
      && ValRep(code, t.envs, t.cur, res.st, res.v, w) && StoreRep(code, res.st, t)
  {
    hide Reaches, EmitStream, EvalStream, ValRep, VarsRep, StoreRep, Live, CodeAt, Lost, Checked;
    var g := Compiled(prog, 0);
    var code := g.code;
    CheckedCalm(g);
    Labels.EmittedLabels(prog, false, 0);
    StartLive(code);
    WholeCode(code);
    k := EndHasValue(code, prog, false, 0, 0, Theorems.GLOBAL, Start(), 0, t);
    var u;
    u, w := Theorems.ProgramCorrect(prog, k);
    OneEnd(code, Start(), t, u);
  }

  lemma WholeCode(code: seq<Item>)
    ensures CodeAt(code, Start().Ip(), code)
  {
    assert code[0..|code|] == code;
  }

  /** A compiled program comes to its end if and only if the evaluator gives it a value. */
  lemma ProgramAdequate(prog: Stream)
    requires Formed(prog)
    ensures HasValue(prog, 0, Theorems.GLOBAL) <==> exists t :: ComesToEnd(EmitStream(prog, false, 0).code, Start(), t)
  {
    hide Reaches, EmitStream, EvalStream, ValRep, StoreRep;
    var code := EmitStream(prog, false, 0).code;
    if HasValue(prog, 0, Theorems.GLOBAL) {
      var k: nat :| EvalStream(k, prog, 0, Theorems.GLOBAL).Ok?;
      var t, w := Theorems.ProgramCorrect(prog, k);
      assert ComesToEnd(code, Start(), t);
    }
    if exists t :: ComesToEnd(code, Start(), t) {
      var t :| ComesToEnd(code, Start(), t);
      var k, w := ProgramEnds(prog, t);
    }
  }

  // ---------- tail positions ----------

  /** About to run x in a frame whose caller stops as soon as it is handed a value: the return goes
      to the end of the code. */
  ghost predicate LastCall(code: seq<Item>, x: Stream, tail: bool, l: nat, f: nat, st: Store, s: State, r: nat) {
    Formed(x) && Live(code, s, st, f, true, r) && s.envs[r].ip == |code|
    && CodeAt(code, s.Ip(), EmitStream(x, tail, l).code + [Do(Swap), Do(Ret)])
  }

  /** The caller is handed a value if and only if x has one, whether its code is that of a tail
      position or not. */
  lemma ReturnAdequate(code: seq<Item>, x: Stream, tail: bool, l: nat, f: nat, st: Store, s: State, r: nat)
    requires LastCall(code, x, tail, l, f, st, s, r)
    ensures HasValue(x, f, st) <==> exists t :: ComesToEnd(code, s, t)
    ensures forall t :: ComesToEnd(code, s, t) ==> HandedValue(code, x, f, st, s, t)
  {
    hide Reaches, EmitStream, EvalStream, Returned, Sim, CodeAt;
    if HasValue(x, f, st) {
      var k: nat :| EvalStream(k, x, f, st).Ok?;
      var t, w := TailCalls.ValueReturns(code, x, tail, l, k, f, st, s, r);
      ReturnedEnd(code, s, t, st, EvalStream(k, x, f, st).st, r, s.stack.rest, w);
      assert ComesToEnd(code, s, t);
    }
    forall t | ComesToEnd(code, s, t) ensures HasValue(x, f, st) && HandedValue(code, x, f, st, s, t) {
      HandsValue(code, x, tail, l, f, st, s, r, t);
    }
  }

  lemma ReturnedEnd(code: seq<Item>, s: State, t: State, st: Store, st': Store, r: nat, base: Stack, w: Value)
    requires Returned(code, s, t, st, st', r, base, w) && s.envs[r].ip == |code|
    ensures Reaches(code, s, t) && t.Ok() && t.Ip() == |code| && t.stack == On(w, base) && StoreRep(code, st', t)
  {
  }

  /** The caller has the only value of x on top of its own stack, and the tables hold the variables. */
  ghost predicate HandedValue(code: seq<Item>, x: Stream, f: nat, st: Store, s: State, t: State) {
    exists k: nat :: ValueAt(k, x, f, st) && Handed(code, EvalStream(k, x, f, st), s, t)
  }

  ghost predicate Handed(code: seq<Item>, res: Result, s: State, t: State) {
    && res.Ok? && s.stack.On? && t.stack.On? && t.stack.rest == s.stack.rest
    && ValRep(code, t.envs, t.cur, res.st, res.v, t.stack.top) && StoreRep(code, res.st, t)
  }

  lemma HandsValue(code: seq<Item>, x: Stream, tail: bool, l: nat, f: nat, st: Store, s: State, r: nat, t: State)
    requires LastCall(code, x, tail, l, f, st, s, r) && ComesToEnd(code, s, t)
    ensures HasValue(x, f, st) && HandedValue(code, x, f, st, s, t)
  {
    hide Reaches, EmitStream, EvalStream, Returned, CodeAt, Sim, ValRep, StoreRep, NoHandler, Calm, FormedStore, Formed;
    LiveStart(code, s, st, f, true, r);
    CodeAtSplit(code, s.Ip(), EmitStream(x, tail, l).code, [Do(Swap), Do(Ret)]);
    var k := EndHasValue(code, x, tail, l, f, st, s, if tail then r else 0, t);
    var u, w := TailCalls.ValueReturns(code, x, tail, l, k, f, st, s, r);
    ReturnedEnd(code, s, u, st, EvalStream(k, x, f, st).st, r, s.stack.rest, w);
    OneEnd(code, s, t, u);
    assert Handed(code, EvalStream(k, x, f, st), s, t);
  }

  /** Tail positions again, for every x: with both forms of its code in the program, from the same
      frame, either both hand the caller a value or neither does, and they do if and only if x has a
      value. */
  lemma TailAdequate(code: seq<Item>, x: Stream, l1: nat, l2: nat, f: nat, st: Store, s: State, r: nat, p2: int)
    requires LastCall(code, x, true, l1, f, st, s, r)
    requires CodeAt(code, p2, EmitStream(x, false, l2).code + [Do(Swap), Do(Ret)])
    ensures HasValue(x, f, st) <==> exists t :: ComesToEnd(code, s, t)
    ensures var s2 := Moved(s, s.stack, p2); HasValue(x, f, st) <==> exists t :: ComesToEnd(code, s2, t)
    ensures forall t :: ComesToEnd(code, s, t) ==> HandedValue(code, x, f, st, s, t)
    ensures forall t :: ComesToEnd(code, Moved(s, s.stack, p2), t) ==> HandedValue(code, x, f, st, s, t)
  {
    hide Reaches, EmitStream, EvalStream, ComesToEnd, CodeAt, ValRep, StoreRep, Formed, HasValue;
    var s2 := Moved(s, s.stack, p2);
    ReturnAdequate(code, x, true, l1, f, st, s, r);
    TailCalls.MovedReady(code, s, st, f, r, p2);
    assert NoHandler(s2.envs);
    ReturnAdequate(code, x, false, l2, f, st, s2, r);
  }
}
