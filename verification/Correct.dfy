/** Compiler correctness: whatever value the evaluator gives a tree, the machine running the
    tree's code pushes that value on the unchanged stack with the same bindings; in a tail
    position it may instead already have returned the value to the caller. */
module Correct {
  import opened Machine
  import opened Syntax
  import opened Code
  import opened Emit
  import opened Eval
  import opened Simulation
  import opened Stages
  import Arithmetic

  ghost predicate Ready(code: seq<Item>, s: State, st: Store, f: nat, tail: bool, r: nat) {
    UniqueLabels(code) && Sim(code, st, f, s) && TailReady(s, tail, r)
  }

  ghost predicate Yields(code: seq<Item>, s: State, t: State, st: Store, res: Result, f: nat, tail: bool, r: nat,
                         w: Value, q: int) {
    && res.Ok?
    && Ends(code, s, t, st, res.st, f, tail, r, w, q)
    && ValRep(code, t.envs, t.cur, res.st, res.v, w)
  }

  ghost predicate NodeYields(code: seq<Item>, s: State, t: State, st: Store, res: Result, f: nat, tail: bool, r: nat,
                             n: Node, w: Value, q: int) {
    if Pushes(n) then Yields(code, s, t, st, res, f, tail, r, w, q)
    else res.Ok? && res.v == SEmpty && Stage(code, s, t, st, res.st, f, s.stack, q)
  }

  lemma StageReady(code: seq<Item>, s: State, t: State, st: Store, st': Store, f: nat, p: int, tail: bool, r: nat)
    requires Ready(code, s, st, f, tail, r) && Stage(code, s, t, st, st', f, s.stack, p)
    ensures Ready(code, t, st', f, tail, r) && t.Ok() && t.Ip() == p && t.stack == s.stack
  {
    hide Exec, Stepper, Reaches;
  }

  /** Outside tail positions code ends by falling through. */
  lemma YieldsStage(code: seq<Item>, s: State, t: State, st: Store, res: Result, f: nat, r: nat, w: Value, q: int)
    requires Yields(code, s, t, st, res, f, false, r, w, q)
    ensures Stage(code, s, t, st, res.st, f, On(w, s.stack), q)
    ensures ValRep(code, t.envs, t.cur, res.st, res.v, w)
  {
  }

  lemma ReadyStart(code: seq<Item>, s: State, st: Store, f: nat, tail: bool, r: nat)
    requires Ready(code, s, st, f, tail, r)
    ensures s.Ok() && Sim(code, st, f, s) && UniqueLabels(code) && TailReady(s, tail, r)
      && Ready(code, s, st, f, false, 0)
    ensures Stage(code, s, s, st, st, f, s.stack, s.Ip())
  {
    StageRefl(code, s, st, f);
  }

  lemma YieldsAfter(code: seq<Item>, s: State, t: State, u: State, st: Store, st1: Store, res: Result, f: nat, p: int,
                    tail: bool, r: nat, w: Value, q: int)
    requires Stage(code, s, t, st, st1, f, s.stack, p) && Yields(code, t, u, st1, res, f, tail, r, w, q)
    requires TailReady(s, tail, r)
    ensures Yields(code, s, u, st, res, f, tail, r, w, q)
  {
    EndsAfter(code, s, t, u, st, st1, res.st, f, p, tail, r, w, q);
  }

  /** Outside tail positions any stack will do. */
  lemma StageReadyAny(code: seq<Item>, s: State, t: State, st: Store, st': Store, f: nat, k: Stack, p: int)
    requires UniqueLabels(code) && Stage(code, s, t, st, st', f, k, p)
    ensures Ready(code, t, st', f, false, 0) && t.Ok() && t.Ip() == p && t.stack == k
  {
    hide Exec, Stepper, Reaches;
  }

  /** Values stay represented over a stage. */
  lemma ValKept(code: seq<Item>, s: State, t: State, st: Store, st': Store, f: nat, k: Stack, p: int, v: Val, w: Value)
    requires Stage(code, s, t, st, st', f, k, p) && ValRep(code, s.envs, s.cur, st, v, w)
    ensures ValRep(code, t.envs, t.cur, st', v, w)
  {
    hide Exec, Stepper, Reaches;
    ValMono(code, s, t, st, st', v, w);
  }

  /** A pure instruction at the start of a value's code. */
  lemma PushLit(code: seq<Item>, s: State, st: Store, f: nat, l: Lit) returns (t: State)
    requires Sim(code, st, f, s) && CodeAt(code, s.Ip(), [Put(l)])
    ensures Stage(code, s, t, st, st, f, On(LitValue(l), s.stack), s.Ip() + 1)
    ensures ValRep(code, t.envs, t.cur, st, LitVal(l), LitValue(l))
  {
    hide Exec, Stepper, Reaches, Grows, StoreRep, EnvRep;
    assert [Put(l)] == [Put(l)] + [];
    CodeAtHead(code, s.Ip(), Put(l), []);
    StageRefl(code, s, st, f);
    t := StagePure(code, s, s, st, st, f, s.stack, s.Ip(), On(LitValue(l), s.stack));
  }

  lemma RunStream(code: seq<Item>, x: Stream, tail: bool, l: nat, k: nat, f: nat, st: Store, s: State, r: nat)
    returns (t: State, w: Value)
    requires Ready(code, s, st, f, tail, r) && EvalStream(k, x, f, st).Ok?
    requires CodeAt(code, s.Ip(), EmitStream(x, tail, l).code)
    ensures Yields(code, s, t, st, EvalStream(k, x, f, st), f, tail, r, w, s.Ip() + |EmitStream(x, tail, l).code|)
    decreases 2 * k, x, 3
  {
    hide Exec, Stepper, Reaches, Grows, StoreRep, EnvRep, ValRep, Returned, Stage, Ends, Sim, Ready, CodeAt;
    hide UniqueLabels;
    ReadyStart(code, s, st, f, tail, r);
    match x
    case End =>
      t := PushLit(code, s, st, f, LitEmpty);
      w := Empty;
      StageYields(code, s, t, st, Ok(SEmpty, st), f, tail, r, w, s.Ip() + 1);
    case Seq(n, rest) =>
      if rest.End? {
        t, w := RunValue(code, n, tail, l, k, f, st, s, r);
      } else {
        var a := EmitNode(n, false, l);
        var d := if Pushes(n) then [Do(Drop)] else [];
        var b := EmitStream(rest, tail, a.next);
        CodeAtSplit(code, s.Ip(), a.code, d + b.code);
        CodeAtSplit(code, s.Ip() + |a.code|, d, b.code);
        var t1 := RunDropped(code, n, l, k, f, st, s);
        var st1 := EvalNode(k, n, f, st).st;
        var p := s.Ip() + |a.code| + |d|;
        StageReady(code, s, t1, st, st1, f, p, tail, r);
        t, w := RunStream(code, rest, tail, a.next, k, f, st1, t1, r);
        YieldsAfter(code, s, t1, t, st, st1, EvalStream(k, rest, f, st1), f, p, tail, r, w, p + |b.code|);
      }
  }

  lemma StageYields(code: seq<Item>, s: State, t: State, st: Store, res: Result, f: nat, tail: bool, r: nat, w: Value,
                    q: int)
    requires res.Ok? && Stage(code, s, t, st, res.st, f, On(w, s.stack), q)
      && ValRep(code, t.envs, t.cur, res.st, res.v, w)
    ensures Yields(code, s, t, st, res, f, tail, r, w, q)
  {
  }

  /** A node whose value is not wanted. */
  lemma RunDropped(code: seq<Item>, n: Node, l: nat, k: nat, f: nat, st: Store, s: State)
    returns (t: State)
    requires Ready(code, s, st, f, false, 0) && EvalNode(k, n, f, st).Ok?
    requires CodeAt(code, s.Ip(), EmitNode(n, false, l).code)
    requires CodeAt(code, s.Ip() + |EmitNode(n, false, l).code|, if Pushes(n) then [Do(Drop)] else [])
    ensures Stage(code, s, t, st, EvalNode(k, n, f, st).st, f, s.stack,
                  s.Ip() + |EmitNode(n, false, l).code| + if Pushes(n) then 1 else 0)
    decreases 2 * k, n, 2
  {
    hide Exec, Stepper, Reaches, Grows, StoreRep, EnvRep, ValRep, Returned, Stage, Ends, Sim, Ready;
    hide UniqueLabels, EvalNode, EmitNode, CodeAt, Pushes;
    ReadyStart(code, s, st, f, false, 0);
    var p := s.Ip() + |EmitNode(n, false, l).code|;
    var w;
    t, w := RunNode(code, n, false, l, k, f, st, s, 0);
    if Pushes(n) {
      YieldsStage(code, s, t, st, EvalNode(k, n, f, st), f, 0, w, p);
      assert [Do(Drop)] == [Do(Drop)] + [];
      CodeAtHead(code, p, Do(Drop), []);
      t := StagePure(code, s, t, st, EvalNode(k, n, f, st).st, f, On(w, s.stack), p, s.stack);
    }
  }

  lemma RunValue(code: seq<Item>, n: Node, tail: bool, l: nat, k: nat, f: nat, st: Store, s: State, r: nat)
    returns (t: State, w: Value)
    requires Ready(code, s, st, f, tail, r) && EvalNode(k, n, f, st).Ok?
    requires CodeAt(code, s.Ip(), EmitValue(n, tail, l).code)
    ensures Yields(code, s, t, st, EvalNode(k, n, f, st), f, tail, r, w, s.Ip() + |EmitValue(n, tail, l).code|)
    decreases 2 * k, n, 2
  {
    hide Exec, Stepper, Reaches, Grows, StoreRep, EnvRep, Returned, Stage, Ends, Sim, Ready, CodeAt;
    hide UniqueLabels, EvalNode, EmitNode;
    ReadyStart(code, s, st, f, tail, r);
    var a := EmitNode(n, tail, l);
    var d := if Pushes(n) then [] else [Put(LitEmpty)];
    CodeAtSplit(code, s.Ip(), a.code, d);
    t, w := RunNode(code, n, tail, l, k, f, st, s, r);
    if !Pushes(n) {
      CodeAtHead(code, s.Ip() + |a.code|, Put(LitEmpty), []) by { assert d == [Put(LitEmpty)] + []; }
      w := Empty;
      t := StagePure(code, s, t, st, EvalNode(k, n, f, st).st, f, s.stack, s.Ip() + |a.code|, On(Empty, s.stack));
      StageYields(code, s, t, st, EvalNode(k, n, f, st), f, tail, r, w, s.Ip() + |a.code| + 1);
    }
  }

  lemma RunNode(code: seq<Item>, n: Node, tail: bool, l: nat, k: nat, f: nat, st: Store, s: State, r: nat)
    returns (t: State, w: Value)
    requires Ready(code, s, st, f, tail, r) && EvalNode(k, n, f, st).Ok?
    requires CodeAt(code, s.Ip(), EmitNode(n, tail, l).code)
    ensures NodeYields(code, s, t, st, EvalNode(k, n, f, st), f, tail, r, n, w, s.Ip() + |EmitNode(n, tail, l).code|)
    decreases 2 * k, n, 1
  {
    hide Exec, Stepper, Reaches, Grows, StoreRep, EnvRep, ValRep, Returned, Stage, Ends, Sim, Ready, CodeAt;
    hide UniqueLabels;
    hide EvalNode, EmitNode, Yields;
    match n
    case LiteralNode(_) => t, w := RunLiteral(code, n, tail, l, k, f, st, s, r);
    case Quoted(_) => t, w := RunQuote(code, n, tail, l, k, f, st, s, r);
    case Load(_) => t, w := RunLoad(code, n, tail, l, k, f, st, s, r);
    case BindNode(_, _) => t := RunWrite(code, n, tail, l, k, f, st, s, r); w := Empty;
    case StoreNode(_, _) => t := RunWrite(code, n, tail, l, k, f, st, s, r); w := Empty;
    case MathNode(_, _, _) => t, w := RunMath(code, n, tail, l, k, f, st, s, r);
    case If(_, _, _) => t, w := RunIf(code, n, tail, l, k, f, st, s, r);
    case Cond(_) => t, w := RunCond(code, n, tail, l, k, f, st, s, r);
    case And(_) => t, w := RunLogic(code, n, tail, l, k, f, st, s, r);
    case Or(_) => t, w := RunLogic(code, n, tail, l, k, f, st, s, r);
    case Lambda(_, _) => t, w := RunLambda(code, n, tail, l, k, f, st, s, r);
    case Apply(_, _) => t, w := RunApply(code, n, tail, l, k, f, st, s, r);
    case LetStar(_, _) => t, w := RunLet(code, n, tail, l, k, f, st, s, r);
    case RecordType(_) => t, w := RunRecord(code, n, tail, l, k, f, st, s, r);
  }

  lemma RunLiteral(code: seq<Item>, n: Node, tail: bool, l: nat, k: nat, f: nat, st: Store, s: State, r: nat)
    returns (t: State, w: Value)
    requires Ready(code, s, st, f, tail, r) && n.LiteralNode?
    requires CodeAt(code, s.Ip(), EmitNode(n, tail, l).code)
    ensures Yields(code, s, t, st, EvalNode(k, n, f, st), f, tail, r, w, s.Ip() + |EmitNode(n, tail, l).code|)
    decreases 2 * k, n, 0
  {
    hide Exec, Stepper, Reaches, Grows, StoreRep, EnvRep, ValRep, Returned, Stage, Ends, Sim, Ready, CodeAt;
    hide UniqueLabels;
    ReadyStart(code, s, st, f, tail, r);
    t := PushLit(code, s, st, f, n.lit);
    w := LitValue(n.lit);
    StageYields(code, s, t, st, EvalNode(k, n, f, st), f, tail, r, w, s.Ip() + 1);
  }

  lemma RunQuote(code: seq<Item>, n: Node, tail: bool, l: nat, k: nat, f: nat, st: Store, s: State, r: nat)
    returns (t: State, w: Value)
    requires Ready(code, s, st, f, tail, r) && n.Quoted? && EvalNode(k, n, f, st).Ok?
    requires CodeAt(code, s.Ip(), EmitNode(n, tail, l).code)
    ensures Yields(code, s, t, st, EvalNode(k, n, f, st), f, tail, r, w, s.Ip() + |EmitNode(n, tail, l).code|)
    decreases 2 * k, n, 0
  {
    hide Exec, Stepper, Reaches, Grows, StoreRep, EnvRep, ValRep, Returned, Stage, Ends, Sim, Ready, CodeAt;
    hide UniqueLabels;
    ReadyStart(code, s, st, f, tail, r);
    t, w := RunQuoted(code, n.datum, f, st, s);
    StageYields(code, s, t, st, EvalNode(k, n, f, st), f, tail, r, w, s.Ip() + |EmitQuoted(n.datum, false)|);
  }

  /** The code of one quoted node. */
  function QuotedCode(n: Node): seq<Item>
    requires n.LiteralNode? || n.Quoted?
  {
    if n.LiteralNode? then [Put(n.lit)] else EmitQuoted(n.datum, false)
  }

  lemma RunQuoted(code: seq<Item>, d: Stream, f: nat, st: Store, s: State)
    returns (t: State, w: Value)
    requires UniqueLabels(code) && Sim(code, st, f, s) && WellQuoted(d)
    requires CodeAt(code, s.Ip(), EmitQuoted(d, false))
    ensures Stage(code, s, t, st, st, f, On(w, s.stack), s.Ip() + |EmitQuoted(d, false)|)
    ensures ValRep(code, t.envs, t.cur, st, QuotedNode(Quoted(d)), w)
    decreases d, 1
  {
    hide Exec, Stepper, Reaches, Grows, StoreRep, EnvRep, ValRep, Stage, CodeAt, UniqueLabels;
    var c := QuotedCode(d.head);
    assert EmitQuoted(d, false) == c + ([] + EmitQuoted(d.next, true));
    assert [] + EmitQuoted(d.next, true) == EmitQuoted(d.next, true);
    CodeAtSplit(code, s.Ip(), c, EmitQuoted(d.next, true));
    var t1, w1 := RunQuotedNode(code, d.head, f, st, s);
    t, w := RunQuotedRest(code, d.next, f, st, s, t1, QuotedNode(d.head), w1, s.Ip() + |c|);
  }

  lemma RunQuotedNode(code: seq<Item>, n: Node, f: nat, st: Store, s: State)
    returns (t: State, w: Value)
    requires UniqueLabels(code) && Sim(code, st, f, s)
    requires n.LiteralNode? || (n.Quoted? && WellQuoted(n.datum))
    requires CodeAt(code, s.Ip(), QuotedCode(n))
    ensures Stage(code, s, t, st, st, f, On(w, s.stack), s.Ip() + |QuotedCode(n)|)
    ensures ValRep(code, t.envs, t.cur, st, QuotedNode(n), w)
    decreases n, 0
  {
    hide Exec, Stepper, Reaches, Grows, StoreRep, EnvRep, ValRep, Stage, CodeAt, UniqueLabels;
    if n.LiteralNode? {
      t := PushLit(code, s, st, f, n.lit);
      w := LitValue(n.lit);
    } else {
      t, w := RunQuoted(code, n.datum, f, st, s);
    }
  }

  lemma QuotedRestCode(d: Stream)
    requires d.Seq? ==> d.head.LiteralNode? || d.head.Quoted?
    ensures d.End? ==> EmitQuoted(d, true) == []
    ensures d.Seq? ==> EmitQuoted(d, true) == QuotedCode(d.head) + ([Do(Cons)] + EmitQuoted(d.next, true))
  {
  }

  lemma RunQuotedRest(code: seq<Item>, d: Stream, f: nat, st: Store, s: State, t1: State, acc: Val, w1: Value, p: int)
    returns (t: State, w: Value)
    requires UniqueLabels(code) && (d.End? || WellQuoted(d)) && CodeAt(code, p, EmitQuoted(d, true))
    requires Stage(code, s, t1, st, st, f, On(w1, s.stack), p) && ValRep(code, t1.envs, t1.cur, st, acc, w1)
    ensures Stage(code, s, t, st, st, f, On(w, s.stack), p + |EmitQuoted(d, true)|)
    ensures ValRep(code, t.envs, t.cur, st, QuotedFold(d, acc), w)
    decreases d, 0
  {
    hide Exec, Stepper, Reaches, Grows, StoreRep, EnvRep, ValRep, Stage, CodeAt, UniqueLabels, Ready;
    hide EmitQuoted, QuotedCode, QuotedNode;
    QuotedRestCode(d);
    if d.End? {
      t, w := t1, w1;
    } else {
      var c := QuotedCode(d.head);
      var rest := EmitQuoted(d.next, true);
      CodeAtSplit(code, p, c, [Do(Cons)] + rest);
      CodeAtHead(code, p + |c|, Do(Cons), rest);
      var t3, w2 := RunQuotedStep(code, d.head, f, st, s, t1, acc, w1, p);
      t, w := RunQuotedRest(code, d.next, f, st, s, t3, SPair(QuotedNode(d.head), acc), Pair(w2, w1), p + |c| + 1);
    }
  }

  /** One more node of a quoted list, consed onto what precedes it. */
  lemma RunQuotedStep(code: seq<Item>, n: Node, f: nat, st: Store, s: State, t1: State, acc: Val, w1: Value, p: int)
    returns (t: State, w: Value)
    requires UniqueLabels(code) && (n.LiteralNode? || (n.Quoted? && WellQuoted(n.datum)))
      && CodeAt(code, p, QuotedCode(n))
    requires 0 <= p + |QuotedCode(n)| < |code| && code[p + |QuotedCode(n)|] == Do(Cons)
    requires Stage(code, s, t1, st, st, f, On(w1, s.stack), p) && ValRep(code, t1.envs, t1.cur, st, acc, w1)
    ensures Stage(code, s, t, st, st, f, On(Pair(w, w1), s.stack), p + |QuotedCode(n)| + 1)
    ensures ValRep(code, t.envs, t.cur, st, SPair(QuotedNode(n), acc), Pair(w, w1))
    decreases n, 1
  {
    hide Exec, Stepper, Reaches, Grows, StoreRep, EnvRep, ValRep, Stage, CodeAt, UniqueLabels, Ready;
    hide QuotedCode, QuotedNode;
    var c := QuotedCode(n);
    StageReadyAny(code, s, t1, st, st, f, On(w1, s.stack), p);
    ReadyStart(code, t1, st, f, false, 0);
    var t2, w2 := RunQuotedNode(code, n, f, st, t1);
    ValKept(code, t1, t2, st, st, f, On(w2, t1.stack), p + |c|, acc, w1);
    var k2 := On(w2, On(w1, s.stack));
    StageTrans(code, s, t1, t2, st, st, st, f, On(w1, s.stack), p, k2, p + |c|);
    t := StagePure(code, s, t2, st, st, f, k2, p + |c|, On(Pair(w2, w1), s.stack));
    w := w2;
    PairRep(code, t2, st, QuotedNode(n), w2, acc, w1);
    ValMono(code, t2, t, st, st, SPair(QuotedNode(n), acc), Pair(w2, w1));
  }

  lemma RunLoad(code: seq<Item>, n: Node, tail: bool, l: nat, k: nat, f: nat, st: Store, s: State, r: nat)
    returns (t: State, w: Value)
    requires Ready(code, s, st, f, tail, r) && n.Load? && EvalNode(k, n, f, st).Ok?
    requires CodeAt(code, s.Ip(), EmitNode(n, tail, l).code)
    ensures Yields(code, s, t, st, EvalNode(k, n, f, st), f, tail, r, w, s.Ip() + |EmitNode(n, tail, l).code|)
    decreases 2 * k, n, 0
  {
    hide Exec, Stepper, Reaches, Grows, StoreRep, EnvRep, Stage, Ends, Sim, Ready, CodeAt, UniqueLabels;
    ReadyStart(code, s, st, f, tail, r);
    var c := EmitStream(n.name, false, l);
    var p := s.Ip() + |c.code|;
    CodeAtSplit(code, s.Ip(), c.code, [Do(Read)]);
    assert [Do(Read)] == [Do(Read)] + [];
    CodeAtHead(code, p, Do(Read), []);
    var t1, w1 := RunStream(code, n.name, false, l, k, f, st, s, 0);
    var res := EvalStream(k, n.name, f, st);
    YieldsStage(code, s, t1, st, res, f, 0, w1, p);
    t, w := StageRead(code, s, t1, st, res.st, f, res.v.name, s.stack, p, FindFrame(res.st, f, res.v.name).value);
    StageYields(code, s, t, st, EvalNode(k, n, f, st), f, tail, r, w, p + 1);
  }

  /** Two operands leave the second above the first. */
  lemma RunPair(code: seq<Item>, n: Node, a: Stream, b: Stream, l: nat, k: nat, f: nat, st: Store, s: State)
    returns (t: State, w1: Value, w2: Value)
    requires Ready(code, s, st, f, false, 0) && a < n && b < n && EvalPair(k, n, a, b, f, st).Ok?
    requires CodeAt(code, s.Ip(), EmitStream(a, false, l).code)
    requires CodeAt(code, s.Ip() + |EmitStream(a, false, l).code|,
                    EmitStream(b, false, EmitStream(a, false, l).next).code)
    ensures var ca := EmitStream(a, false, l);
      var cb := EmitStream(b, false, ca.next);
      var res := EvalPair(k, n, a, b, f, st);
      && Stage(code, s, t, st, res.st, f, On(w2, On(w1, s.stack)), s.Ip() + |ca.code| + |cb.code|)
      && res.v.SPair?
      && ValRep(code, t.envs, t.cur, res.st, res.v.car, w1) && ValRep(code, t.envs, t.cur, res.st, res.v.cdr, w2)
    decreases 2 * k, n, 0, 0
  {
    hide Exec, Stepper, Reaches, Grows, StoreRep, EnvRep, ValRep, Stage, Ends, Sim, Ready, CodeAt;
    hide UniqueLabels, EmitStream, EvalStream;
    ReadyStart(code, s, st, f, false, 0);
    var ca := EmitStream(a, false, l);
    var cb := EmitStream(b, false, ca.next);
    var p := s.Ip() + |ca.code|;
    var r1 := EvalStream(k, a, f, st);
    var r2 := EvalStream(k, b, f, r1.st);
    var t1;
    t1, w1 := RunStream(code, a, false, l, k, f, st, s, 0);
    YieldsStage(code, s, t1, st, r1, f, 0, w1, p);
    StageReadyAny(code, s, t1, st, r1.st, f, On(w1, s.stack), p);
    t, w2 := RunStream(code, b, false, ca.next, k, f, r1.st, t1, 0);
    YieldsStage(code, t1, t, r1.st, r2, f, 0, w2, p + |cb.code|);
    ValKept(code, t1, t, r1.st, r2.st, f, On(w2, t1.stack), p + |cb.code|, r1.v, w1);
    StageTrans(code, s, t1, t, st, r1.st, r2.st, f, On(w1, s.stack), p, On(w2, On(w1, s.stack)), p + |cb.code|);
  }

  lemma DoublePlaced(code: seq<Item>, p: int, a: seq<Item>, b: seq<Item>, op: Op)
    requires CodeAt(code, p, a + (b + [Do(op)]))
    ensures CodeAt(code, p, a) && CodeAt(code, p + |a|, b)
    ensures 0 <= p + |a| + |b| < |code| && code[p + |a| + |b|] == Do(op)
  {
    CodeAtSplit(code, p, a, b + [Do(op)]);
    CodeAtSplit(code, p + |a|, b, [Do(op)]);
    assert [Do(op)] == [Do(op)] + [];
    CodeAtHead(code, p + |a| + |b|, Do(op), []);
  }

  lemma RunWrite(code: seq<Item>, n: Node, tail: bool, l: nat, k: nat, f: nat, st: Store, s: State, r: nat)
    returns (t: State)
    requires Ready(code, s, st, f, tail, r) && (n.BindNode? || n.StoreNode?) && EvalNode(k, n, f, st).Ok?
    requires CodeAt(code, s.Ip(), EmitNode(n, tail, l).code)
    ensures EvalNode(k, n, f, st).v == SEmpty
    ensures Stage(code, s, t, st, EvalNode(k, n, f, st).st, f, s.stack, s.Ip() + |EmitNode(n, tail, l).code|)
    decreases 2 * k, n, 0
  {
    hide Exec, Stepper, Reaches, Grows, StoreRep, EnvRep, Stage, Ends, Sim, Ready, CodeAt, UniqueLabels;
    ReadyStart(code, s, st, f, tail, r);
    var ca := EmitStream(n.value, false, l);
    var cb := EmitStream(n.name, false, ca.next);
    var op := if n.BindNode? then Bind else Set;
    DoublePlaced(code, s.Ip(), ca.code, cb.code, op);
    var res := EvalPair(k, n, n.value, n.name, f, st);
    var t1, w1, w2 := RunPair(code, n, n.value, n.name, l, k, f, st, s);
    var g := if n.BindNode? then f else FindFrame(res.st, f, res.v.cdr.name).value;
    t := StageWrite(code, s, t1, st, res.st, f, op, res.v.cdr.name, res.v.car, w1, s.stack,
                    s.Ip() + |ca.code| + |cb.code|, g);
  }

  lemma RunMath(code: seq<Item>, n: Node, tail: bool, l: nat, k: nat, f: nat, st: Store, s: State, r: nat)
    returns (t: State, w: Value)
    requires Ready(code, s, st, f, tail, r) && n.MathNode? && EvalNode(k, n, f, st).Ok?
    requires CodeAt(code, s.Ip(), EmitNode(n, tail, l).code)
    ensures Yields(code, s, t, st, EvalNode(k, n, f, st), f, tail, r, w, s.Ip() + |EmitNode(n, tail, l).code|)
    decreases 2 * k, n, 0
  {
    hide Exec, Stepper, Reaches, Grows, StoreRep, EnvRep, Stage, Ends, Sim, Ready, CodeAt, UniqueLabels;
    ReadyStart(code, s, st, f, tail, r);
    var ca := EmitStream(n.left, false, l);
    var cb := EmitStream(n.right, false, ca.next);
    var p := s.Ip() + |ca.code| + |cb.code|;
    DoublePlaced(code, s.Ip(), ca.code, cb.code, Math(n.op));
    var res := EvalPair(k, n, n.left, n.right, f, st);
    var t1, w1, w2 := RunPair(code, n, n.left, n.right, l, k, f, st, s);
    Arithmetic.MathAgrees(n.op, w1.i, w2.i);
    w := Arith(n.op, w1.i, w2.i).value;
    t := StagePure(code, s, t1, st, res.st, f, On(w2, On(w1, s.stack)), p, On(w, s.stack));
    StageYields(code, s, t, st, EvalNode(k, n, f, st), f, tail, r, w, p + 1);
  }

  /** Where the parts of an if sit. */
  ghost predicate IfLayout(code: seq<Item>, p: int, cc: Out, ce: Out, ct: Out, l: nat) {
    var p1 := p + |cc.code|;
    var p2 := p1 + 1 + |ce.code|;
    var p3 := p2 + 2 + |ct.code|;
    && CodeAt(code, p, cc.code) && CodeAt(code, p1 + 1, ce.code) && CodeAt(code, p2 + 2, ct.code)
    && 0 <= p1 && p3 < |code|
    && code[p1] == Go(Jnf, l) && code[p2] == Go(Jmp, l + 1) && code[p2 + 1] == Here(l) && code[p3] == Here(l + 1)
  }

  lemma IfPlaced(code: seq<Item>, p: int, cc: Out, ce: Out, ct: Out, l: nat)
    requires CodeAt(code, p, cc.code + ([Go(Jnf, l)]
                             + (ce.code + ([Go(Jmp, l + 1)] + ([Here(l)] + (ct.code + [Here(l + 1)]))))))
    ensures IfLayout(code, p, cc, ce, ct, l)
  {
    hide CodeAt;
    var p1 := p + |cc.code|;
    var p2 := p1 + 1 + |ce.code|;
    var p3 := p2 + 2 + |ct.code|;
    var c3 := [Here(l)] + (ct.code + [Here(l + 1)]);
    var c2 := ce.code + ([Go(Jmp, l + 1)] + c3);
    CodeAtSplit(code, p, cc.code, [Go(Jnf, l)] + c2);
    CodeAtHead(code, p1, Go(Jnf, l), c2);
    CodeAtSplit(code, p1 + 1, ce.code, [Go(Jmp, l + 1)] + c3);
    CodeAtHead(code, p2, Go(Jmp, l + 1), c3);
    CodeAtHead(code, p2 + 1, Here(l), ct.code + [Here(l + 1)]);
    CodeAtSplit(code, p2 + 2, ct.code, [Here(l + 1)]);
    assert [Here(l + 1)] == [Here(l + 1)] + [];
    CodeAtHead(code, p3, Here(l + 1), []);
  }

  lemma RunIf(code: seq<Item>, n: Node, tail: bool, l: nat, k: nat, f: nat, st: Store, s: State, r: nat)
    returns (t: State, w: Value)
    requires Ready(code, s, st, f, tail, r) && n.If? && EvalNode(k, n, f, st).Ok?
    requires CodeAt(code, s.Ip(), EmitNode(n, tail, l).code)
    ensures Yields(code, s, t, st, EvalNode(k, n, f, st), f, tail, r, w, s.Ip() + |EmitNode(n, tail, l).code|)
    decreases 2 * k, n, 0
  {
    hide Exec, Stepper, Reaches, Grows, StoreRep, EnvRep, ValRep, Returned, Stage, Ends, Sim, Ready, CodeAt;
    hide UniqueLabels;
    ReadyStart(code, s, st, f, tail, r);
    var cc := EmitStream(n.test, false, l + 2);
    var ce := EmitStream(n.onFalse, tail, cc.next);
    var ct := EmitStream(n.onTrue, tail, ce.next);
    var p1 := s.Ip() + |cc.code|;
    var p2 := p1 + 1 + |ce.code|;
    var p3 := p2 + 2 + |ct.code|;
    IfPlaced(code, s.Ip(), cc, ce, ct, l);
    var res := EvalStream(k, n.test, f, st);
    var t1, w1 := RunStream(code, n.test, false, l + 2, k, f, st, s, 0);
    YieldsStage(code, s, t1, st, res, f, 0, w1, p1);
    FalseRep(code, t1.envs, t1.cur, res.st, res.v, w1);
    var t2 := StageBranch(code, s, t1, st, res.st, f, w1, s.stack, p1, l, p2 + 1);
    if w1 == Bool(false) {
      t, w := RunArm(code, n.onFalse, tail, cc.next, k, f, st, res.st, s, t2, r, p1 + 1);
      t := YieldsJump(code, s, t, st, EvalStream(k, n.onFalse, f, res.st), f, tail, r, w, p2, l + 1, p3);
    } else {
      t2 := StagePure(code, s, t2, st, res.st, f, s.stack, p2 + 1, s.stack);
      t, w := RunArm(code, n.onTrue, tail, ce.next, k, f, st, res.st, s, t2, r, p2 + 2);
    }
    t := YieldsMark(code, s, t, st, EvalNode(k, n, f, st), f, tail, r, w, p3);
  }

  /** A stream that is the rest of a form already under way. */
  lemma RunArm(code: seq<Item>, x: Stream, tail: bool, l: nat, k: nat, f: nat, st: Store, st1: Store, s: State,
               t1: State, r: nat, p: int)
    returns (t: State, w: Value)
    requires Ready(code, s, st, f, tail, r) && EvalStream(k, x, f, st1).Ok?
      && Stage(code, s, t1, st, st1, f, s.stack, p)
    requires CodeAt(code, p, EmitStream(x, tail, l).code)
    ensures Yields(code, s, t, st, EvalStream(k, x, f, st1), f, tail, r, w, p + |EmitStream(x, tail, l).code|)
    decreases 2 * k, x, 4
  {
    hide Exec, Stepper, Reaches, Grows, StoreRep, EnvRep, ValRep, Returned, Stage, Ends, Sim, CodeAt;
    hide UniqueLabels, EvalStream, EmitStream;
    StageReady(code, s, t1, st, st1, f, p, tail, r);
    t, w := RunStream(code, x, tail, l, k, f, st1, t1, r);
    YieldsAfter(code, s, t1, t, st, st1, EvalStream(k, x, f, st1), f, p, tail, r, w, p + |EmitStream(x, tail, l).code|);
  }

  lemma YieldsJump(code: seq<Item>, s: State, t: State, st: Store, res: Result, f: nat, tail: bool, r: nat, w: Value,
                   p: int, l: nat, q: int)
    returns (u: State)
    requires Yields(code, s, t, st, res, f, tail, r, w, p)
    requires 0 <= p < |code| && code[p] == Go(Jmp, l)
    requires UniqueLabels(code) && 0 <= q < |code| && code[q] == Here(l)
    ensures Yields(code, s, u, st, res, f, tail, r, w, q)
  {
    u := EndsJump(code, s, t, st, res.st, f, tail, r, res.v, w, p, l, q);
  }

  lemma YieldsMark(code: seq<Item>, s: State, t: State, st: Store, res: Result, f: nat, tail: bool, r: nat, w: Value,
                   p: int)
    returns (u: State)
    requires Yields(code, s, t, st, res, f, tail, r, w, p)
    requires 0 <= p < |code| && code[p].Mark?
    ensures Yields(code, s, u, st, res, f, tail, r, w, p + 1)
  {
    u := EndsMark(code, s, t, st, res.st, f, tail, r, res.v, w, p);
  }

  // ---------- cond ----------

  lemma RunCond(code: seq<Item>, n: Node, tail: bool, l: nat, k: nat, f: nat, st: Store, s: State, r: nat)
    returns (t: State, w: Value)
    requires Ready(code, s, st, f, tail, r) && n.Cond? && EvalNode(k, n, f, st).Ok?
    requires CodeAt(code, s.Ip(), EmitNode(n, tail, l).code)
    ensures Yields(code, s, t, st, EvalNode(k, n, f, st), f, tail, r, w, s.Ip() + |EmitNode(n, tail, l).code|)
    decreases 2 * k, n, 0
  {
    hide Exec, Stepper, Reaches, Grows, StoreRep, EnvRep, ValRep, Returned, Stage, Ends, Sim, Ready, CodeAt;
    hide UniqueLabels;
    ReadyStart(code, s, st, f, tail, r);
    var a := EmitClauses(n.clauses, l, tail, l + 1);
    var p := s.Ip() + |a.code|;
    CodeAtSplit(code, s.Ip(), a.code, [Put(LitEmpty), Here(l)]);
    assert [Put(LitEmpty), Here(l)] == [Put(LitEmpty)] + [Here(l)];
    CodeAtSplit(code, p, [Put(LitEmpty)], [Here(l)]);
    assert [Here(l)] == [Here(l)] + [];
    CodeAtHead(code, p + 1, Here(l), []);
    t, w := RunClauses(code, n.clauses, l, tail, l + 1, k, f, st, s, r, p + 1);
    t := YieldsMark(code, s, t, st, EvalNode(k, n, f, st), f, tail, r, w, p + 1);
  }

  ghost predicate ClauseLayout(code: seq<Item>, p: int, ct: Out, cb: Out, cr: Out, done: nat) {
    var p1 := p + |ct.code|;
    var p2 := p1 + 2 + |cb.code|;
    && CodeAt(code, p, ct.code) && CodeAt(code, p1 + 2, cb.code) && CodeAt(code, p2 + 2, cr.code)
    && 0 <= p1 && p2 + 1 < |code|
    && code[p1] == Do(Not) && code[p1 + 1] == Go(Jnf, ct.next) && code[p2] == Go(Jmp, done)
    && code[p2 + 1] == Here(ct.next)
  }

  lemma TwoAhead(a: Item, b: Item, rest: seq<Item>)
    ensures [a, b] + rest == [a] + ([b] + rest)
  {
  }

  lemma ClausePlaced(code: seq<Item>, p: int, ct: Out, cb: Out, cr: Out, done: nat)
    requires CodeAt(code, p, ct.code + ([Do(Not), Go(Jnf, ct.next)]
                             + (cb.code + ([Go(Jmp, done), Here(ct.next)] + cr.code))))
    ensures ClauseLayout(code, p, ct, cb, cr, done)
  {
    hide CodeAt;
    var p1 := p + |ct.code|;
    var p2 := p1 + 2 + |cb.code|;
    var c2 := [Go(Jmp, done), Here(ct.next)] + cr.code;
    var c1 := [Do(Not), Go(Jnf, ct.next)] + (cb.code + c2);
    CodeAtSplit(code, p, ct.code, c1);
    CodeAtTwo(code, p1, Do(Not), Go(Jnf, ct.next), cb.code + c2);
    CodeAtSplit(code, p1 + 2, cb.code, c2);
    CodeAtTwo(code, p2, Go(Jmp, done), Here(ct.next), cr.code);
  }

  lemma CodeAtTwo(code: seq<Item>, p: int, a: Item, b: Item, rest: seq<Item>)
    requires CodeAt(code, p, [a, b] + rest)
    ensures 0 <= p && p + 1 < |code| && code[p] == a && code[p + 1] == b && CodeAt(code, p + 2, rest)
  {
    hide CodeAt;
    TwoAhead(a, b, rest);
    CodeAtHead(code, p, a, [b] + rest);
    CodeAtHead(code, p + 1, b, rest);
  }

  /** The clauses of a cond, ending at the address q of its done label. */
  /** `not jnf` after the test: into the body, or past it to the next clause. */
  lemma ClauseBranch(code: seq<Item>, s: State, t: State, st0: Store, st: Store, f: nat, w: Value, k: Stack, p: int,
                     ct: Out, cb: Out, cr: Out, done: nat)
    returns (u: State)
    requires UniqueLabels(code) && ClauseLayout(code, p, ct, cb, cr, done)
    requires Stage(code, s, t, st0, st, f, On(w, k), p + |ct.code|)
    ensures Stage(code, s, u, st0, st, f, k, p + |ct.code| + 2 + (if w == Bool(false) then |cb.code| + 2 else 0))
  {
    hide Exec, Stepper, Reaches, Grows, StoreRep, EnvRep, Stage, CodeAt, UniqueLabels;
    var p1, p2 := p + |ct.code|, p + |ct.code| + 2 + |cb.code|;
    var no := Bool(w == Bool(false));
    u := StagePure(code, s, t, st0, st, f, On(w, k), p1, On(no, k));
    u := StageBranch(code, s, u, st0, st, f, no, k, p1 + 1, ct.next, p2 + 1);
    if w == Bool(false) { u := StagePure(code, s, u, st0, st, f, k, p2 + 1, k); }
  }

  lemma RunClauses(code: seq<Item>, cs: Clauses, done: nat, tail: bool, l: nat, k: nat, f: nat, st: Store, s: State,
                   r: nat, q: int)
    returns (t: State, w: Value)
    requires Ready(code, s, st, f, tail, r) && EvalClauses(k, cs, f, st).Ok?
    requires CodeAt(code, s.Ip(), EmitClauses(cs, done, tail, l).code)
      && q == s.Ip() + |EmitClauses(cs, done, tail, l).code| + 1
    requires CodeAt(code, q - 1, [Put(LitEmpty)]) && 0 <= q < |code| && code[q] == Here(done)
    ensures Yields(code, s, t, st, EvalClauses(k, cs, f, st), f, tail, r, w, q)
    decreases 2 * k, cs
  {
    hide Exec, Stepper, Reaches, Grows, StoreRep, EnvRep, ValRep, Returned, Stage, Ends, Sim, Ready, CodeAt;
    hide UniqueLabels;
    hide EmitStream, EvalStream, Yields;
    ReadyStart(code, s, st, f, tail, r);
    match cs
    case NoClause =>
      t := PushLit(code, s, st, f, LitEmpty);
      w := Empty;
      StageYields(code, s, t, st, Ok(SEmpty, st), f, tail, r, w, q);
    case Clause(test, body, rest) =>
      var ct := EmitStream(test, false, l);
      var cb := EmitStream(body, tail, ct.next + 1);
      var cr := EmitClauses(rest, done, tail, cb.next);
      ClausePlaced(code, s.Ip(), ct, cb, cr, done);
      var p1 := s.Ip() + |ct.code|;
      var p2 := p1 + 2 + |cb.code|;
      var res := EvalStream(k, test, f, st);
      var t1, w1 := RunStream(code, test, false, l, k, f, st, s, 0);
      YieldsStage(code, s, t1, st, res, f, 0, w1, p1);
      FalseRep(code, t1.envs, t1.cur, res.st, res.v, w1);
      t1 := ClauseBranch(code, s, t1, st, res.st, f, w1, s.stack, s.Ip(), ct, cb, cr, done);
      if w1 == Bool(false) {
        StageReady(code, s, t1, st, res.st, f, p2 + 2, tail, r);
        t, w := RunClauses(code, rest, done, tail, cb.next, k, f, res.st, t1, r, q);
        YieldsAfter(code, s, t1, t, st, res.st, EvalClauses(k, rest, f, res.st), f, p2 + 2, tail, r, w, q);
      } else {
        t, w := RunArm(code, body, tail, ct.next + 1, k, f, st, res.st, s, t1, r, p1 + 2);
        t := YieldsJump(code, s, t, st, EvalStream(k, body, f, res.st), f, tail, r, w, p2, done, q);
      }
  }

  // ---------- and, or ----------

  lemma RunLogic(code: seq<Item>, n: Node, tail: bool, l: nat, k: nat, f: nat, st: Store, s: State, r: nat)
    returns (t: State, w: Value)
    requires Ready(code, s, st, f, tail, r) && (n.And? || n.Or?) && EvalNode(k, n, f, st).Ok?
    requires CodeAt(code, s.Ip(), EmitNode(n, tail, l).code)
    ensures Yields(code, s, t, st, EvalNode(k, n, f, st), f, tail, r, w, s.Ip() + |EmitNode(n, tail, l).code|)
    decreases 2 * k, n, 0
  {
    hide Exec, Stepper, Reaches, Grows, StoreRep, EnvRep, ValRep, Returned, Stage, Ends, Sim, Ready, CodeAt;
    hide UniqueLabels;
    hide EmitBool, EvalBool, Yields;
    ReadyStart(code, s, st, f, tail, r);
    var res := EvalNode(k, n, f, st);
    var q;
    if n.args.End? {
      var v := if n.And? then LitTrue else LitFalse;
      assert [Put(v), Here(l)] == [Put(v)] + [Here(l)];
      CodeAtSplit(code, s.Ip(), [Put(v)], [Here(l)]);
      q := s.Ip() + 1;
      t := PushLit(code, s, st, f, v);
      w := LitValue(v);
    } else {
      var a := EmitBool(n.args, n.And?, l, l + 1);
      CodeAtSplit(code, s.Ip(), a.code, [Here(l)]);
      q := s.Ip() + |a.code|;
      CodeAtHead(code, q, Here(l), []) by { assert [Here(l)] == [Here(l)] + []; }
      t, w := RunBool(code, n.args, n.And?, l, l + 1, k, f, st, s, q);
    }
    CodeAtHead(code, q, Here(l), []) by { assert [Here(l)] == [Here(l)] + []; }
    StageYields(code, s, t, st, res, f, tail, r, w, q);
    t := YieldsMark(code, s, t, st, res, f, tail, r, w, q);
  }

  lemma BoolPlaced(code: seq<Item>, p: int, conj: bool, done: nat, l: nat, rest: seq<Item>)
    requires CodeAt(code, p, BoolTest(conj, done, l).code + rest)
    ensures CodeAt(code, p + |BoolTest(conj, done, l).code|, rest)
    ensures p >= 0 && p + |BoolTest(conj, done, l).code| <= |code| && code[p] == Do(Dup)
    ensures conj ==>
      code[p + 1] == Go(Jnf, l) && code[p + 2] == Go(Jmp, done) && code[p + 3] == Here(l) && code[p + 4] == Do(Drop)
    ensures !conj ==> code[p + 1] == Go(Jnf, done) && code[p + 2] == Do(Drop)
  {
    var c := BoolTest(conj, done, l).code;
    CodeAtSplit(code, p, c, rest);
    assert forall i :: 0 <= i < |c| ==> code[p + i] == code[p..p + |c|][i] == c[i];
  }

  /** The arguments of and/or, ending at the address q of the done label. */
  lemma RunBool(code: seq<Item>, xs: Stream, conj: bool, done: nat, l: nat, k: nat, f: nat, st: Store, s: State, q: int)
    returns (t: State, w: Value)
    requires Ready(code, s, st, f, false, 0) && xs.Seq? && EvalBool(k, xs, conj, f, st).Ok?
    requires CodeAt(code, s.Ip(), EmitBool(xs, conj, done, l).code) && q == s.Ip() + |EmitBool(xs, conj, done, l).code|
    requires 0 <= q < |code| && code[q] == Here(done)
    ensures Stage(code, s, t, st, EvalBool(k, xs, conj, f, st).st, f, On(w, s.stack), q)
    ensures ValRep(code, t.envs, t.cur, EvalBool(k, xs, conj, f, st).st, EvalBool(k, xs, conj, f, st).v, w)
    decreases 2 * k, xs, 0
  {
    hide Exec, Stepper, Reaches, Grows, StoreRep, EnvRep, ValRep, Returned, Stage, Ends, Sim, Ready, CodeAt;
    hide UniqueLabels;
    hide EvalNode, EmitNode;
    ReadyStart(code, s, st, f, false, 0);
    var a := EmitValue(xs.head, false, l);
    var p := s.Ip() + |a.code|;
    var res := EvalNode(k, xs.head, f, st);
    if xs.next.End? {
      t, w := RunValue(code, xs.head, false, l, k, f, st, s, 0);
      YieldsStage(code, s, t, st, res, f, 0, w, p);
    } else {
      var b := BoolTest(conj, done, a.next);
      var c := EmitBool(xs.next, conj, done, b.next);
      CodeAtSplit(code, s.Ip(), a.code, b.code + c.code);
      BoolPlaced(code, p, conj, done, a.next, c.code);
      t, w := RunValue(code, xs.head, false, l, k, f, st, s, 0);
      YieldsStage(code, s, t, st, res, f, 0, w, p);
      FalseRep(code, t.envs, t.cur, res.st, res.v, w);
      var t1 := RunBoolTest(code, s, t, st, res.st, f, w, res.v, p, conj, done, a.next, q);
      if (w == Bool(false)) == conj {
        t := t1;
      } else {
        var p' := p + |b.code|;
        StageReadyAny(code, s, t1, st, res.st, f, s.stack, p');
        t, w := RunBool(code, xs.next, conj, done, b.next, k, f, res.st, t1, q);
        var out := EvalBool(k, xs.next, conj, f, res.st);
        StageTrans(code, s, t1, t, st, res.st, out.st, f, s.stack, p', On(w, s.stack), q);
      }
    }
  }

  /** The test between two arguments either leaves for the done label with the value, or drops it. */
  lemma RunBoolTest(code: seq<Item>, s: State, t: State, st: Store, st': Store, f: nat, w: Value, v: Val, p: int,
                    conj: bool, done: nat, l: nat, q: int)
    returns (u: State)
    requires UniqueLabels(code) && Stage(code, s, t, st, st', f, On(w, s.stack), p)
      && ValRep(code, t.envs, t.cur, st', v, w)
    requires p >= 0 && p + |BoolTest(conj, done, l).code| <= |code| && code[p] == Do(Dup)
    requires conj ==>
      code[p + 1] == Go(Jnf, l) && code[p + 2] == Go(Jmp, done) && code[p + 3] == Here(l) && code[p + 4] == Do(Drop)
    requires !conj ==> code[p + 1] == Go(Jnf, done) && code[p + 2] == Do(Drop)
    requires 0 <= q < |code| && code[q] == Here(done)
    ensures if (w == Bool(false)) == conj then Stage(code, s, u, st, st', f, On(w, s.stack), q)
      && ValRep(code, u.envs, u.cur, st', v, w)
            else Stage(code, s, u, st, st', f, s.stack, p + |BoolTest(conj, done, l).code|)
  {
    hide Exec, Stepper, Reaches, Grows, StoreRep, EnvRep, ValRep, Returned, Stage, Ends, Sim, Ready, CodeAt;
    hide UniqueLabels;
    var k1 := On(w, s.stack);
    u := StagePure(code, s, t, st, st', f, k1, p, On(w, k1));
    ValMono(code, t, u, st', st', v, w);
    if conj {
      var u1 := StageBranch(code, s, u, st, st', f, w, k1, p + 1, l, p + 3);
      ValMono(code, u, u1, st', st', v, w);
      if w == Bool(false) {
        u := StageJump(code, s, u1, st, st', f, k1, p + 2, done, q);
        ValMono(code, u1, u, st', st', v, w);
      } else {
        u := StagePure(code, s, u1, st, st', f, k1, p + 3, k1);
        u := StagePure(code, s, u, st, st', f, k1, p + 4, s.stack);
      }
    } else {
      var u1 := StageBranch(code, s, u, st, st', f, w, k1, p + 1, done, q);
      ValMono(code, u, u1, st', st', v, w);
      u := u1;
      if w == Bool(false) {
        u := StagePure(code, s, u1, st, st', f, k1, p + 2, s.stack);
      }
    }
  }

  // ---------- procedures ----------

  lemma RunLambda(code: seq<Item>, n: Node, tail: bool, l: nat, k: nat, f: nat, st: Store, s: State, r: nat)
    returns (t: State, w: Value)
    requires Ready(code, s, st, f, tail, r) && n.Lambda?
    requires CodeAt(code, s.Ip(), EmitNode(n, tail, l).code)
    ensures Yields(code, s, t, st, EvalNode(k, n, f, st), f, tail, r, w, s.Ip() + |EmitNode(n, tail, l).code|)
    decreases 2 * k, n, 0
  {
    hide Exec, Stepper, Reaches, Grows, StoreRep, EnvRep, Returned, Stage, Ends, Sim, Ready, CodeAt;
    hide UniqueLabels, EmitStream;
    ReadyStart(code, s, st, f, tail, r);
    var c := EmitProc(n.formals, n.body, l, l + 2);
    var p := s.Ip();
    var q := p + 1 + |c.code|;
    CodeAtHead(code, p, Go(Jmp, l + 1), c.code + [Here(l + 1), Go(Proc, l)]);
    CodeAtSplit(code, p + 1, c.code, [Here(l + 1), Go(Proc, l)]);
    assert [Here(l + 1), Go(Proc, l)] == [Here(l + 1)] + [Go(Proc, l)];
    CodeAtHead(code, q, Here(l + 1), [Go(Proc, l)]);
    CodeAtHead(code, q + 1, Go(Proc, l), []) by { assert [Go(Proc, l)] == [Go(Proc, l)] + []; }
    ProcEntry(code, p + 1, n.formals, n.body, l, l + 2);
    t := StageJump(code, s, s, st, st, f, s.stack, p, l + 1, q);
    t := StagePure(code, s, t, st, st, f, s.stack, q, s.stack);
    var e;
    t, e := StageProc(code, s, t, st, st, f, s.stack, q + 1, l, p + 1);
    w := Closure(e);
    StageYields(code, s, t, st, Ok(SClosure(n.formals, n.body, f), st), f, tail, r, w, q + 2);
  }

  lemma ProcEntry(code: seq<Item>, p: int, fs: Formals, body: Stream, entry: nat, l: nat)
    requires CodeAt(code, p, EmitProc(fs, body, entry, l).code)
    ensures 0 <= p < |code| && code[p] == Here(entry) && ProcAt(code, p, fs, body)
  {
    hide EmitStream;
    var c := EmitFormals(fs) + (EmitStream(body, true, l).code + [Do(Swap), Do(Ret)]);
    assert EmitProc(fs, body, entry, l).code == [Here(entry)] + ([Do(Swap)] + c);
    CodeAtHead(code, p, Here(entry), [Do(Swap)] + c);
  }

  /** The prologue binds the formals of the frame just opened and consumes the argument list. */
  lemma RunFormals(code: seq<Item>, fs: Formals, args: Val, aw: Value, k: Stack, st: Store, f: nat, s: State,
                   vars: map<string, Val>)
    returns (t: State)
    requires Sim(code, st, f, s) && s.stack == On(aw, k) && ValRep(code, s.envs, s.cur, st, args, aw)
    requires CodeAt(code, s.Ip(), EmitFormals(fs)) && BindFormals(fs, args, st[f].vars) == Some(vars)
    ensures Stage(code, s, t, st, st[f := st[f].(vars := vars)], f, k, s.Ip() + |EmitFormals(fs)|)
    decreases fs, 1
  {
    hide Exec, Stepper, Reaches, Grows, StoreRep, EnvRep, Stage, CodeAt, ValRep;
    SimFrame(code, st, f, s);
    StageRefl(code, s, st, f);
    var p := s.Ip();
    match fs
    case NoFormal =>
      CodeAtHead(code, p, Do(Drop), []) by { assert [Do(Drop)] == [Do(Drop)] + []; }
      t := StagePure(code, s, s, st, st, f, On(aw, k), p, k);
      assert st[f := st[f].(vars := vars)] == st;
    case FixedEnd =>
      CodeAtHead(code, p, Do(Drop), []) by { assert [Do(Drop)] == [Do(Drop)] + []; }
      t := StagePure(code, s, s, st, st, f, On(aw, k), p, k);
      assert st[f := st[f].(vars := vars)] == st;
    case Formal(x, NoFormal) =>
      assert EmitFormals(fs) == [Put(LitSymbol(x))] + [Do(Bind)];
      CodeAtHead(code, p, Put(LitSymbol(x)), [Do(Bind)]);
      CodeAtHead(code, p + 1, Do(Bind), []) by { assert [Do(Bind)] == [Do(Bind)] + []; }
      t := StagePure(code, s, s, st, st, f, On(aw, k), p, On(Symbol(x), On(aw, k)));
      ValMono(code, s, t, st, st, args, aw);
      t := StageWrite(code, s, t, st, st, f, Bind, x, args, aw, k, p + 1, f);
    case Formal(_, _) =>
      t := RunFirstFormal(code, fs, args, aw, k, st, f, s, vars);
  }

  lemma FormalsCode(fs: Formals, one: seq<Item>, c: seq<Item>)
    requires fs.Formal? && !fs.next.NoFormal? && one == [Do(Dup), Do(Car), Put(LitSymbol(fs.name)), Do(Bind)]
    requires c == if fs.next.FixedEnd? then [Do(Drop)] + [] else [Do(Cdr)] + EmitFormals(fs.next)
    ensures EmitFormals(fs) == one + c
  {
  }

  lemma DefineTwice(st: Store, f: nat, x: string, v: Val, vars: map<string, Val>)
    requires f < |st|
    ensures var st1 := Define(st, f, x, v);
      f < |st1| && st1[f].vars == st[f].vars[x := v] && st1[f := st1[f].(vars := vars)] == st[f := st[f].(vars := vars)]
  {
  }

  /** On to the rest of the argument list. */
  lemma RunCdr(code: seq<Item>, args: Val, aw: Value, k: Stack, st: Store, st1: Store, f: nat, s: State, t1: State,
               p: int)
    returns (t2: State)
    requires args.SPair? && s.Ok() && ValRep(code, s.envs, s.cur, st, args, aw) && 0 <= p < |code| && code[p] == Do(Cdr)
    requires Stage(code, s, t1, st, st1, f, On(aw, k), p)
    ensures aw.Pair? && Stage(code, s, t2, st, st1, f, On(aw.cdr, k), p + 1) && Sim(code, st1, f, t2)
    ensures t2.Ok() && t2.stack == On(aw.cdr, k) && t2.Ip() == p + 1
      && ValRep(code, t2.envs, t2.cur, st1, args.cdr, aw.cdr)
  {
    hide Exec, Stepper, Reaches, Grows, StoreRep, EnvRep, Stage, ValRep, Sim;
    ValKept(code, s, t1, st, st1, f, On(aw, k), p, args, aw);
    PairParts(code, t1, st1, args, aw);
    t2 := StagePure(code, s, t1, st, st1, f, On(aw, k), p, On(aw.cdr, k));
    ValMono(code, t1, t2, st1, st1, args.cdr, aw.cdr);
    StageSim(code, s, t2, st, st1, f, On(aw.cdr, k), p + 1);
  }

  lemma RunFirstFormal(code: seq<Item>, fs: Formals, args: Val, aw: Value, k: Stack, st: Store, f: nat, s: State,
                       vars: map<string, Val>)
    returns (t: State)
    requires Sim(code, st, f, s) && s.stack == On(aw, k) && ValRep(code, s.envs, s.cur, st, args, aw)
    requires fs.Formal? && !fs.next.NoFormal?
    requires CodeAt(code, s.Ip(), EmitFormals(fs)) && BindFormals(fs, args, st[f].vars) == Some(vars)
    ensures Stage(code, s, t, st, st[f := st[f].(vars := vars)], f, k, s.Ip() + |EmitFormals(fs)|)
    decreases fs, 0
  {
    hide Exec, Stepper, Reaches, Grows, StoreRep, EnvRep, Stage, CodeAt, ValRep, Sim, EmitFormals, BindFormals, Define;
    SimFrame(code, st, f, s);
    var p := s.Ip();
    var x, rest := fs.name, fs.next;
    BindFirst(fs, args, st[f].vars);
    FormalsPlaced(code, p, fs);
    var t1 := RunFormal(code, x, args, aw, k, st, f, s);
    var st1 := Define(st, f, x, args.car);
    DefineTwice(st, f, x, args.car, vars);
    if rest.FixedEnd? {
      t := StagePure(code, s, t1, st, st1, f, On(aw, k), p + 4, k);
      assert st1[f := st1[f].(vars := vars)] == st1;
    } else {
      var t2 := RunCdr(code, args, aw, k, st, st1, f, s, t1, p + 4);
      t := RunFormals(code, rest, args.cdr, aw.cdr, k, st1, f, t2, vars);
      StageTrans(code, s, t2, t, st, st1, st[f := st[f].(vars := vars)], f, On(aw.cdr, k), p + 5, k,
                 p + |EmitFormals(fs)|);
    }
  }

  lemma BindFirst(fs: Formals, args: Val, vars: map<string, Val>)
    requires fs.Formal? && !fs.next.NoFormal? && BindFormals(fs, args, vars).Some?
    ensures args.SPair?
    ensures BindFormals(fs, args, vars)
      == if fs.next.FixedEnd? then Some(vars[fs.name := args.car])
         else BindFormals(fs.next, args.cdr, vars[fs.name := args.car])
  {
  }

  lemma FormalsPlaced(code: seq<Item>, p: int, fs: Formals)
    requires fs.Formal? && !fs.next.NoFormal? && CodeAt(code, p, EmitFormals(fs))
    ensures CodeAt(code, p, [Do(Dup), Do(Car), Put(LitSymbol(fs.name)), Do(Bind)]) && 0 <= p + 4 < |code|
    ensures if fs.next.FixedEnd? then code[p + 4] == Do(Drop) && |EmitFormals(fs)| == 5
      else
        && code[p + 4] == Do(Cdr) && CodeAt(code, p + 5, EmitFormals(fs.next))
        && |EmitFormals(fs)| == 5 + |EmitFormals(fs.next)|
  {
    var one := [Do(Dup), Do(Car), Put(LitSymbol(fs.name)), Do(Bind)];
    var rest := if fs.next.FixedEnd? then [] else EmitFormals(fs.next);
    var it := if fs.next.FixedEnd? then Do(Drop) else Do(Cdr);
    FormalsCode(fs, one, [it] + rest);
    hide EmitFormals, CodeAt;
    CodeAtSplit(code, p, one, [it] + rest);
    CodeAtHead(code, p + 4, it, rest);
  }

  lemma PairParts(code: seq<Item>, t: State, st: Store, v: Val, w: Value)
    requires v.SPair? && ValRep(code, t.envs, t.cur, st, v, w)
    ensures w.Pair? && ValRep(code, t.envs, t.cur, st, v.car, w.car) && ValRep(code, t.envs, t.cur, st, v.cdr, w.cdr)
  {
  }

  lemma SimFrame(code: seq<Item>, st: Store, f: nat, s: State)
    requires Sim(code, st, f, s)
    ensures s.Ok() && f < |st|
  {
  }

  lemma StageSim(code: seq<Item>, s: State, t: State, st: Store, st': Store, f: nat, k: Stack, p: int)
    requires Stage(code, s, t, st, st', f, k, p)
    ensures t.Ok() && Sim(code, st', f, t) && t.stack == k && t.Ip() == p
    ensures Grows(s, t) && Reaches(code, s, t) && StoreGrows(st, st')
  {
  }

  /** One formal takes the car of the argument list, which stays on the stack. */
  lemma RunFormal(code: seq<Item>, x: string, args: Val, aw: Value, k: Stack, st: Store, f: nat, s: State)
    returns (t: State)
    requires Sim(code, st, f, s) && s.stack == On(aw, k) && args.SPair? && ValRep(code, s.envs, s.cur, st, args, aw)
    requires CodeAt(code, s.Ip(), [Do(Dup), Do(Car), Put(LitSymbol(x)), Do(Bind)])
    ensures Stage(code, s, t, st, Define(st, f, x, args.car), f, On(aw, k), s.Ip() + 4)
  {
    hide Exec, Stepper, Reaches, Grows, StoreRep, EnvRep, Stage, CodeAt, ValRep, Sim;
    SimFrame(code, st, f, s);
    var p := s.Ip();
    var c := [Do(Dup), Do(Car), Put(LitSymbol(x)), Do(Bind)];
    PairParts(code, s, st, args, aw);
    CodeIndex(code, p, c, 0);
    CodeIndex(code, p, c, 1);
    CodeIndex(code, p, c, 2);
    CodeIndex(code, p, c, 3);
    StageRefl(code, s, st, f);
    var k1 := On(aw, k);
    var t1 := StagePure(code, s, s, st, st, f, k1, p, On(aw, k1));
    var t2 := StagePure(code, s, t1, st, st, f, On(aw, k1), p + 1, On(aw.car, k1));
    var t3 := StagePure(code, s, t2, st, st, f, On(aw.car, k1), p + 2, On(Symbol(x), On(aw.car, k1)));
    ValKept(code, s, t3, st, st, f, On(Symbol(x), On(aw.car, k1)), p + 3, args.car, aw.car);
    t := StageWrite(code, s, t3, st, st, f, Bind, x, args.car, aw.car, k1, p + 3, f);
  }

  /** A call from the entry of the procedure to its return. */
  lemma RunCall(code: seq<Item>, k: nat, g: Val, args: Val, aw: Value, st: Store, s: State, r: nat, base: Stack)
    returns (t: State, w: Value)
    requires UniqueLabels(code) && g.SClosure? && EvalCall(k, g, args, st).Ok?
    requires Sim(code, NewFrame(st, g.frame), |st|, s) && ProcAt(code, s.Ip(), g.formals, g.body)
    requires s.stack == On(Closure(r), On(aw, base)) && r < |s.envs| && r != s.cur
    requires ValRep(code, s.envs, s.cur, NewFrame(st, g.frame), args, aw)
    ensures Returned(code, s, t, NewFrame(st, g.frame), EvalCall(k, g, args, st).st, r, base, w)
    ensures ValRep(code, t.envs, t.cur, EvalCall(k, g, args, st).st, EvalCall(k, g, args, st).v, w)
    decreases 2 * k + 1, 0
  {
    hide Exec, Stepper, Reaches, Grows, StoreRep, EnvRep, ValRep, Stage, Ends, CodeAt, UniqueLabels;
    hide EmitStream, EvalStream, Returned;
    var st1 := NewFrame(st, g.frame);
    var f := |st|;
    var vars := BindFormals(g.formals, args, map[]).value;
    var st2 := st + [Frame(vars, Some(g.frame))];
    assert st1[f := st1[f].(vars := vars)] == st2;
    var entry: nat, l: nat :| CodeAt(code, s.Ip(), EmitProc(g.formals, g.body, entry, l).code);
    var p := s.Ip();
    var c := EmitStream(g.body, true, l);
    ProcPlaced(code, p, g.formals, g.body, entry, l);
    StageRefl(code, s, st1, f);
    var kr := On(Closure(r), base);
    var t1 := StagePure(code, s, s, st1, st1, f, s.stack, p, s.stack);
    t1 := StagePure(code, s, t1, st1, st1, f, s.stack, p + 1, On(aw, kr));
    ValKept(code, s, t1, st1, st1, f, On(aw, kr), p + 2, args, aw);
    StageSim(code, s, t1, st1, st1, f, On(aw, kr), p + 2);
    var t2 := RunFormals(code, g.formals, args, aw, kr, st1, f, t1, vars);
    var p2 := p + 2 + |EmitFormals(g.formals)|;
    StageTrans(code, s, t1, t2, st1, st1, st2, f, On(aw, kr), p + 2, kr, p2);
    StageTailReady(code, s, t2, st1, st2, f, kr, p2, r, base);
    var res := EvalStream(k, g.body, f, st2);
    var t3, w3 := RunStream(code, g.body, true, l, k, f, st2, t2, r);
    w := w3;
    t := FinishTail(code, t2, t3, st2, res.st, f, r, res.v, w, p2 + |c.code|);
    StageReturned(code, s, t2, t, st1, st2, res.st, f, kr, p2, r, base, w);
  }

  lemma ProcPlaced(code: seq<Item>, p: int, fs: Formals, body: Stream, entry: nat, l: nat)
    requires CodeAt(code, p, EmitProc(fs, body, entry, l).code)
    ensures 0 <= p && p + 1 < |code| && code[p] == Here(entry) && code[p + 1] == Do(Swap)
    ensures var q := p + 2 + |EmitFormals(fs)|; var c := EmitStream(body, true, l).code;
      CodeAt(code, p + 2, EmitFormals(fs)) && CodeAt(code, q, c) && CodeAt(code, q + |c|, [Do(Swap), Do(Ret)])
  {
    hide EmitStream, EmitFormals, CodeAt;
    var c := EmitStream(body, true, l).code;
    var c2 := EmitFormals(fs) + (c + [Do(Swap), Do(Ret)]);
    TwoAhead(Here(entry), Do(Swap), c2);
    CodeAtHead(code, p, Here(entry), [Do(Swap)] + c2);
    CodeAtHead(code, p + 1, Do(Swap), c2);
    CodeAtSplit(code, p + 2, EmitFormals(fs), c + [Do(Swap), Do(Ret)]);
    CodeAtSplit(code, p + 2 + |EmitFormals(fs)|, c, [Do(Swap), Do(Ret)]);
  }

  lemma StageTailReady(code: seq<Item>, s: State, t: State, st: Store, st': Store, f: nat, k: Stack, p: int, r: nat,
                       base: Stack)
    requires UniqueLabels(code) && Stage(code, s, t, st, st', f, k, p)
    requires k == On(Closure(r), base) && r < |s.envs| && r != s.cur
    ensures Ready(code, t, st', f, true, r) && TailReady(t, true, r) && t.Ok() && t.Ip() == p && t.stack == k
  {
  }

  lemma StageReturned(code: seq<Item>, s: State, t: State, u: State, st: Store, st1: Store, st2: Store, f: nat,
                      k: Stack, p: int, r: nat, base: Stack, w: Value)
    requires Stage(code, s, t, st, st1, f, k, p) && Returned(code, t, u, st1, st2, r, base, w) && r < |s.envs|
      && r != s.cur
    ensures Returned(code, s, u, st, st2, r, base, w)
  {
    ReturnedAfter(code, s, t, u, st, st1, st2, r, base, w);
  }

  // ---------- calls ----------

  /** Each argument is consed onto the ones before it in the stream. */
  lemma RunArgs(code: seq<Item>, xs: Stream, l: nat, k: nat, f: nat, st: Store, s: State, base: Stack, acc: Val,
                aw: Value)
    returns (t: State, w: Value)
    requires Ready(code, s, st, f, false, 0) && EvalArgs(k, xs, f, st, acc).Ok?
    requires s.stack == On(aw, base) && ValRep(code, s.envs, s.cur, st, acc, aw)
    requires CodeAt(code, s.Ip(), EmitArgs(xs, l).code)
    ensures var res := EvalArgs(k, xs, f, st, acc);
      Stage(code, s, t, st, res.st, f, On(w, base), s.Ip() + |EmitArgs(xs, l).code|)
        && ValRep(code, t.envs, t.cur, res.st, res.v, w)
    decreases 2 * k, xs
  {
    hide Exec, Stepper, Reaches, Grows, StoreRep, EnvRep, ValRep, Returned, Stage, Ends, Sim, Ready, CodeAt;
    hide UniqueLabels;
    hide EvalNode, EmitNode, EmitValue;
    ReadyStart(code, s, st, f, false, 0);
    match xs
    case End =>
      t, w := s, aw;
    case Seq(n, rest) =>
      var a := EmitValue(n, false, l);
      var c := EmitArgs(rest, a.next);
      var p := s.Ip() + |a.code|;
      CodeAtSplit(code, s.Ip(), a.code, [Do(Cons)] + c.code);
      CodeAtHead(code, p, Do(Cons), c.code);
      var r1 := EvalNode(k, n, f, st);
      var t1, w1 := RunValue(code, n, false, l, k, f, st, s, 0);
      YieldsStage(code, s, t1, st, r1, f, 0, w1, p);
      ValKept(code, s, t1, st, r1.st, f, On(w1, s.stack), p, acc, aw);
      PairRep(code, t1, r1.st, r1.v, w1, acc, aw);
      var t2 := StagePure(code, s, t1, st, r1.st, f, On(w1, On(aw, base)), p, On(Pair(w1, aw), base));
      ValMono(code, t1, t2, r1.st, r1.st, SPair(r1.v, acc), Pair(w1, aw));
      StageReadyAny(code, s, t2, st, r1.st, f, On(Pair(w1, aw), base), p + 1);
      t, w := RunArgs(code, rest, a.next, k, f, r1.st, t2, base, SPair(r1.v, acc), Pair(w1, aw));
      StageTrans(code, s, t2, t, st, r1.st, EvalArgs(k, rest, f, r1.st, SPair(r1.v, acc)).st, f,
                 On(Pair(w1, aw), base), p + 1, On(w, base), p + 1 + |c.code|);
  }

  lemma PairRep(code: seq<Item>, t: State, st: Store, a: Val, wa: Value, d: Val, wd: Value)
    requires ValRep(code, t.envs, t.cur, st, a, wa) && ValRep(code, t.envs, t.cur, st, d, wd)
    ensures ValRep(code, t.envs, t.cur, st, SPair(a, d), Pair(wa, wd))
  {
  }

  /** What a represented procedure value is on the machine. */
  lemma ClosureParts(code: seq<Item>, t: State, st: Store, g: Val, w: Value)
    requires g.SClosure? && ValRep(code, t.envs, t.cur, st, g, w)
    ensures w.Closure? && w.env < |t.envs| && w.env != t.cur && EnvRep(t.envs, st, w.env, g.frame)
    ensures ProcAt(code, t.envs[w.env].ip, g.formals, g.body)
  {
  }

  /** The frame a call enters, ready for RunCall. */
  lemma EnterCall(code: seq<Item>, k: nat, g: Val, args: Val, wf: Value, wa: Value, st: Store, f: nat, t: State,
                  r: nat, base: Stack, e: nat)
    returns (u: State, v: State, w: Value)
    requires Ready(code, t, st, f, false, 0) && EvalCall(k, g, args, st).Ok? && wf == Closure(e) && e < |t.envs|
    requires ValRep(code, t.envs, t.cur, st, g, wf) && ValRep(code, t.envs, t.cur, st, args, wa)
    requires r < |t.envs|
    ensures u == Entered(t, e, On(Closure(r), On(wa, base)))
    ensures Grows(t, u) && u.cur > |t.envs| && u.envs[t.cur] == t.envs[t.cur].(ip := t.Ip() + 1)
    ensures StoreGrows(st, NewFrame(st, g.frame))
    ensures Returned(code, u, v, NewFrame(st, g.frame), EvalCall(k, g, args, st).st, r, base, w)
    ensures ValRep(code, v.envs, v.cur, EvalCall(k, g, args, st).st, EvalCall(k, g, args, st).v, w)
    decreases 2 * k + 1, 1
  {
    hide Exec, Stepper, Reaches, Grows, EnvRep, ValRep, Returned, CodeAt, UniqueLabels, StoreRep, EvalCall;
    CallIsClosure(k, g, args, st);
    ClosureParts(code, t, st, g, wf);
    var kk := On(Closure(r), On(wa, base));
    EnteredRep(code, t, st, e, g.frame, kk);
    u := Entered(t, e, kk);
    ValMono(code, t, u, st, NewFrame(st, g.frame), args, wa);
    EnteredFacts(t, e, kk);
    v, w := RunCall(code, k, g, args, wa, st, u, r, base);
  }

  lemma CallIsClosure(k: nat, g: Val, args: Val, st: Store)
    requires EvalCall(k, g, args, st).Ok?
    ensures g.SClosure?
  {
  }

  lemma EnteredFacts(t: State, e: nat, k: Stack)
    requires t.Ok() && e < |t.envs|
    ensures |Entered(t, e, k).envs| == |t.envs| + 2 && Entered(t, e, k).cur == |t.envs| + 1
  {
  }

  lemma RunCallIn(code: seq<Item>, k: nat, g: Val, args: Val, wf: Value, wa: Value, st: Store, f: nat, t: State,
                  base: Stack)
    returns (v: State, w: Value)
    requires Ready(code, t, st, f, false, 0) && EvalCall(k, g, args, st).Ok?
    requires 0 <= t.Ip() < |code| && code[t.Ip()] == Do(CallIn) && t.stack == On(wf, On(wa, base))
    requires ValRep(code, t.envs, t.cur, st, g, wf) && ValRep(code, t.envs, t.cur, st, args, wa)
    ensures Stage(code, t, v, st, EvalCall(k, g, args, st).st, f, On(w, base), t.Ip() + 1)
    ensures ValRep(code, v.envs, v.cur, EvalCall(k, g, args, st).st, EvalCall(k, g, args, st).v, w)
    decreases 2 * k + 1, 2
  {
    hide Exec, Stepper, Reaches, Grows, EnvRep, ValRep, Returned, UniqueLabels, StoreRep, EvalCall, Stage, Entered;
    CallIsClosure(k, g, args, st);
    ClosureParts(code, t, st, g, wf);
    var u;
    u, v, w := EnterCall(code, k, g, args, wf, wa, st, f, t, t.cur, base, wf.env);
    CallStep(code, t, wf.env, On(wa, base));
    BackInFrame(code, t, u, v, st, NewFrame(st, g.frame), EvalCall(k, g, args, st).st, f, base, w, t.Ip() + 1);
  }

  lemma RunTailCallIn(code: seq<Item>, k: nat, g: Val, args: Val, wf: Value, wa: Value, st: Store, f: nat, t: State,
                      r: nat, base: Stack)
    returns (v: State, w: Value)
    requires Ready(code, t, st, f, false, 0) && EvalCall(k, g, args, st).Ok? && r < |t.envs| && r != t.cur
    requires 0 <= t.Ip() < |code| && code[t.Ip()] == Do(TailCallIn) && t.stack == On(wf, On(wa, On(Closure(r), base)))
    requires ValRep(code, t.envs, t.cur, st, g, wf) && ValRep(code, t.envs, t.cur, st, args, wa)
    ensures Returned(code, t, v, st, EvalCall(k, g, args, st).st, r, base, w)
    ensures ValRep(code, v.envs, v.cur, EvalCall(k, g, args, st).st, EvalCall(k, g, args, st).v, w)
    decreases 2 * k + 1, 2
  {
    hide Exec, Stepper, Reaches, Grows, EnvRep, ValRep, Returned, UniqueLabels, StoreRep, EvalCall, Stage, Entered;
    CallIsClosure(k, g, args, st);
    ClosureParts(code, t, st, g, wf);
    var u;
    u, v, w := EnterCall(code, k, g, args, wf, wa, st, f, t, r, base, wf.env);
    TailCallStep(code, t, wf.env, wa, Closure(r), base);
    ReturnedAfter(code, t, u, v, st, NewFrame(st, g.frame), EvalCall(k, g, args, st).st, r, base, w);
  }

  lemma ApplyPlaced(code: seq<Item>, p: int, a: seq<Item>, g: seq<Item>, op: Op)
    requires CodeAt(code, p, [Put(LitEmpty)] + (a + (g + [Do(op)])))
    ensures CodeAt(code, p, [Put(LitEmpty)]) && CodeAt(code, p + 1, a) && CodeAt(code, p + 1 + |a|, g)
    ensures 0 <= p + 1 + |a| + |g| < |code| && code[p + 1 + |a| + |g|] == Do(op)
  {
    CodeAtSplit(code, p, [Put(LitEmpty)], a + (g + [Do(op)]));
    DoublePlaced(code, p + 1, a, g, op);
  }

  lemma RunApply(code: seq<Item>, n: Node, tail: bool, l: nat, k: nat, f: nat, st: Store, s: State, r: nat)
    returns (t: State, w: Value)
    requires Ready(code, s, st, f, tail, r) && n.Apply? && EvalNode(k, n, f, st).Ok?
    requires CodeAt(code, s.Ip(), EmitNode(n, tail, l).code)
    ensures Yields(code, s, t, st, EvalNode(k, n, f, st), f, tail, r, w, s.Ip() + |EmitNode(n, tail, l).code|)
    decreases 2 * k, n, 0
  {
    hide Exec, Stepper, Reaches, Grows, StoreRep, EnvRep, ValRep, Returned, Stage, Ends, Sim, Ready, CodeAt;
    hide UniqueLabels;
    hide EmitArgs, EmitStream, EvalCall;
    ReadyStart(code, s, st, f, tail, r);
    var ca := EmitArgs(n.args, l);
    var cg := EmitStream(n.operator, false, ca.next);
    var p := s.Ip() + 1 + |ca.code| + |cg.code|;
    ApplyPlaced(code, s.Ip(), ca.code, cg.code, if tail then TailCallIn else CallIn);
    var t2, wa, wg := RunOperands(code, n, l, k, f, st, s);
    var a := EvalArgs(k, n.args, f, st, SEmpty);
    var g := EvalStream(k, n.operator, f, a.st);
    var kk := On(wg, On(wa, s.stack));
    StageReadyAny(code, s, t2, st, g.st, f, kk, p);
    if tail {
      var base := s.stack.rest;
      StageKeeps(code, s, t2, st, g.st, f, kk, p, r);
      t, w := RunTailCallIn(code, k - 1, g.v, a.v, wg, wa, g.st, f, t2, r, base);
      StageReturned(code, s, t2, t, st, g.st, EvalNode(k, n, f, st).st, f, kk, p, r, base, w);
      ReturnedYields(code, s, t, st, EvalNode(k, n, f, st), f, r, w, p + 1);
    } else {
      t, w := RunCallIn(code, k - 1, g.v, a.v, wg, wa, g.st, f, t2, s.stack);
      StageTrans(code, s, t2, t, st, g.st, EvalNode(k, n, f, st).st, f, kk, p, On(w, s.stack), p + 1);
      StageYields(code, s, t, st, EvalNode(k, n, f, st), f, tail, r, w, p + 1);
    }
  }

  /** Argument list and operator of a call, up to the call instruction. */
  lemma RunOperands(code: seq<Item>, n: Node, l: nat, k: nat, f: nat, st: Store, s: State)
    returns (t: State, wa: Value, wg: Value)
    requires Ready(code, s, st, f, false, 0) && n.Apply? && EvalArgs(k, n.args, f, st, SEmpty).Ok?
    requires EvalStream(k, n.operator, f, EvalArgs(k, n.args, f, st, SEmpty).st).Ok?
    requires CodeAt(code, s.Ip(), [Put(LitEmpty)]) && CodeAt(code, s.Ip() + 1, EmitArgs(n.args, l).code)
    requires CodeAt(code, s.Ip() + 1 + |EmitArgs(n.args, l).code|,
                    EmitStream(n.operator, false, EmitArgs(n.args, l).next).code)
    ensures var ca := EmitArgs(n.args, l); var cg := EmitStream(n.operator, false, ca.next);
      var a := EvalArgs(k, n.args, f, st, SEmpty); var g := EvalStream(k, n.operator, f, a.st);
      && Stage(code, s, t, st, g.st, f, On(wg, On(wa, s.stack)), s.Ip() + 1 + |ca.code| + |cg.code|)
      && ValRep(code, t.envs, t.cur, g.st, a.v, wa) && ValRep(code, t.envs, t.cur, g.st, g.v, wg)
    decreases 2 * k, n, 0, 0
  {
    hide Exec, Stepper, Reaches, Grows, StoreRep, EnvRep, ValRep, Returned, Stage, Ends, Sim, Ready, CodeAt;
    hide UniqueLabels;
    hide EmitArgs, EmitStream, EvalStream, EvalArgs;
    ReadyStart(code, s, st, f, false, 0);
    var ca := EmitArgs(n.args, l);
    var cg := EmitStream(n.operator, false, ca.next);
    var a := EvalArgs(k, n.args, f, st, SEmpty);
    var g := EvalStream(k, n.operator, f, a.st);
    var p1 := s.Ip() + 1;
    var p2 := p1 + |ca.code|;
    var p3 := p2 + |cg.code|;
    var t0 := PushLit(code, s, st, f, LitEmpty);
    StageReadyAny(code, s, t0, st, st, f, On(Empty, s.stack), p1);
    var t1;
    t1, wa := RunArgs(code, n.args, l, k, f, st, t0, s.stack, SEmpty, Empty);
    StageTrans(code, s, t0, t1, st, st, a.st, f, On(Empty, s.stack), p1, On(wa, s.stack), p2);
    StageReadyAny(code, s, t1, st, a.st, f, On(wa, s.stack), p2);
    t, wg := RunStream(code, n.operator, false, ca.next, k, f, a.st, t1, 0);
    YieldsStage(code, t1, t, a.st, g, f, 0, wg, p3);
    ValKept(code, t1, t, a.st, g.st, f, On(wg, t1.stack), p3, a.v, wa);
    StageTrans(code, s, t1, t, st, a.st, g.st, f, On(wa, s.stack), p2, On(wg, On(wa, s.stack)), p3);
  }

  lemma StageKeeps(code: seq<Item>, s: State, t: State, st: Store, st': Store, f: nat, k: Stack, p: int, r: nat)
    requires Stage(code, s, t, st, st', f, k, p) && r < |s.envs| && r != s.cur
    ensures r < |t.envs| && r != t.cur && t.envs[r] == s.envs[r]
  {
  }

  lemma ReturnedYields(code: seq<Item>, s: State, t: State, st: Store, res: Result, f: nat, r: nat, w: Value, q: int)
    requires res.Ok? && s.stack.On? && Returned(code, s, t, st, res.st, r, s.stack.rest, w)
    requires ValRep(code, t.envs, t.cur, res.st, res.v, w)
    ensures Yields(code, s, t, st, res, f, true, r, w, q)
  {
  }

  // ---------- let* ----------

  /** Where the bindings and body of a let* sit, from address q just past its entry. */
  ghost predicate LetLayout(code: seq<Item>, q: int, b: seq<Item>, c: seq<Item>, l: nat) {
    var p := q + |b| + 1 + |c|;
    && CodeAt(code, q, b) && CodeAt(code, q + |b| + 1, c) && CodeAt(code, p, [Do(Swap), Do(Ret)])
    && 0 <= q && p + 2 < |code| && code[q + |b|] == Do(Drop) && code[p + 2] == Here(l + 1)
  }

  lemma LetPlaced(code: seq<Item>, q: int, b: seq<Item>, c: seq<Item>, l: nat)
    requires CodeAt(code, q, b + ([Do(Drop)] + (c + [Do(Swap), Do(Ret), Here(l + 1)])))
    ensures LetLayout(code, q, b, c, l)
  {
    var last := [Do(Swap), Do(Ret), Here(l + 1)];
    assert last == [Do(Swap), Do(Ret)] + [Here(l + 1)];
    hide CodeAt;
    var p := q + |b| + 1 + |c|;
    CodeAtSplit(code, q, b, [Do(Drop)] + (c + last));
    CodeAtHead(code, q + |b|, Do(Drop), c + last);
    CodeAtSplit(code, q + |b| + 1, c, last);
    CodeAtSplit(code, p, [Do(Swap), Do(Ret)], [Here(l + 1)]);
    CodeAtHead(code, p + 2, Here(l + 1), []) by { assert [Here(l + 1)] == [Here(l + 1)] + []; }
  }

  /** Bindings, body and return of a let* in the frame it opened. */
  lemma RunLetBody(code: seq<Item>, n: Node, tail: bool, l: nat, k: nat, f: nat, st: Store, s: State, r: nat,
                   base: Stack)
    returns (t: State, w: Value)
    requires n.LetStar? && Ready(code, s, st, f, true, r) && s.stack == On(Closure(r), base)
    requires EvalStream(k, n.bindings, f, st).Ok? && EvalStream(k, n.body, f, EvalStream(k, n.bindings, f, st).st).Ok?
    requires var b := EmitStream(n.bindings, false, l + 2);
      LetLayout(code, s.Ip(), b.code, EmitStream(n.body, tail, b.next).code, l)
    ensures var res := EvalStream(k, n.body, f, EvalStream(k, n.bindings, f, st).st);
      Returned(code, s, t, st, res.st, r, base, w) && ValRep(code, t.envs, t.cur, res.st, res.v, w)
    decreases 2 * k, n, 0, 0
  {
    hide Exec, Stepper, Reaches, Grows, StoreRep, EnvRep, ValRep, Returned, Stage, Ends, Sim, Ready, CodeAt;
    hide UniqueLabels;
    hide EmitStream, EvalStream;
    ReadyStart(code, s, st, f, true, r);
    var b := EmitStream(n.bindings, false, l + 2);
    var c := EmitStream(n.body, tail, b.next);
    var p := s.Ip() + |b.code|;
    var r1 := EvalStream(k, n.bindings, f, st);
    var r2 := EvalStream(k, n.body, f, r1.st);
    var t1, w1 := RunStream(code, n.bindings, false, l + 2, k, f, st, s, 0);
    YieldsStage(code, s, t1, st, r1, f, 0, w1, p);
    t1 := StagePure(code, s, t1, st, r1.st, f, On(w1, s.stack), p, s.stack);
    StageReady(code, s, t1, st, r1.st, f, p + 1, true, r);
    ReadyStart(code, t1, r1.st, f, true, r);
    var q := p + 1 + |c.code|;
    var t2;
    if tail {
      t2, w := RunStream(code, n.body, tail, b.next, k, f, r1.st, t1, r);
    } else {
      t2, w := RunStream(code, n.body, tail, b.next, k, f, r1.st, t1, 0);
      YieldsStage(code, t1, t2, r1.st, r2, f, 0, w, q);
      StageYields(code, t1, t2, r1.st, r2, f, true, r, w, q);
    }
    t := FinishTail(code, t1, t2, r1.st, r2.st, f, r, r2.v, w, q);
    StageReturned(code, s, t1, t, st, r1.st, r2.st, f, s.stack, p + 1, r, base, w);
  }

  lemma RunLet(code: seq<Item>, n: Node, tail: bool, l: nat, k: nat, f: nat, st: Store, s: State, r: nat)
    returns (t: State, w: Value)
    requires Ready(code, s, st, f, tail, r) && n.LetStar? && EvalNode(k, n, f, st).Ok?
    requires CodeAt(code, s.Ip(), EmitNode(n, tail, l).code)
    ensures Yields(code, s, t, st, EvalNode(k, n, f, st), f, tail, r, w, s.Ip() + |EmitNode(n, tail, l).code|)
    decreases 2 * k, n, 0, 1
  {
    hide Exec, Stepper, Reaches, Grows, StoreRep, EnvRep, ValRep, Returned, Stage, Ends, Sim, Ready, CodeAt;
    hide UniqueLabels;
    hide EmitStream, EvalStream;
    ReadyStart(code, s, st, f, tail, r);
    SimFrame(code, st, f, s);
    var b := EmitStream(n.bindings, false, l + 2);
    var c := EmitStream(n.body, tail, b.next);
    var e := LetEntry(tail, l);
    var body := b.code + ([Do(Drop)] + (c.code + [Do(Swap), Do(Ret), Here(l + 1)]));
    var q := s.Ip() + |e|;
    CodeAtSplit(code, s.Ip(), e, body);
    LetPlaced(code, q, b.code, c.code, l);
    var end := q + |b.code| + 1 + |c.code| + 2;
    var res := EvalNode(k, n, f, st);
    var st1 := NewFrame(st, f);
    if tail {
      var base := s.stack.rest;
      var u, u1 := EnterLetTail(code, l, f, st, s, r);
      StageTailReady(code, u, u1, st1, st1, |st|, s.stack, q, r, base);
      t, w := RunLetBody(code, n, tail, l, k, |st|, st1, u1, r, base);
      StageReturned(code, u, u1, t, st1, st1, res.st, |st|, s.stack, q, r, base, w);
      ReturnedAfter(code, s, u, t, st, st1, res.st, r, base, w);
      ReturnedYields(code, s, t, st, res, f, r, w, end + 1);
    } else {
      var u, u1 := EnterLet(code, l, f, st, s);
      StageTailReady(code, u, u1, st1, st1, |st|, u.stack, q, s.cur, s.stack);
      t, w := RunLetBody(code, n, tail, l, k, |st|, st1, u1, s.cur, s.stack);
      StageReturned(code, u, u1, t, st1, st1, res.st, |st|, u.stack, q, s.cur, s.stack, w);
      BackInFrame(code, s, u, t, st, st1, res.st, f, s.stack, w, s.Ip() + 1);
      StageYields(code, s, t, st, res, f, tail, r, w, s.Ip() + 1);
      CodeIndex(code, s.Ip(), e, 1);
      t := YieldsJump(code, s, t, st, res, f, tail, r, w, s.Ip() + 1, l + 1, end);
      t := YieldsMark(code, s, t, st, res, f, tail, r, w, end);
    }
  }

  lemma EnterLet(code: seq<Item>, l: nat, f: nat, st: Store, s: State)
    returns (u: State, u1: State)
    requires UniqueLabels(code) && Sim(code, st, f, s) && CodeAt(code, s.Ip(), LetEntry(false, l))
    ensures u == Called(s, s.Ip() + 2) && Reaches(code, s, u) && Grows(s, u) && StoreGrows(st, NewFrame(st, f))
    ensures s.cur < |u.envs| && u.cur >= |s.envs| && u.cur != s.cur && u.envs[s.cur] == s.envs[s.cur].(ip := s.Ip() + 1)
    ensures u.stack == On(Closure(s.cur), s.stack)
    ensures Stage(code, u, u1, NewFrame(st, f), NewFrame(st, f), |st|, u.stack, s.Ip() + 3)
  {
    hide Exec, Stepper, Reaches, StoreRep, EnvRep, Stage, CodeAt, UniqueLabels, ValRep;
    var e := LetEntry(false, l);
    CodeIndex(code, s.Ip(), e, 0);
    CodeIndex(code, s.Ip(), e, 2);
    u := Called(s, s.Ip() + 2);
    CalledStep(code, s, l, s.Ip() + 2);
    CalledRep(code, s, st, f, s.Ip() + 2);
    StageRefl(code, u, NewFrame(st, f), |st|);
    u1 := StagePure(code, u, u, NewFrame(st, f), NewFrame(st, f), |st|, u.stack, s.Ip() + 2, u.stack);
  }

  lemma EnterLetTail(code: seq<Item>, l: nat, f: nat, st: Store, s: State, r: nat)
    returns (u: State, u1: State)
    requires UniqueLabels(code) && Sim(code, st, f, s) && CodeAt(code, s.Ip(), LetEntry(true, l))
      && TailReady(s, true, r)
    ensures Reaches(code, s, u) && Grows(s, u) && StoreGrows(st, NewFrame(st, f))
    ensures r < |u.envs| && r != u.cur
    ensures Stage(code, u, u1, NewFrame(st, f), NewFrame(st, f), |st|, s.stack, s.Ip() + 6)
  {
    hide Exec, Stepper, Reaches, Grows, StoreRep, EnvRep, CodeAt, UniqueLabels, ValRep, Entered, Stage;
    var p := s.Ip();
    var base := s.stack.rest;
    var st1 := NewFrame(st, f);
    var c := LetEntry(true, l);
    CodeIndex(code, p, c, 0);
    CodeIndex(code, p, c, 1);
    CodeIndex(code, p, c, 2);
    CodeIndex(code, p, c, 3);
    CodeIndex(code, p, c, 4);
    CodeIndex(code, p, c, 5);
    StageRefl(code, s, st, f);
    var t := StagePure(code, s, s, st, st, f, s.stack, p, On(Empty, s.stack));
    var e;
    t, e := StageProc(code, s, t, st, st, f, On(Empty, s.stack), p + 1, l, p + 3);
    StageSim(code, s, t, st, st, f, On(Closure(e), On(Empty, s.stack)), p + 2);
    TailCallStep(code, t, e, Empty, Closure(r), base);
    var kk := On(Closure(r), On(Empty, base));
    EnteredRep(code, t, st, e, f, kk);
    EnteredFacts(t, e, kk);
    u := Entered(t, e, kk);
    ReachesTrans(code, s, t, u);
    GrowsTrans(s, t, u);
    GrowsLength(s, t);
    StageRefl(code, u, st1, |st|);
    u1 := StagePure(code, u, u, st1, st1, |st|, kk, p + 3, kk);
    u1 := StagePure(code, u, u1, st1, st1, |st|, kk, p + 4, On(Empty, s.stack));
    u1 := StagePure(code, u, u1, st1, st1, |st|, On(Empty, s.stack), p + 5, s.stack);
  }

  lemma GrowsLength(s: State, t: State)
    requires Grows(s, t)
    ensures |s.envs| <= |t.envs|
  {
  }

  // ---------- record types ----------

  lemma RunRecord(code: seq<Item>, n: Node, tail: bool, l: nat, k: nat, f: nat, st: Store, s: State, r: nat)
    returns (t: State, w: Value)
    requires Ready(code, s, st, f, tail, r) && n.RecordType? && EvalNode(k, n, f, st).Ok?
    requires CodeAt(code, s.Ip(), EmitNode(n, tail, l).code)
    ensures Yields(code, s, t, st, EvalNode(k, n, f, st), f, tail, r, w, s.Ip() + |EmitNode(n, tail, l).code|)
    decreases 2 * k, n, 0
  {
    hide Exec, Stepper, Reaches, Grows, StoreRep, EnvRep, ValRep, Returned, Stage, Ends, Sim, Ready, CodeAt;
    hide UniqueLabels;
    hide EvalCall, RecordLoop, QuotedNode, EmitQuoted;
    ReadyStart(code, s, st, f, tail, r);
    var c := EmitQuoted(n.def, false);
    var p := s.Ip() + |c|;
    var call := [Put(LitSymbol(FACTORY)), Do(Read), Do(CallIn)];
    CodeAtSplit(code, s.Ip(), c, call + RecordLoop(l));
    CodeAtSplit(code, p, call, RecordLoop(l));
    CodeIndex(code, p, call, 0);
    CodeIndex(code, p, call, 1);
    CodeIndex(code, p, call, 2);
    var args := QuotedNode(Quoted(n.def));
    var g := FindFrame(st, f, FACTORY).value;
    var t1, wa := RunQuoted(code, n.def, f, st, s);
    var ka := On(wa, s.stack);
    var t2 := StagePure(code, s, t1, st, st, f, ka, p, On(Symbol(FACTORY), ka));
    ValMono(code, t1, t2, st, st, args, wa);
    var t3, wg := StageRead(code, s, t2, st, st, f, FACTORY, ka, p + 1, g);
    ValMono(code, t2, t3, st, st, args, wa);
    StageReadyAny(code, s, t3, st, st, f, On(wg, ka), p + 2);
    var res := EvalCall(k - 1, st[g].vars[FACTORY], args, st);
    var t4, w4 := RunCallIn(code, k - 1, st[g].vars[FACTORY], args, wg, wa, st, f, t3, s.stack);
    StageTrans(code, s, t3, t4, st, st, res.st, f, On(wg, ka), p + 2, On(w4, s.stack), p + 3);
    t := RunRecordLoop(code, res.v, w4, s.stack, res.st, f, st, s, t4, l, p + 3);
    w := Empty;
    RecordDone(code, t, k, n, f, st, res);
    assert |RecordLoop(l)| == 14 by { RecordLoopSize(l); }
    StageYields(code, s, t, st, EvalNode(k, n, f, st), f, tail, r, w, p + 17);
  }

  lemma RecordLoopSize(l: nat)
    ensures |RecordLoop(l)| == 14
  {
  }

  lemma RecordDone(code: seq<Item>, t: State, k: nat, n: Node, f: nat, st: Store, res: Result)
    requires n.RecordType? && EvalNode(k, n, f, st).Ok? && res.Ok? && f < |res.st|
    requires EvalNode(k, n, f, st) == BindList(res.st, f, res.v)
    ensures EvalNode(k, n, f, st).v == SEmpty && ValRep(code, t.envs, t.cur, EvalNode(k, n, f, st).st, SEmpty, Empty)
  {
    BindListValue(res.st, f, res.v);
  }

  lemma {:induction false} BindListValue(st: Store, f: nat, entries: Val)
    requires f < |st| && BindList(st, f, entries).Ok?
    ensures BindList(st, f, entries).v == SEmpty
    decreases entries
  {
    if entries.SPair? { BindListValue(Define(st, f, entries.car.car.name, entries.car.cdr), f, entries.cdr); }
  }

  /** The binding loop defines every entry of the list and leaves the empty list. */
  lemma RunRecordLoop(code: seq<Item>, entries: Val, w: Value, base: Stack, st: Store, f: nat, st0: Store, s: State,
                      t: State, l: nat, p: int)
    returns (u: State)
    requires UniqueLabels(code) && CodeAt(code, p, RecordLoop(l)) && f < |st| && BindList(st, f, entries).Ok?
    requires Stage(code, s, t, st0, st, f, On(w, base), p) && ValRep(code, t.envs, t.cur, st, entries, w)
    ensures Stage(code, s, u, st0, BindList(st, f, entries).st, f, On(Empty, base), p + 14)
    decreases entries
  {
    hide Exec, Stepper, Reaches, Grows, StoreRep, EnvRep, Stage, CodeAt, UniqueLabels, RecordLoop;
    RecordPlaced(code, p, l);
    var k1 := On(w, base);
    var b := Bool(w == Empty);
    u := StagePure(code, s, t, st0, st, f, k1, p, k1);
    ValMono(code, t, u, st, st, entries, w);
    var u1 := StagePure(code, s, u, st0, st, f, k1, p + 1, On(w, k1));
    ValMono(code, u, u1, st, st, entries, w);
    var u2 := StagePure(code, s, u1, st0, st, f, On(w, k1), p + 2, On(b, k1));
    ValMono(code, u1, u2, st, st, entries, w);
    var u3 := StageBranch(code, s, u2, st0, st, f, b, k1, p + 3, l + 1, p + 13);
    ValMono(code, u2, u3, st, st, entries, w);
    if w == Empty {
      u := StagePure(code, s, u3, st0, st, f, k1, p + 13, k1);
    } else {
      var x, v := entries.car.car.name, entries.car.cdr;
      u := RunEntry(code, entries, w, base, st, f, st0, s, u3, p);
      var st1 := Define(st, f, x, v);
      var u4 := StagePure(code, s, u, st0, st1, f, k1, p + 11, On(w.cdr, base));
      ValMono(code, u, u4, st1, st1, entries.cdr, w.cdr);
      var u5 := StageJump(code, s, u4, st0, st1, f, On(w.cdr, base), p + 12, l, p);
      ValMono(code, u4, u5, st1, st1, entries.cdr, w.cdr);
      u := RunRecordLoop(code, entries.cdr, w.cdr, base, st1, f, st0, s, u5, l, p);
    }
  }

  ghost predicate RecordLayout(code: seq<Item>, p: int, l: nat) {
    && 0 <= p && p + 14 <= |code|
    && code[p] == Here(l) && code[p + 1] == Do(Dup) && code[p + 2] == Do(IsEmpty) && code[p + 3] == Go(Jnf, l + 1)
    && code[p + 4] == Do(Dup) && code[p + 5] == Do(Car) && code[p + 6] == Do(Dup) && code[p + 7] == Do(Cdr)
    && code[p + 8] == Do(Swap) && code[p + 9] == Do(Car) && code[p + 10] == Do(Bind)
    && code[p + 11] == Do(Cdr) && code[p + 12] == Go(Jmp, l) && code[p + 13] == Here(l + 1)
  }

  lemma RecordPlaced(code: seq<Item>, p: int, l: nat)
    requires CodeAt(code, p, RecordLoop(l))
    ensures RecordLayout(code, p, l)
  {
    var c := RecordLoop(l);
    assert forall i :: 0 <= i < 14 ==> code[p..p + 14][i] == c[i];
  }

  /** One entry: `dup car dup cdr swap car bind`. */
  lemma RunEntry(code: seq<Item>, entries: Val, w: Value, base: Stack, st: Store, f: nat, st0: Store, s: State,
                 t: State, p: int)
    returns (u: State)
    requires entries.SPair? && entries.car.SPair? && entries.car.car.SSymbol? && f < |st|
    requires exists l: nat :: RecordLayout(code, p, l)
    requires Stage(code, s, t, st0, st, f, On(w, base), p + 4) && ValRep(code, t.envs, t.cur, st, entries, w)
    ensures Stage(code, s, u, st0, Define(st, f, entries.car.car.name, entries.car.cdr), f, On(w, base), p + 11)
    ensures ValRep(code, u.envs, u.cur, Define(st, f, entries.car.car.name, entries.car.cdr), entries, w)
  {
    hide Exec, Stepper, Reaches, Grows, StoreRep, EnvRep, Stage;
    var x, v := entries.car.car.name, entries.car.cdr;
    PairParts(code, t, st, entries, w);
    PairParts(code, t, st, entries.car, w.car);
    var k1, e := On(w, base), w.car;
    assert e.car == Symbol(x);
    var u1 := EntryMove(code, entries, w, k1, On(w, k1), st, f, st0, s, t, p + 4);
    u1 := EntryMove(code, entries, w, On(w, k1), On(e, k1), st, f, st0, s, u1, p + 5);
    u1 := EntryMove(code, entries, w, On(e, k1), On(e, On(e, k1)), st, f, st0, s, u1, p + 6);
    u1 := EntryMove(code, entries, w, On(e, On(e, k1)), On(e.cdr, On(e, k1)), st, f, st0, s, u1, p + 7);
    u1 := EntryMove(code, entries, w, On(e.cdr, On(e, k1)), On(e, On(e.cdr, k1)), st, f, st0, s, u1, p + 8);
    u1 := EntryMove(code, entries, w, On(e, On(e.cdr, k1)), On(e.car, On(e.cdr, k1)), st, f, st0, s, u1, p + 9);
    PairParts(code, u1, st, entries, w);
    PairParts(code, u1, st, entries.car, w.car);
    u := StageWrite(code, s, u1, st0, st, f, Bind, x, v, e.cdr, k1, p + 10, f);
    DefineGrows(st, f, x, v);
    ValMono(code, u1, u, st, Define(st, f, x, v), entries, w);
  }

  /** A stack instruction of the loop, which keeps the list. */
  lemma EntryMove(code: seq<Item>, entries: Val, w: Value, k: Stack, k': Stack, st: Store, f: nat, st0: Store,
                  s: State, t: State, p: int)
    returns (u: State)
    requires Stage(code, s, t, st0, st, f, k, p) && ValRep(code, t.envs, t.cur, st, entries, w)
    requires 0 <= p < |code| && Pure(code[p], k) == Some(k')
    ensures Stage(code, s, u, st0, st, f, k', p + 1) && ValRep(code, u.envs, u.cur, st, entries, w)
  {
    hide Exec, Stepper, Reaches, Grows, StoreRep, EnvRep, Stage, Pure, ValRep;
    u := StagePure(code, s, t, st0, st, f, k, p, k');
    ValMono(code, t, u, st, st, entries, w);
  }

  lemma DefineGrows(st: Store, f: nat, x: string, v: Val)
    requires f < |st|
    ensures StoreGrows(st, Define(st, f, x, v))
  {
  }
}
