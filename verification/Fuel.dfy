/** The call-depth bound of the evaluator only cuts off: a larger bound never changes a result. */
module Fuel {
  import opened Machine
  import opened Syntax
  import opened Eval

  lemma StreamFuel(k: nat, m: nat, s: Stream, f: nat, st: Store)
    requires k <= m && EvalStream(k, s, f, st).Ok?
    ensures EvalStream(m, s, f, st) == EvalStream(k, s, f, st)
    decreases k, s, 1
  {
    hide EvalNode;
    if s.Seq? {
      NodeFuel(k, m, s.head, f, st);
      if s.next.Seq? { StreamFuel(k, m, s.next, f, EvalNode(k, s.head, f, st).st); }
    }
  }

  lemma NodeFuel(k: nat, m: nat, n: Node, f: nat, st: Store)
    requires k <= m && EvalNode(k, n, f, st).Ok?
    ensures EvalNode(m, n, f, st) == EvalNode(k, n, f, st)
    decreases k, n, 1
  {
    hide EvalPair, EvalClauses, EvalBool, EvalArgs, EvalStream, EvalCall, QuotedNode, WellQuoted, FindFrame;
    hide BindList, MathVal, Define;
    match n
    case LiteralNode(_) =>
    case Quoted(_) =>
    case Load(x) => StreamFuel(k, m, x, f, st);
    case BindNode(v, x) => PairFuel(k, m, n, v, x, f, st);
    case StoreNode(v, x) => PairFuel(k, m, n, v, x, f, st);
    case MathNode(_, a, b) => PairFuel(k, m, n, a, b, f, st);
    case If(c, t, e) =>
      StreamFuel(k, m, c, f, st);
      var r := EvalStream(k, c, f, st);
      StreamFuel(k, m, if r.v == SBool(false) then e else t, f, r.st);
    case Cond(cs) => ClausesFuel(k, m, cs, f, st);
    case And(xs) => if xs.Seq? { BoolFuel(k, m, xs, true, f, st); }
    case Or(xs) => if xs.Seq? { BoolFuel(k, m, xs, false, f, st); }
    case Lambda(_, _) =>
    case Apply(g, xs) =>
      ArgsFuel(k, m, xs, f, st, SEmpty);
      var a := EvalArgs(k, xs, f, st, SEmpty);
      StreamFuel(k, m, g, f, a.st);
      var r := EvalStream(k, g, f, a.st);
      CallFuel(k - 1, m - 1, r.v, a.v, r.st);
    case LetStar(bs, body) =>
      StreamFuel(k, m, bs, |st|, NewFrame(st, f));
      StreamFuel(k, m, body, |st|, EvalStream(k, bs, |st|, NewFrame(st, f)).st);
    case RecordType(d) =>
      var g := FindFrame(st, f, FACTORY).value;
      CallFuel(k - 1, m - 1, st[g].vars[FACTORY], QuotedNode(Quoted(d)), st);
  }

  lemma PairFuel(k: nat, m: nat, n: Node, a: Stream, b: Stream, f: nat, st: Store)
    requires k <= m && a < n && b < n && EvalPair(k, n, a, b, f, st).Ok?
    ensures EvalPair(m, n, a, b, f, st) == EvalPair(k, n, a, b, f, st)
    decreases k, n, 0
  {
    hide EvalStream;
    StreamFuel(k, m, a, f, st);
    StreamFuel(k, m, b, f, EvalStream(k, a, f, st).st);
  }

  lemma ClausesFuel(k: nat, m: nat, cs: Clauses, f: nat, st: Store)
    requires k <= m && EvalClauses(k, cs, f, st).Ok?
    ensures EvalClauses(m, cs, f, st) == EvalClauses(k, cs, f, st)
    decreases k, cs
  {
    hide EvalStream;
    if cs.Clause? {
      StreamFuel(k, m, cs.test, f, st);
      var r := EvalStream(k, cs.test, f, st);
      if r.v == SBool(false) { ClausesFuel(k, m, cs.rest, f, r.st); } else { StreamFuel(k, m, cs.body, f, r.st); }
    }
  }

  lemma BoolFuel(k: nat, m: nat, xs: Stream, conj: bool, f: nat, st: Store)
    requires k <= m && xs.Seq? && EvalBool(k, xs, conj, f, st).Ok?
    ensures EvalBool(m, xs, conj, f, st) == EvalBool(k, xs, conj, f, st)
    decreases k, xs, 0
  {
    hide EvalNode;
    NodeFuel(k, m, xs.head, f, st);
    var r := EvalNode(k, xs.head, f, st);
    if xs.next.Seq? && (r.v == SBool(false)) != conj { BoolFuel(k, m, xs.next, conj, f, r.st); }
  }

  lemma ArgsFuel(k: nat, m: nat, xs: Stream, f: nat, st: Store, acc: Val)
    requires k <= m && EvalArgs(k, xs, f, st, acc).Ok?
    ensures EvalArgs(m, xs, f, st, acc) == EvalArgs(k, xs, f, st, acc)
    decreases k, xs
  {
    hide EvalNode;
    if xs.Seq? {
      NodeFuel(k, m, xs.head, f, st);
      var r := EvalNode(k, xs.head, f, st);
      ArgsFuel(k, m, xs.next, f, r.st, SPair(r.v, acc));
    }
  }

  lemma CallFuel(k: nat, m: nat, g: Val, args: Val, st: Store)
    requires k <= m && EvalCall(k, g, args, st).Ok?
    ensures EvalCall(m, g, args, st) == EvalCall(k, g, args, st)
    decreases k
  {
    hide EvalStream;
    var vars := BindFormals(g.formals, args, map[]).value;
    StreamFuel(k, m, g.body, |st|, st + [Frame(vars, Some(g.frame))]);
  }
}
