/** The shape of the frame's stack at every point of emitted code.

    Within one procedure activation the stack above the caller's values is described by a shape:
    which slots hold ordinary values and which one the return closure.  Emitted code has one shape
    per label, whichever way the label is reached, and every stream leaves exactly one value more
    than it found. */
module StackDiscipline {
  import opened Machine
  import opened Syntax
  import opened Code
  import opened Emit
  import Eval

  /** Top first: an ordinary value, or the return closure of the activation. */
  datatype Shape = Nil | Val(rest: Shape) | Back(rest: Shape)

  function Size(sh: Shape): nat {
    match sh
    case Nil => 0
    case Val(r) => 1 + Size(r)
    case Back(r) => 1 + Size(r)
  }

  /** `Dead` follows a jump or a return.  `Live(false, sh)` follows a tail call, which does not come
      back either, counted as if it had returned its value. */
  datatype Flow = Bad | Dead | Live(reached: bool, sh: Shape)

  type Shapes = map<nat, Shape>

  // ---------- the effect of one item ----------

  function OpFlow(op: Op, r: bool, sh: Shape): Flow {
    match op
    case Cons | Math(_) => (match sh case Val(Val(k)) => Live(r, Val(k)) case _ => Bad)
    case Car | Cdr | Not | IsEmpty | Read => if sh.Val? then Live(r, sh) else Bad
    case Bind | Set => (match sh case Val(Val(k)) => Live(r, k) case _ => Bad)
    case Dup => if sh.Val? then Live(r, Val(sh)) else Bad
    case Drop => if sh.Val? then Live(r, sh.rest) else Bad
    case GetDepth => Live(r, Val(sh))
    case Swap =>
      (match sh
       case Val(Val(_)) => Live(r, sh)
       case Val(Back(k)) => Live(r, Back(Val(k)))
       case Back(Val(k)) => Live(r, Val(Back(k)))
       case _ => Bad)
    case CallIn => (match sh case Val(Val(k)) => Live(r, Val(k)) case _ => Bad)
    case TailCallIn => if sh == Val(Val(Back(Nil))) then Live(false, Val(Back(Nil))) else Bad
    case Ret => if sh == Back(Val(Nil)) then Dead else Bad
    case Rot | Adopt | Jin | Restore => Bad
  }

  function JumpFlow(k: JumpKind, l: nat, r: bool, sh: Shape, at: Shapes): Flow {
    if l !in at then Bad else
    match k
    case Jmp => if at[l] == sh then Dead else Bad
    case Jnf => if sh.Val? && at[l] == sh.rest then Live(r, sh.rest) else Bad
    case Call => if at[l] == Back(Nil) then Live(r, Val(sh)) else Bad
    case Proc => if at[l] == Back(Val(Nil)) then Live(r, Val(sh)) else Bad
    case Continue => Bad
  }

  /** The flow after an item; every way into a label must bring the shape the label has. */
  function Through(it: Item, f: Flow, at: Shapes): Flow {
    match it
    case Mark(Gen(n)) =>
      if n !in at || f.Bad? then Bad
      else if f.Dead? then Live(true, at[n])
      else if (if f.reached then f.sh == at[n] else Size(f.sh) == Size(at[n])) then Live(true, at[n])
      else Bad
    case Mark(_) => Bad
    case Ins(i) =>
      if !f.Live? then Bad else
      match i
      case Literal(_) => Live(f.reached, Val(f.sh))
      case Plain(op) => OpFlow(op, f.reached, f.sh)
      case Jump(k, Gen(l)) => JumpFlow(k, l, f.reached, f.sh, at)
      case Jump(_, _) => Bad
  }

  function FlowOf(code: seq<Item>, f: Flow, at: Shapes): Flow {
    if code == [] then f else FlowOf(code[1..], Through(code[0], f, at), at)
  }

  ghost predicate Sub(m: Shapes, big: Shapes) { forall n :: n in m ==> n in big && big[n] == m[n] }

  ghost predicate Dom(m: Shapes, lo: nat, hi: nat) { lo <= hi && forall n :: n in m <==> lo <= n < hi }

  /** The code takes flow f to flow g under every assignment that agrees with m. */
  ghost predicate Flows(code: seq<Item>, f: Flow, g: Flow, m: Shapes) {
    forall big: Shapes :: Sub(m, big) ==> FlowOf(code, f, big) == g
  }

  // ---------- composition ----------

  lemma {:induction false} FlowPlus(a: seq<Item>, b: seq<Item>, f: Flow, at: Shapes)
    ensures FlowOf(a + b, f, at) == FlowOf(b, FlowOf(a, f, at), at)
    decreases |a|
  {
    if a == [] {
      assert a + b == b;
    } else {
      FlowPlus(a[1..], b, Through(a[0], f, at), at);
      assert (a + b)[1..] == a[1..] + b;
    }
  }

  lemma Then(a: seq<Item>, b: seq<Item>, f: Flow, g: Flow, h: Flow, ma: Shapes, mb: Shapes, m: Shapes)
    requires Flows(a, f, g, ma) && Flows(b, g, h, mb) && Sub(ma, m) && Sub(mb, m)
    ensures Flows(a + b, f, h, m)
  {
    forall big: Shapes | Sub(m, big) ensures FlowOf(a + b, f, big) == h {
      FlowPlus(a, b, f, big);
      assert Sub(ma, big) && Sub(mb, big);
    }
  }

  /** One item in front of code. */
  lemma Before(it: Item, b: seq<Item>, f: Flow, g: Flow, h: Flow, mb: Shapes, m: Shapes)
    requires Flows(b, g, h, mb) && Sub(mb, m) && Known(it, m) && Through(it, f, m) == g
    ensures Flows([it] + b, f, h, m)
  {
    One(it, f, m);
    Then([it], b, f, g, h, m, mb, m);
  }

  ghost predicate Known(it: Item, m: Shapes) {
    match it
    case Mark(Gen(n)) => n in m
    case Ins(Jump(_, Gen(n))) => n in m
    case _ => true
  }

  lemma One(it: Item, f: Flow, m: Shapes)
    requires Known(it, m)
    ensures Flows([it], f, Through(it, f, m), m)
  {
    forall big: Shapes | Sub(m, big) ensures FlowOf([it], f, big) == Through(it, f, m) {
      assert [it][1..] == [];
      assert FlowOf([it], f, big) == FlowOf([], Through(it, f, big), big);
    }
  }

  lemma Nothing(f: Flow, m: Shapes)
    ensures Flows([], f, f, m)
  {
  }

  lemma Merge(a: Shapes, b: Shapes, lo: nat, mid: nat, hi: nat) returns (m: Shapes)
    requires Dom(a, lo, mid) && Dom(b, mid, hi)
    ensures Dom(m, lo, hi) && Sub(a, m) && Sub(b, m)
  {
    m := a + b;
  }

  // ---------- well-formed trees ----------

  /** Quoted data hold literals and quotes only, as the grammar builds them. */
  predicate Formed(s: Stream) { s.Seq? ==> FormedNode(s.head) && Formed(s.next) }

  predicate FormedNode(n: Node) {
    match n
    case LiteralNode(_) => true
    case Quoted(d) => Eval.WellQuoted(d)
    case Load(x) => Formed(x)
    case BindNode(v, x) => Formed(v) && Formed(x)
    case StoreNode(v, x) => Formed(v) && Formed(x)
    case If(c, t, e) => Formed(c) && Formed(t) && Formed(e)
    case Cond(cs) => FormedClauses(cs)
    case And(xs) => Formed(xs)
    case Or(xs) => Formed(xs)
    case MathNode(_, a, b) => Formed(a) && Formed(b)
    case Lambda(_, body) => Formed(body)
    case Apply(f, xs) => Formed(f) && Formed(xs)
    case LetStar(bs, body) => Formed(bs) && Formed(body)
    case RecordType(d) => Eval.WellQuoted(d)
  }

  predicate FormedClauses(cs: Clauses) { cs.Clause? ==> Formed(cs.test) && Formed(cs.body) && FormedClauses(cs.rest) }

  // ---------- straight-line parts ----------

  lemma {:induction false} QuotedFlow(d: Stream, isList: bool, base: Shape)
    requires d.End? || Eval.WellQuoted(d)
    requires d.End? ==> isList
    ensures var sh := if isList then Val(base) else base;
      Flows(EmitQuoted(d, isList), Live(true, sh), Live(true, Val(base)), map[])
    decreases d
  {
    var sh := if isList then Val(base) else base;
    if d.Seq? {
      var a := match d.head case LiteralNode(v) => [Put(v)] case Quoted(inner) => EmitQuoted(inner, false) case _ => [];
      hide Flows, EmitQuoted;
      if d.head.LiteralNode? { One(Put(d.head.lit), Live(true, sh), map[]); }
      else { QuotedFlow(d.head.datum, false, sh); }
      QuotedFlow(d.next, true, base);
      var b := if isList then [Do(Cons)] else [];
      if isList { One(Do(Cons), Live(true, Val(sh)), map[]); } else { Nothing(Live(true, Val(sh)), map[]); }
      var r := EmitQuoted(d.next, true);
      Then(b, r, Live(true, Val(sh)), Live(true, Val(base)), Live(true, Val(base)), map[], map[], map[]);
      Then(a, b + r, Live(true, sh), Live(true, Val(sh)), Live(true, Val(base)), map[], map[], map[]);
      QuotedSplit(d, isList, a, b, r);
    }
  }

  lemma QuotedSplit(d: Stream, isList: bool, a: seq<Item>, b: seq<Item>, r: seq<Item>)
    requires d.Seq? && (d.head.LiteralNode? || d.head.Quoted?)
    requires r == EmitQuoted(d.next, true) && b == (if isList then [Do(Cons)] else [])
    requires d.head.LiteralNode? ==> a == [Put(d.head.lit)]
    requires d.head.Quoted? ==> a == EmitQuoted(d.head.datum, false)
    ensures EmitQuoted(d, isList) == a + (b + r)
  {
  }

  /** The prologue consumes the argument list and leaves the return closure. */
  lemma {:induction false} FormalsFlow(fs: Formals)
    ensures Flows(EmitFormals(fs), Live(true, Val(Back(Nil))), Live(true, Back(Nil)), map[])
    decreases fs
  {
    hide Flows, EmitFormals;
    var v := Val(Back(Nil));
    match fs
    case NoFormal | FixedEnd => One(Do(Drop), Live(true, v), map[]); FormalsShort(fs);
    case Formal(x, next) =>
      var e := Live(true, Back(Nil));
      if next.NoFormal? {
        One(Do(Bind), Live(true, Val(v)), map[]);
        Before(Put(LitSymbol(x)), [Do(Bind)], Live(true, v), Live(true, Val(v)), e, map[], map[]);
        FormalsShort(fs);
      } else {
        var last := if next.FixedEnd? then [Do(Drop)] else [Do(Cdr)] + EmitFormals(next);
        if next.FixedEnd? {
          One(Do(Drop), Live(true, v), map[]);
        } else {
          FormalsFlow(next);
          Before(Do(Cdr), EmitFormals(next), Live(true, v), Live(true, v), e, map[], map[]);
        }
        Before(Do(Bind), last, Live(true, Val(Val(v))), Live(true, v), e, map[], map[]);
        var c1 := [Do(Bind)] + last;
        Before(Put(LitSymbol(x)), c1, Live(true, Val(v)), Live(true, Val(Val(v))), e, map[], map[]);
        var c2 := [Put(LitSymbol(x))] + c1;
        Before(Do(Car), c2, Live(true, Val(v)), Live(true, Val(v)), e, map[], map[]);
        Before(Do(Dup), [Do(Car)] + c2, Live(true, v), Live(true, Val(v)), e, map[], map[]);
        FormalsLong(fs, last);
      }
  }

  lemma FormalsShort(fs: Formals)
    ensures !fs.Formal? ==> EmitFormals(fs) == [Do(Drop)]
    ensures fs.Formal? && fs.next.NoFormal? ==> EmitFormals(fs) == [Put(LitSymbol(fs.name))] + [Do(Bind)]
  {
  }

  lemma FormalsLong(fs: Formals, last: seq<Item>)
    requires fs.Formal? && !fs.next.NoFormal?
    requires last == if fs.next.FixedEnd? then [Do(Drop)] else [Do(Cdr)] + EmitFormals(fs.next)
    ensures EmitFormals(fs) == [Do(Dup)] + ([Do(Car)] + ([Put(LitSymbol(fs.name))] + ([Do(Bind)] + last)))
  {
  }

  // ---------- every tree ----------

  function Falls(n: Node, tail: bool): bool { !(tail && n.Apply?) }

  function StreamFalls(s: Stream, tail: bool): bool {
    s.End? || (if s.next.End? then Falls(s.head, tail) else StreamFalls(s.next, tail))
  }

  /** Every stream nets exactly one value, whatever labels surround it. */
  lemma StreamFlow(s: Stream, tail: bool, l: nat, base: Shape) returns (m: Shapes)
    requires Formed(s) && (tail ==> base == Back(Nil))
    ensures var o := EmitStream(s, tail, l);
      Dom(m, l, o.next) && Flows(o.code, Live(true, base), Live(StreamFalls(s, tail), Val(base)), m)
    decreases s, 0
  {
    match s
    case End =>
      m := map[];
      One(Put(LitEmpty), Live(true, base), m);
    case Seq(n, rest) =>
      hide Flows, EmitNode, Sub;
      if rest.End? {
        m := ValueFlow(n, tail, l, base);
      } else {
        var a := EmitNode(n, false, l);
        var b := EmitStream(rest, tail, a.next);
        var ma := NodeFlow(n, false, l, base);
        var mb := StreamFlow(rest, tail, a.next, base);
        m := Merge(ma, mb, l, a.next, b.next);
        var e := Live(StreamFalls(rest, tail), Val(base));
        if Pushes(n) {
          SubRefl(mb);
          Before(Do(Drop), b.code, Live(true, Val(base)), Live(true, base), e, mb, mb);
          Then(a.code, [Do(Drop)] + b.code, Live(true, base), Live(true, Val(base)), e, ma, mb, m);
        } else {
          assert [] + b.code == b.code;
          Then(a.code, [] + b.code, Live(true, base), Live(true, base), e, ma, mb, m);
        }
      }
  }

  lemma SubRefl(m: Shapes) ensures Sub(m, m) {}

  lemma SubTrans(a: Shapes, b: Shapes, c: Shapes)
    requires Sub(a, b) && Sub(b, c)
    ensures Sub(a, c)
  {
  }

  lemma ValueFlow(n: Node, tail: bool, l: nat, base: Shape) returns (m: Shapes)
    requires FormedNode(n) && (tail ==> base == Back(Nil))
    ensures var o := EmitValue(n, tail, l);
      Dom(m, l, o.next) && Flows(o.code, Live(true, base), Live(Falls(n, tail), Val(base)), m)
    decreases n, 2
  {
    hide Flows, EmitNode;
    m := NodeFlow(n, tail, l, base);
    var a := EmitNode(n, tail, l);
    if Pushes(n) {
      assert a.code + [] == a.code;
    } else {
      One(Put(LitEmpty), Live(true, base), m);
      Then(a.code, [Put(LitEmpty)], Live(true, base), Live(true, base), Live(true, Val(base)), m, m, m);
    }
  }

  function After(n: Node, base: Shape): Shape { if Pushes(n) then Val(base) else base }

  /** A node nets one value when it pushes and none when it does not. */
  lemma NodeFlow(n: Node, tail: bool, l: nat, base: Shape) returns (m: Shapes)
    requires FormedNode(n) && (tail ==> base == Back(Nil))
    ensures var o := EmitNode(n, tail, l);
      Dom(m, l, o.next) && Flows(o.code, Live(true, base), Live(Falls(n, tail), After(n, base)), m)
    decreases n, 1
  {
    var f := Live(true, base);
    match n
    case LiteralNode(v) =>
      m := map[];
      One(Put(v), f, m);
    case Quoted(d) =>
      m := map[];
      QuotedFlow(d, false, base);
    case Load(x) =>
      hide Flows, EmitStream;
      m := StreamFlow(x, false, l, base);
      FallsNoTail(x);
      One(Do(Read), Live(true, Val(base)), m);
      Then(EmitStream(x, false, l).code, [Do(Read)], f, Live(true, Val(base)), Live(true, Val(base)), m, m, m);
    case BindNode(v, x) => m := DoubleFlow(n, v, x, Bind, l, base);
    case StoreNode(v, x) => m := DoubleFlow(n, v, x, Set, l, base);
    case MathNode(o, v, x) => m := DoubleFlow(n, v, x, Math(o), l, base);
    case If(_, _, _) => m := IfFlow(n, tail, l, base);
    case Cond(cs) => m := CondFlow(cs, tail, l, base);
    case And(xs) => m := LogicFlow(xs, true, l, base);
    case Or(xs) => m := LogicFlow(xs, false, l, base);
    case Lambda(_, _) => m := LambdaFlow(n, tail, l, base);
    case Apply(_, _) => m := ApplyFlow(n, tail, l, base);
    case LetStar(_, _) => if tail { m := LetTailFlow(n, l); } else { m := LetFlow(n, l, base); }
    case RecordType(d) => m := RecordFlow(d, l, base);
  }

  lemma {:induction false} FallsNoTail(s: Stream)
    ensures StreamFalls(s, false)
    decreases s
  {
    if s.Seq? { FallsNoTail(s.next); }
  }

  lemma DoubleFlow(n: Node, a: Stream, b: Stream, op: Op, l: nat, base: Shape) returns (m: Shapes)
    requires a < n && b < n && Formed(a) && Formed(b) && (op == Bind || op == Set || op.Math?)
    ensures var ca := EmitStream(a, false, l); var d := Double(ca, EmitStream(b, false, ca.next), op);
      Dom(m, l, d.next) && Flows(d.code, Live(true, base), Live(true, if op.Math? then Val(base) else base), m)
    decreases n, 0
  {
    hide Flows, EmitStream, Sub;
    var ca := EmitStream(a, false, l);
    var cb := EmitStream(b, false, ca.next);
    var ma := StreamFlow(a, false, l, base);
    var mb := StreamFlow(b, false, ca.next, Val(base));
    FallsNoTail(a);
    FallsNoTail(b);
    m := Merge(ma, mb, l, ca.next, cb.next);
    var e := Live(true, if op.Math? then Val(base) else base);
    One(Do(op), Live(true, Val(Val(base))), mb);
    SubRefl(mb);
    Then(cb.code, [Do(op)], Live(true, Val(base)), Live(true, Val(Val(base))), e, mb, mb, mb);
    Then(ca.code, cb.code + [Do(op)], Live(true, base), Live(true, Val(base)), e, ma, mb, m);
  }

  lemma IfFlow(n: Node, tail: bool, l: nat, base: Shape) returns (m: Shapes)
    requires n.If? && FormedNode(n) && (tail ==> base == Back(Nil))
    ensures var o := EmitNode(n, tail, l);
      Dom(m, l, o.next) && Flows(o.code, Live(true, base), Live(true, Val(base)), m)
    decreases n, 0
  {
    hide Flows, EmitStream, Sub;
    var cc := EmitStream(n.test, false, l + 2);
    var ce := EmitStream(n.onFalse, tail, cc.next);
    var ct := EmitStream(n.onTrue, tail, ce.next);
    var mc := StreamFlow(n.test, false, l + 2, base);
    var me := StreamFlow(n.onFalse, tail, cc.next, base);
    var mt := StreamFlow(n.onTrue, tail, ce.next, base);
    FallsNoTail(n.test);
    var own: Shapes := map[l := base, l + 1 := Val(base)];
    var m1 := Merge(own, mc, l, l + 2, cc.next);
    var m2 := Merge(m1, me, l, cc.next, ce.next);
    m := Merge(m2, mt, l, ce.next, ct.next);
    SubTrans(own, m1, m2);
    SubTrans(own, m2, m);
    SubTrans(mc, m1, m2);
    SubTrans(mc, m2, m);
    SubTrans(me, m2, m);
    SubRefl(m);
    IfTail(l, ce.code, ct.code, base, StreamFalls(n.onFalse, tail), StreamFalls(n.onTrue, tail), own, me, mt, m);
    Then(cc.code, [Go(Jnf, l)] + (ce.code + ([Go(Jmp, l + 1)] + ([Here(l)] + (ct.code + [Here(l + 1)])))),
      Live(true, base), Live(true, Val(base)), Live(true, Val(base)), mc, m, m);
  }

  lemma IfTail(l: nat, ce: seq<Item>, ct: seq<Item>, base: Shape, re: bool, rt: bool, own: Shapes, me: Shapes,
               mt: Shapes, m: Shapes)
    requires own == map[l := base, l + 1 := Val(base)] && Sub(own, m) && Sub(me, m) && Sub(mt, m)
    requires Flows(ce, Live(true, base), Live(re, Val(base)), me)
      && Flows(ct, Live(true, base), Live(rt, Val(base)), mt)
    ensures Flows([Go(Jnf, l)] + (ce + ([Go(Jmp, l + 1)] + ([Here(l)] + (ct + [Here(l + 1)])))),
                  Live(true, Val(base)), Live(true, Val(base)), m)
  {
    assert l in own && l + 1 in own;
    assert l in m && l + 1 in m && m[l] == base && m[l + 1] == Val(base);
    hide Flows;
    var e := Live(true, Val(base));
    One(Here(l + 1), Live(rt, Val(base)), m);
    Then(ct, [Here(l + 1)], Live(true, base), Live(rt, Val(base)), e, mt, m, m);
    var c1 := ct + [Here(l + 1)];
    Before(Here(l), c1, Dead, Live(true, base), e, m, m);
    Before(Go(Jmp, l + 1), [Here(l)] + c1, Live(re, Val(base)), Dead, e, m, m);
    var c2 := [Go(Jmp, l + 1)] + ([Here(l)] + c1);
    Then(ce, c2, Live(true, base), Live(re, Val(base)), e, me, m, m);
    Before(Go(Jnf, l), ce + c2, Live(true, Val(base)), Live(true, base), e, m, m);
  }

  lemma CondFlow(cs: Clauses, tail: bool, l: nat, base: Shape) returns (m: Shapes)
    requires FormedClauses(cs) && (tail ==> base == Back(Nil))
    ensures var a := EmitClauses(cs, l, tail, l + 1);
      Dom(m, l, a.next) && Flows(a.code + [Put(LitEmpty), Here(l)], Live(true, base), Live(true, Val(base)), m)
    decreases cs, 1
  {
    var own: Shapes := map[l := Val(base)];
    var a := EmitClauses(cs, l, tail, l + 1);
    var mc := ClausesFlow(cs, l, tail, l + 1, base, own);
    m := Merge(own, mc, l, l + 1, a.next);
    assert l in own;
    hide Flows, EmitClauses;
    assert own + mc == m;
    One(Here(l), Live(true, Val(base)), m);
    Before(Put(LitEmpty), [Here(l)], Live(true, base), Live(true, Val(base)), Live(true, Val(base)), m, m);
    assert [Put(LitEmpty)] + [Here(l)] == [Put(LitEmpty), Here(l)];
    Then(a.code, [Put(LitEmpty), Here(l)], Live(true, base), Live(true, base), Live(true, Val(base)), own + mc, m, m);
  }

  /** A clause that fails leaves the stack as it was; one that succeeds brings its value to `done`. */
  lemma ClausesFlow(cs: Clauses, done: nat, tail: bool, l: nat, base: Shape, own: Shapes) returns (m: Shapes)
    requires FormedClauses(cs) && (tail ==> base == Back(Nil)) && done < l && own == map[done := Val(base)]
    ensures var o := EmitClauses(cs, done, tail, l);
      Dom(m, l, o.next) && Flows(o.code, Live(true, base), Live(true, base), own + m)
    decreases cs, 0
  {
    match cs
    case NoClause =>
      m := map[];
      Nothing(Live(true, base), own + m);
    case Clause(t, b, rest) =>
      var ct := EmitStream(t, false, l);
      var cb := EmitStream(b, tail, ct.next + 1);
      var cr := EmitClauses(rest, done, tail, cb.next);
      var mt := StreamFlow(t, false, l, base);
      FallsNoTail(t);
      var mb := StreamFlow(b, tail, ct.next + 1, base);
      var mr := ClausesFlow(rest, done, tail, cb.next, base, own);
      hide Flows, EmitStream, EmitClauses;
      m := MergeClause(own, done, base, mt, mb, mr, l, ct.next, cb.next, cr.next);
      ClauseFlow(ct.code, cb.code, cr.code, done, ct.next, base, StreamFalls(b, tail), mt, mb, own + mr, own + m);
  }

  lemma MergeClause(own: Shapes, done: nat, base: Shape, mt: Shapes, mb: Shapes, mr: Shapes, l: nat, skip: nat,
                    mid: nat, hi: nat)
    returns (m: Shapes)
    requires done < l && own == map[done := Val(base)] && Dom(mt, l, skip) && Dom(mb, skip + 1, mid) && Dom(mr, mid, hi)
    ensures Dom(m, l, hi) && skip in own + m && (own + m)[skip] == base && done in own + m
      && (own + m)[done] == Val(base)
    ensures Sub(mt, own + m) && Sub(mb, own + m) && Sub(own + mr, own + m)
  {
    m := mt + map[skip := base] + mb + mr;
  }

  lemma ClauseFlow(ct: seq<Item>, cb: seq<Item>, cr: seq<Item>, done: nat, skip: nat, base: Shape, rb: bool,
                   mt: Shapes, mb: Shapes, mr: Shapes, m: Shapes)
    requires Sub(mt, m) && Sub(mb, m) && Sub(mr, m) && done in m && m[done] == Val(base) && skip in m && m[skip] == base
    requires Flows(ct, Live(true, base), Live(true, Val(base)), mt)
      && Flows(cb, Live(true, base), Live(rb, Val(base)), mb)
    requires Flows(cr, Live(true, base), Live(true, base), mr)
    ensures Flows(ct + ([Do(Not), Go(Jnf, skip)] + (cb + ([Go(Jmp, done), Here(skip)] + cr))),
                  Live(true, base), Live(true, base), m)
  {
    hide Flows;
    var e := Live(true, base);
    Before(Here(skip), cr, Dead, e, e, mr, m);
    Before(Go(Jmp, done), [Here(skip)] + cr, Live(rb, Val(base)), Dead, e, m, m);
    var c1 := [Go(Jmp, done), Here(skip)] + cr;
    assert c1 == [Go(Jmp, done)] + ([Here(skip)] + cr);
    Then(cb, c1, e, Live(rb, Val(base)), e, mb, m, m);
    Before(Go(Jnf, skip), cb + c1, Live(true, Val(base)), e, e, m, m);
    Before(Do(Not), [Go(Jnf, skip)] + (cb + c1), Live(true, Val(base)), Live(true, Val(base)), e, m, m);
    var c2 := [Do(Not), Go(Jnf, skip)] + (cb + c1);
    assert c2 == [Do(Not)] + ([Go(Jnf, skip)] + (cb + c1));
    Then(ct, c2, e, Live(true, Val(base)), e, mt, m, m);
  }

  lemma LogicFlow(xs: Stream, conj: bool, l: nat, base: Shape) returns (m: Shapes)
    requires Formed(xs)
    ensures var o := EmitLogic(xs, conj, l);
      Dom(m, l, o.next) && Flows(o.code, Live(true, base), Live(true, Val(base)), m)
    decreases xs, 3
  {
    var own: Shapes := map[l := Val(base)];
    assert l in own;
    if xs.End? {
      m := own;
      hide Flows;
      var v := Put(if conj then LitTrue else LitFalse);
      One(Here(l), Live(true, Val(base)), m);
      Before(v, [Here(l)], Live(true, base), Live(true, Val(base)), Live(true, Val(base)), m, m);
      assert [v] + [Here(l)] == [v, Here(l)];
    } else {
      var a := EmitBool(xs, conj, l, l + 1);
      var mb := BoolFlow(xs, conj, l, l + 1, base, own);
      m := own + mb;
      hide Flows, EmitBool;
      One(Here(l), Live(true, Val(base)), m);
      Then(a.code, [Here(l)], Live(true, base), Live(true, Val(base)), Live(true, Val(base)), m, m, m);
    }
  }

  lemma BoolFlow(xs: Stream, conj: bool, done: nat, l: nat, base: Shape, own: Shapes) returns (m: Shapes)
    requires xs.Seq? && Formed(xs) && done < l && own == map[done := Val(base)]
    ensures var o := EmitBool(xs, conj, done, l);
      Dom(m, l, o.next) && Flows(o.code, Live(true, base), Live(true, Val(base)), own + m)
    decreases xs, 2
  {
    var a := EmitValue(xs.head, false, l);
    var ma := ValueFlow(xs.head, false, l, base);
    if xs.next.End? {
      m := ma;
      assert Sub(ma, own + ma);
    } else {
      var t := BoolTest(conj, done, a.next);
      var b := EmitBool(xs.next, conj, done, t.next);
      var mt: Shapes := if conj then map[a.next := Val(base)] else map[];
      var mb := BoolFlow(xs.next, conj, done, t.next, base, own);
      hide Flows, EmitBool, EmitValue;
      m := MergeBool(own, done, base, conj, ma, mt, mb, l, a.next, t.next, b.next);
      hide Sub;
      SubRefl(own + m);
      BoolTestFlow(conj, done, a.next, base, own + m);
      Then(t.code, b.code, Live(true, Val(base)), Live(true, base), Live(true, Val(base)), own + m, own + mb, own + m);
      Then(a.code, t.code + b.code, Live(true, base), Live(true, Val(base)), Live(true, Val(base)), ma, own + m,
           own + m);
    }
  }

  lemma MergeBool(own: Shapes, done: nat, base: Shape, conj: bool, ma: Shapes, mt: Shapes, mb: Shapes, l: nat,
                  m1: nat, m2: nat, hi: nat)
    returns (m: Shapes)
    requires done < l && own == map[done := Val(base)] && Dom(ma, l, m1) && Dom(mb, m2, hi)
    requires if conj then mt == map[m1 := Val(base)] && m2 == m1 + 1 else mt == map[] && m2 == m1
    ensures Dom(m, l, hi) && done in own + m && (own + m)[done] == Val(base)
      && (conj ==> m1 in own + m && (own + m)[m1] == Val(base))
    ensures Sub(own + mb, own + m) && Sub(ma, own + m)
  {
    m := ma + mt + mb;
  }

  lemma BoolTestFlow(conj: bool, done: nat, l: nat, base: Shape, m: Shapes)
    requires done in m && m[done] == Val(base) && (conj ==> l in m && m[l] == Val(base))
    ensures Flows(BoolTest(conj, done, l).code, Live(true, Val(base)), Live(true, base), m)
  {
    hide Flows;
    var v := Live(true, Val(base));
    var e := Live(true, base);
    One(Do(Drop), v, m);
    var d := if conj then [Go(Jmp, done)] + ([Here(l)] + [Do(Drop)]) else [Do(Drop)];
    if conj {
      Before(Here(l), [Do(Drop)], Dead, v, e, m, m);
      Before(Go(Jmp, done), [Here(l)] + [Do(Drop)], v, Dead, e, m, m);
    }
    var j := if conj then l else done;
    Before(Go(Jnf, j), d, Live(true, Val(Val(base))), v, e, m, m);
    Before(Do(Dup), [Go(Jnf, j)] + d, v, Live(true, Val(Val(base))), e, m, m);
    assert BoolTest(conj, done, l).code == [Do(Dup)] + ([Go(Jnf, j)] + d);
  }

  lemma ArgsFlow(xs: Stream, l: nat, base: Shape) returns (m: Shapes)
    requires Formed(xs)
    ensures var o := EmitArgs(xs, l);
      Dom(m, l, o.next) && Flows(o.code, Live(true, Val(base)), Live(true, Val(base)), m)
    decreases xs, 1
  {
    match xs
    case End =>
      m := map[];
      Nothing(Live(true, Val(base)), m);
    case Seq(n, rest) =>
      hide Flows, EmitValue, Sub;
      var a := EmitValue(n, false, l);
      var b := EmitArgs(rest, a.next);
      var ma := ValueFlow(n, false, l, Val(base));
      var mb := ArgsFlow(rest, a.next, base);
      m := Merge(ma, mb, l, a.next, b.next);
      var v := Live(true, Val(base));
      SubRefl(mb);
      Before(Do(Cons), b.code, Live(true, Val(Val(base))), v, v, mb, mb);
      Then(a.code, [Do(Cons)] + b.code, v, Live(true, Val(Val(base))), v, ma, mb, m);
  }

  lemma ApplyFlow(n: Node, tail: bool, l: nat, base: Shape) returns (m: Shapes)
    requires n.Apply? && FormedNode(n) && (tail ==> base == Back(Nil))
    ensures var o := EmitNode(n, tail, l);
      Dom(m, l, o.next) && Flows(o.code, Live(true, base), Live(!tail, Val(base)), m)
    decreases n, 0
  {
    hide Flows, EmitArgs, EmitStream, Sub;
    var a := EmitArgs(n.args, l);
    var g := EmitStream(n.operator, false, a.next);
    var ma := ArgsFlow(n.args, l, base);
    var mg := StreamFlow(n.operator, false, a.next, Val(base));
    FallsNoTail(n.operator);
    m := Merge(ma, mg, l, a.next, g.next);
    var op := if tail then TailCallIn else CallIn;
    var e := Live(!tail, Val(base));
    var v := Live(true, Val(base));
    One(Do(op), Live(true, Val(Val(base))), mg);
    SubRefl(mg); SubRefl(m);
    Then(g.code, [Do(op)], v, Live(true, Val(Val(base))), e, mg, mg, mg);
    Then(a.code, g.code + [Do(op)], v, v, e, ma, mg, m);
    Before(Put(LitEmpty), a.code + (g.code + [Do(op)]), Live(true, base), v, e, m, m);
  }

  /** The end of a procedure or let* body. */
  lemma ReturnFlow(c: seq<Item>, r: bool, base: Shape, l: nat, mc: Shapes, m: Shapes)
    requires Flows(c, Live(true, Back(Nil)), Live(r, Val(Back(Nil))), mc) && Sub(mc, m) && l in m && m[l] == base
    ensures Flows(c + [Do(Swap), Do(Ret), Here(l)], Live(true, Back(Nil)), Live(true, base), m)
    ensures Flows(c + [Do(Swap), Do(Ret)], Live(true, Back(Nil)), Dead, m)
  {
    hide Flows;
    One(Here(l), Dead, m);
    Before(Do(Ret), [Here(l)], Live(r, Back(Val(Nil))), Dead, Live(true, base), m, m);
    Before(Do(Swap), [Do(Ret)] + [Here(l)], Live(r, Val(Back(Nil))), Live(r, Back(Val(Nil))), Live(true, base), m, m);
    assert [Do(Swap)] + ([Do(Ret)] + [Here(l)]) == [Do(Swap), Do(Ret), Here(l)];
    Then(c, [Do(Swap), Do(Ret), Here(l)], Live(true, Back(Nil)), Live(r, Val(Back(Nil))), Live(true, base), mc, m, m);
    One(Do(Ret), Live(r, Back(Val(Nil))), m);
    Before(Do(Swap), [Do(Ret)], Live(r, Val(Back(Nil))), Live(r, Back(Val(Nil))), Dead, m, m);
    assert [Do(Swap)] + [Do(Ret)] == [Do(Swap), Do(Ret)];
    Then(c, [Do(Swap), Do(Ret)], Live(true, Back(Nil)), Live(r, Val(Back(Nil))), Dead, mc, m, m);
  }

  /** A procedure is entered with its return closure above the argument list. */
  lemma LambdaFlow(n: Node, tail: bool, l: nat, base: Shape) returns (m: Shapes)
    requires n.Lambda? && FormedNode(n)
    ensures var o := EmitNode(n, tail, l);
      Dom(m, l, o.next) && Flows(o.code, Live(true, base), Live(true, Val(base)), m)
    decreases n, 0
  {
    var b := EmitStream(n.body, true, l + 2);
    var mb := StreamFlow(n.body, true, l + 2, Back(Nil));
    var own: Shapes := map[l := Back(Val(Nil)), l + 1 := base];
    assert l in own && l + 1 in own;
    m := Merge(own, mb, l, l + 2, b.next);
    assert l in m && l + 1 in m && m[l] == own[l] && m[l + 1] == own[l + 1];
    hide Flows, EmitStream, EmitFormals;
    FormalsFlow(n.formals);
    var fs := EmitFormals(n.formals);
    LambdaBody(fs, b.code, StreamFalls(n.body, true), l, base, mb, m);
    LambdaEnd([Here(l), Do(Swap)] + (fs + (b.code + [Do(Swap), Do(Ret)])), l, base, m);
  }

  /** From the entry label to the return. */
  lemma LambdaBody(fs: seq<Item>, b: seq<Item>, r: bool, l: nat, base: Shape, mb: Shapes, m: Shapes)
    requires Flows(fs, Live(true, Val(Back(Nil))), Live(true, Back(Nil)), map[])
    requires Flows(b, Live(true, Back(Nil)), Live(r, Val(Back(Nil))), mb) && Sub(mb, m)
    requires l in m && l + 1 in m && m[l] == Back(Val(Nil)) && m[l + 1] == base
    ensures Flows([Here(l), Do(Swap)] + (fs + (b + [Do(Swap), Do(Ret)])), Dead, Dead, m)
  {
    hide Flows;
    ReturnFlow(b, r, base, l + 1, mb, m);
    var c1 := b + [Do(Swap), Do(Ret)];
    Then(fs, c1, Live(true, Val(Back(Nil))), Live(true, Back(Nil)), Dead, map[], m, m);
    Before(Do(Swap), fs + c1, Live(true, Back(Val(Nil))), Live(true, Val(Back(Nil))), Dead, m, m);
    Before(Here(l), [Do(Swap)] + (fs + c1), Dead, Live(true, Back(Val(Nil))), Dead, m, m);
    assert [Here(l), Do(Swap)] + (fs + c1) == [Here(l)] + ([Do(Swap)] + (fs + c1));
  }

  lemma LambdaEnd(p: seq<Item>, l: nat, base: Shape, m: Shapes)
    requires Flows(p, Dead, Dead, m) && l in m && l + 1 in m && m[l] == Back(Val(Nil)) && m[l + 1] == base
    ensures Flows([Go(Jmp, l + 1)] + (p + [Here(l + 1), Go(Proc, l)]), Live(true, base), Live(true, Val(base)), m)
  {
    hide Flows;
    var e := Live(true, Val(base));
    One(Go(Proc, l), Live(true, base), m);
    Before(Here(l + 1), [Go(Proc, l)], Dead, Live(true, base), e, m, m);
    assert [Here(l + 1)] + [Go(Proc, l)] == [Here(l + 1), Go(Proc, l)];
    Then(p, [Here(l + 1), Go(Proc, l)], Dead, Dead, e, m, m, m);
    Before(Go(Jmp, l + 1), p + [Here(l + 1), Go(Proc, l)], Live(true, base), Dead, e, m, m);
  }

  /** The common part of both kinds of let*: bindings, body and return. */
  lemma LetBody(b: seq<Item>, c: seq<Item>, r: bool, base: Shape, l: nat, mb: Shapes, mc: Shapes, m: Shapes)
    requires Flows(b, Live(true, Back(Nil)), Live(true, Val(Back(Nil))), mb) && Sub(mb, m)
    requires Flows(c, Live(true, Back(Nil)), Live(r, Val(Back(Nil))), mc) && Sub(mc, m) && l in m && m[l] == base
    ensures Flows(b + ([Do(Drop)] + (c + [Do(Swap), Do(Ret), Here(l)])), Live(true, Back(Nil)), Live(true, base), m)
  {
    hide Flows;
    ReturnFlow(c, r, base, l, mc, m);
    var c1 := c + [Do(Swap), Do(Ret), Here(l)];
    Before(Do(Drop), c1, Live(true, Val(Back(Nil))), Live(true, Back(Nil)), Live(true, base), m, m);
    Then(b, [Do(Drop)] + c1, Live(true, Back(Nil)), Live(true, Val(Back(Nil))), Live(true, base), mb, m, m);
  }

  lemma LetParts(n: Node, tail: bool, l: nat, own: Shapes) returns (mb: Shapes, mc: Shapes, m: Shapes)
    requires n.LetStar? && FormedNode(n) && Dom(own, l, l + 2)
    ensures var b := EmitStream(n.bindings, false, l + 2); var c := EmitStream(n.body, tail, b.next);
      && Flows(b.code, Live(true, Back(Nil)), Live(true, Val(Back(Nil))), mb)
      && Flows(c.code, Live(true, Back(Nil)), Live(StreamFalls(n.body, tail), Val(Back(Nil))), mc)
      && Dom(m, l, c.next)
    ensures Sub(own, m) && Sub(mb, m) && Sub(mc, m)
    decreases n, 0, 0
  {
    hide Flows, EmitStream, Sub;
    var b := EmitStream(n.bindings, false, l + 2);
    var c := EmitStream(n.body, tail, b.next);
    mb := StreamFlow(n.bindings, false, l + 2, Back(Nil));
    FallsNoTail(n.bindings);
    mc := StreamFlow(n.body, tail, b.next, Back(Nil));
    var m1 := Merge(own, mb, l, l + 2, b.next);
    m := Merge(m1, mc, l, b.next, c.next);
    SubTrans(own, m1, m); SubTrans(mb, m1, m);
  }

  lemma LetFlow(n: Node, l: nat, base: Shape) returns (m: Shapes)
    requires n.LetStar? && FormedNode(n)
    ensures var o := EmitNode(n, false, l);
      Dom(m, l, o.next) && Flows(o.code, Live(true, base), Live(true, Val(base)), m)
    decreases n, 0, 1
  {
    var b := EmitStream(n.bindings, false, l + 2);
    var c := EmitStream(n.body, false, b.next);
    var own: Shapes := map[l := Back(Nil), l + 1 := Val(base)];
    var mb, mc;
    mb, mc, m := LetParts(n, false, l, own);
    assert l in own && l + 1 in own;
    assert l in m && l + 1 in m && m[l] == own[l] && m[l + 1] == own[l + 1];
    hide Flows, EmitStream;
    LetBody(b.code, c.code, StreamFalls(n.body, false), Val(base), l + 1, mb, mc, m);
    var w := b.code + ([Do(Drop)] + (c.code + [Do(Swap), Do(Ret), Here(l + 1)]));
    Before(Here(l), w, Dead, Live(true, Back(Nil)), Live(true, Val(base)), m, m);
    Before(Go(Jmp, l + 1), [Here(l)] + w, Live(true, Val(base)), Dead, Live(true, Val(base)), m, m);
    Before(Go(Call, l), [Go(Jmp, l + 1)] + ([Here(l)] + w), Live(true, base), Live(true, Val(base)),
           Live(true, Val(base)), m, m);
    assert LetEntry(false, l) + w == [Go(Call, l)] + ([Go(Jmp, l + 1)] + ([Here(l)] + w));
  }

  lemma LetTailFlow(n: Node, l: nat) returns (m: Shapes)
    requires n.LetStar? && FormedNode(n)
    ensures var o := EmitNode(n, true, l);
      Dom(m, l, o.next) && Flows(o.code, Live(true, Back(Nil)), Live(true, Val(Back(Nil))), m)
    decreases n, 0, 1
  {
    var b := EmitStream(n.bindings, false, l + 2);
    var c := EmitStream(n.body, true, b.next);
    var base := Back(Nil);
    var own: Shapes := map[l := Back(Val(Nil)), l + 1 := Val(base)];
    var mb, mc;
    mb, mc, m := LetParts(n, true, l, own);
    assert l in own && l + 1 in own;
    assert l in m && l + 1 in m && m[l] == own[l] && m[l + 1] == own[l + 1];
    hide Flows, EmitStream;
    var e := Live(true, Val(base));
    LetBody(b.code, c.code, StreamFalls(n.body, true), Val(base), l + 1, mb, mc, m);
    var w := b.code + ([Do(Drop)] + (c.code + [Do(Swap), Do(Ret), Here(l + 1)]));
    Before(Do(Drop), w, Live(true, Val(base)), Live(true, base), e, m, m);
    Before(Do(Swap), [Do(Drop)] + w, Live(true, Back(Val(Nil))), Live(true, Val(base)), e, m, m);
    var w1 := [Do(Swap)] + ([Do(Drop)] + w);
    LetTailEntry(w1, l, e, m);
    LetTailPieces(w, l);
  }

  lemma LetTailPieces(w: seq<Item>, l: nat)
    ensures LetEntry(true, l) + w
      == [Put(LitEmpty)] + ([Go(Proc, l)] + ([Do(TailCallIn)] + ([Here(l)] + ([Do(Swap)] + ([Do(Drop)] + w)))))
  {
  }

  lemma LetTailEntry(w: seq<Item>, l: nat, e: Flow, m: Shapes)
    requires l in m && m[l] == Back(Val(Nil)) && Flows(w, Live(true, Back(Val(Nil))), e, m)
    ensures Flows([Put(LitEmpty)] + ([Go(Proc, l)] + ([Do(TailCallIn)] + ([Here(l)] + w))), Live(true, Back(Nil)), e, m)
  {
    assert Size(Val(Back(Nil))) == Size(Back(Val(Nil)));
    hide Flows, Size;
    var base := Back(Nil);
    Before(Here(l), w, Live(false, Val(base)), Live(true, Back(Val(Nil))), e, m, m);
    Before(Do(TailCallIn), [Here(l)] + w, Live(true, Val(Val(base))), Live(false, Val(base)), e, m, m);
    Before(Go(Proc, l), [Do(TailCallIn)] + ([Here(l)] + w), Live(true, Val(base)), Live(true, Val(Val(base))), e, m, m);
    Before(Put(LitEmpty), [Go(Proc, l)] + ([Do(TailCallIn)] + ([Here(l)] + w)), Live(true, base),
           Live(true, Val(base)), e, m, m);
  }

  /** The binding loop comes back to its label with the depth it had. */
  lemma RecordFlow(d: Stream, l: nat, base: Shape) returns (m: Shapes)
    requires Eval.WellQuoted(d)
    ensures Dom(m, l, l + 2) && Flows(EmitQuoted(d, false) + EmitRecord(l), Live(true, base), Live(true, Val(base)), m)
  {
    m := map[l := Val(base), l + 1 := Val(base)];
    assert l in m && l + 1 in m;
    hide Flows;
    var v := Live(true, Val(base));
    var v2 := Live(true, Val(Val(base)));
    RecordLoopFlow(l, base, m);
    var c := RecordLoop(l);
    Before(Do(CallIn), c, v2, v, v, m, m);
    Before(Do(Read), [Do(CallIn)] + c, v2, v2, v, m, m);
    Before(Put(LitSymbol(FACTORY)), [Do(Read)] + ([Do(CallIn)] + c), v, v2, v, m, m);
    assert EmitRecord(l) == [Put(LitSymbol(FACTORY))] + ([Do(Read)] + ([Do(CallIn)] + c));
    QuotedFlow(d, false, base);
    Then(EmitQuoted(d, false), EmitRecord(l), Live(true, base), v, v, map[], m, m);
  }

  lemma RecordLoopFlow(l: nat, base: Shape, m: Shapes)
    requires l in m && l + 1 in m && m[l] == Val(base) && m[l + 1] == Val(base)
    ensures Flows(RecordLoop(l), Live(true, Val(base)), Live(true, Val(base)), m)
  {
    hide Flows;
    var v := Live(true, Val(base));
    var v2 := Live(true, Val(Val(base)));
    var v3 := Live(true, Val(Val(Val(base))));
    One(Here(l + 1), Dead, m);
    Before(Go(Jmp, l), [Here(l + 1)], v, Dead, v, m, m);
    var c1 := [Go(Jmp, l)] + [Here(l + 1)];
    Before(Do(Cdr), c1, v, v, v, m, m);
    var c2 := [Do(Cdr)] + c1;
    Before(Do(Bind), c2, v3, v, v, m, m);
    var c3 := [Do(Bind)] + c2;
    Before(Do(Car), c3, v3, v3, v, m, m);
    var c4 := [Do(Car)] + c3;
    Before(Do(Swap), c4, v3, v3, v, m, m);
    var c5 := [Do(Swap)] + c4;
    Before(Do(Cdr), c5, v3, v3, v, m, m);
    var c6 := [Do(Cdr)] + c5;
    Before(Do(Dup), c6, v2, v3, v, m, m);
    var c7 := [Do(Dup)] + c6;
    Before(Do(Car), c7, v2, v2, v, m, m);
    var c8 := [Do(Car)] + c7;
    Before(Do(Dup), c8, v, v2, v, m, m);
    RecordTest([Do(Dup)] + c8, l, base, m);
    assert RecordLoop(l) == [Here(l)] + ([Do(Dup)] + ([Do(IsEmpty)] + ([Go(Jnf, l + 1)] + ([Do(Dup)] + c8))));
  }

  lemma RecordTest(c: seq<Item>, l: nat, base: Shape, m: Shapes)
    requires l in m && l + 1 in m && m[l] == Val(base) && m[l + 1] == Val(base)
    requires Flows(c, Live(true, Val(base)), Live(true, Val(base)), m)
    ensures Flows([Here(l)] + ([Do(Dup)] + ([Do(IsEmpty)] + ([Go(Jnf, l + 1)] + c))),
                  Live(true, Val(base)), Live(true, Val(base)), m)
  {
    hide Flows;
    var v := Live(true, Val(base));
    var v2 := Live(true, Val(Val(base)));
    Before(Go(Jnf, l + 1), c, v2, v, v, m, m);
    Before(Do(IsEmpty), [Go(Jnf, l + 1)] + c, v2, v2, v, m, m);
    Before(Do(Dup), [Do(IsEmpty)] + ([Go(Jnf, l + 1)] + c), v, v2, v, m, m);
    Before(Here(l), [Do(Dup)] + ([Do(IsEmpty)] + ([Go(Jnf, l + 1)] + c)), v, v, v, m, m);
  }
}
