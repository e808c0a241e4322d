/** Labels of emitted code: every label handed out while emitting a tree is defined exactly once
    in its code, and every jump goes to one of them. */
module Labels {
  import opened Machine
  import opened Syntax
  import opened Code
  import opened Emit

  /** How often label n is defined. */
  function Count(code: seq<Item>, n: nat): nat {
    if code == [] then 0 else (if code[0] == Here(n) then 1 else 0) + Count(code[1..], n)
  }

  /** Each label of [lo, hi) is defined once, no other is, and jumps stay within [low, hi). */
  ghost predicate Labelled(code: seq<Item>, low: nat, lo: nat, hi: nat) {
    && lo <= hi
    && (forall n: nat :: Count(code, n) == if lo <= n < hi then 1 else 0)
    && Closed(code, low, hi)
  }

  ghost predicate Closed(code: seq<Item>, low: nat, hi: nat) {
    forall i :: 0 <= i < |code| ==> ItemIn(code[i], low, hi)
  }

  ghost predicate ItemIn(it: Item, low: nat, hi: nat) {
    match it
    case Mark(l) => l.Gen?
    case Ins(Jump(_, l)) => l.Gen? && low <= l.n < hi
    case _ => true
  }

  lemma {:induction false} CountPlus(a: seq<Item>, b: seq<Item>, n: nat)
    ensures Count(a + b, n) == Count(a, n) + Count(b, n)
  {
    if a == [] {
      assert a + b == b;
    } else {
      CountPlus(a[1..], b, n);
      assert (a + b)[1..] == a[1..] + b;
    }
  }

  lemma CountAll(a: seq<Item>, b: seq<Item>)
    ensures forall n: nat :: Count(a + b, n) == Count(a, n) + Count(b, n)
  {
    forall n: nat ensures Count(a + b, n) == Count(a, n) + Count(b, n) { CountPlus(a, b, n); }
  }

  lemma CountOne(it: Item)
    ensures forall n: nat :: Count([it], n) == if it == Here(n) then 1 else 0
  {
    forall n: nat ensures Count([it], n) == if it == Here(n) then 1 else 0 {
      assert [it][1..] == [];
      assert Count([], n) == 0;
    }
  }

  // ---------- structural cases ----------

  lemma {:induction false} CountNone(code: seq<Item>, n: nat)
    requires forall i :: 0 <= i < |code| ==> !code[i].Mark?
    ensures Count(code, n) == 0
  {
    if code != [] { CountNone(code[1..], n); }
  }

  ghost predicate NoLabel(code: seq<Item>) {
    forall i :: 0 <= i < |code| ==> code[i].Ins? && !code[i].i.Jump?
  }

  lemma PlainLabelled(code: seq<Item>, low: nat, l: nat)
    requires NoLabel(code)
    ensures Labelled(code, low, l, l)
  {
    forall n: nat ensures Count(code, n) == 0 { CountNone(code, n); }
  }

  lemma PlainPlus(a: seq<Item>, b: seq<Item>)
    requires NoLabel(a) && NoLabel(b)
    ensures NoLabel(a + b)
  {
  }

  lemma {:induction false} QuotedPlain(d: Stream, isList: bool)
    ensures NoLabel(EmitQuoted(d, isList))
    decreases d
  {
    if d.Seq? {
      QuotedPlain(d.next, true);
      if d.head.Quoted? { QuotedPlain(d.head.datum, false); }
      var one := match d.head
        case LiteralNode(v) => [Put(v)]
        case Quoted(inner) => EmitQuoted(inner, false)
        case _ => [];
      var glue := if isList then [Do(Cons)] else [];
      assert NoLabel(one) && NoLabel(glue);
      PlainPlus(glue, EmitQuoted(d.next, true));
      PlainPlus(one, glue + EmitQuoted(d.next, true));
      hide NoLabel;
    }
  }

  lemma {:induction false} FormalsPlain(fs: Formals)
    ensures NoLabel(EmitFormals(fs))
  {
    if fs.Formal? && fs.next.Formal? { FormalsPlain(fs.next); }
  }

  /** Consecutive code with consecutive labels. */
  lemma Join(a: seq<Item>, b: seq<Item>, low: nat, lo: nat, mid: nat, hi: nat)
    requires Labelled(a, low, lo, mid) && Labelled(b, low, mid, hi)
    ensures Labelled(a + b, low, lo, hi)
  {
    CountAll(a, b);
    Widen(a, low, mid, low, hi);
  }

  lemma Widen(a: seq<Item>, low: nat, hi: nat, low': nat, hi': nat)
    requires Closed(a, low, hi) && low' <= low && hi <= hi'
    ensures Closed(a, low', hi')
  {
  }

  lemma LabelledWiden(a: seq<Item>, low: nat, lo: nat, hi: nat, low': nat)
    requires Labelled(a, low, lo, hi) && low' <= low
    ensures Labelled(a, low', lo, hi)
  {
  }

  // ---------- every node ----------

  lemma StreamLabels(s: Stream, tail: bool, l: nat)
    ensures Labelled(EmitStream(s, tail, l).code, l, l, EmitStream(s, tail, l).next)
    decreases s, 0
  {
    match s
    case End => PlainLabelled([Put(LitEmpty)], l, l);
    case Seq(n, rest) =>
      if rest.End? {
        ValueLabels(n, tail, l);
      } else {
        hide Labelled, EmitNode;
        NodeLabels(n, false, l);
        var a := EmitNode(n, false, l);
        var d := if Pushes(n) then [Do(Drop)] else [];
        var b := EmitStream(rest, tail, a.next);
        NodeNext(n, false, l);
        PlainLabelled(d, l, a.next);
        StreamLabels(rest, tail, a.next);
        LabelledWiden(b.code, a.next, a.next, b.next, l);
        Join(d, b.code, l, a.next, a.next, b.next);
        Join(a.code, d + b.code, l, l, a.next, b.next);
      }
  }

  lemma NodeNext(n: Node, tail: bool, l: nat)
    ensures EmitNode(n, tail, l).next >= l
    decreases n, 2
  {
    NodeLabels(n, tail, l);
  }

  lemma ValueLabels(n: Node, tail: bool, l: nat)
    ensures Labelled(EmitValue(n, tail, l).code, l, l, EmitValue(n, tail, l).next)
    decreases n, 3
  {
    hide Labelled, EmitNode;
    NodeLabels(n, tail, l);
    NodeNext(n, tail, l);
    var a := EmitNode(n, tail, l);
    var d := if Pushes(n) then [] else [Put(LitEmpty)];
    PlainLabelled(d, l, a.next);
    Join(a.code, d, l, l, a.next, a.next);
  }

  /** Labels and jumps of a concatenation, for forms whose own labels enclose those of their parts. */
  lemma Plus(a: seq<Item>, b: seq<Item>, low: nat, hi: nat)
    requires Closed(a, low, hi) && Closed(b, low, hi)
    ensures Closed(a + b, low, hi)
    ensures forall n: nat :: Count(a + b, n) == Count(a, n) + Count(b, n)
  {
    CountAll(a, b);
  }

  lemma One(it: Item, low: nat, hi: nat)
    requires ItemIn(it, low, hi)
    ensures Closed([it], low, hi)
    ensures forall n: nat :: Count([it], n) == if it == Here(n) then 1 else 0
  {
    CountOne(it);
  }

  lemma Part(a: seq<Item>, low': nat, lo: nat, hi': nat, low: nat, hi: nat)
    requires Labelled(a, low', lo, hi') && low <= low' && hi' <= hi
    ensures Closed(a, low, hi) && lo <= hi'
    ensures forall n: nat :: Count(a, n) == if lo <= n < hi' then 1 else 0
  {
    Widen(a, low', hi', low, hi);
  }

  lemma NodeLabels(n: Node, tail: bool, l: nat)
    ensures Labelled(EmitNode(n, tail, l).code, l, l, EmitNode(n, tail, l).next)
    decreases n, 1
  {
    match n
    case LiteralNode(v) => PlainLabelled([Put(v)], l, l);
    case Quoted(d) =>
      QuotedPlain(d, false);
      PlainLabelled(EmitQuoted(d, false), l, l);
    case Load(x) =>
      hide Labelled, EmitStream;
      var a := EmitStream(x, false, l);
      StreamLabels(x, false, l);
      PlainLabelled([Do(Read)], l, a.next) by { StreamNext(x, false, l); }
      Join(a.code, [Do(Read)], l, l, a.next, a.next);
    case BindNode(v, x) => DoubleLabels(n, v, x, Bind, l);
    case StoreNode(v, x) => DoubleLabels(n, v, x, Set, l);
    case MathNode(m, v, x) => DoubleLabels(n, v, x, Math(m), l);
    case If(_, _, _) => IfLabels(n, tail, l);
    case Cond(cs) =>
      var a := EmitClauses(cs, l, tail, l + 1);
      ClausesLabels(cs, l, tail, l + 1);
      hide Count, Closed, EmitClauses;
      Part(a.code, l, l + 1, a.next, l, a.next);
      One(Put(LitEmpty), l, a.next);
      One(Here(l), l, a.next);
      assert [Put(LitEmpty), Here(l)] == [Put(LitEmpty)] + [Here(l)];
      Plus([Put(LitEmpty)], [Here(l)], l, a.next);
      Plus(a.code, [Put(LitEmpty), Here(l)], l, a.next);
    case And(xs) => LogicLabels(xs, true, l);
    case Or(xs) => LogicLabels(xs, false, l);
    case Lambda(_, _) => LambdaLabels(n, tail, l);
    case Apply(_, _) => ApplyLabels(n, tail, l);
    case LetStar(_, _) => LetLabels(n, tail, l);
    case RecordType(d) => RecordLabels(d, l);
  }

  lemma StreamNext(s: Stream, tail: bool, l: nat)
    ensures EmitStream(s, tail, l).next >= l
    decreases s, 1
  {
    StreamLabels(s, tail, l);
  }

  lemma DoubleLabels(n: Node, a: Stream, b: Stream, op: Op, l: nat)
    requires a < n && b < n
    ensures var ca := EmitStream(a, false, l); var d := Double(ca, EmitStream(b, false, ca.next), op);
      Labelled(d.code, l, l, d.next)
    decreases n, 0
  {
    hide Labelled, EmitStream;
    var ca := EmitStream(a, false, l);
    var cb := EmitStream(b, false, ca.next);
    StreamLabels(a, false, l);
    StreamLabels(b, false, ca.next);
    StreamNext(a, false, l);
    StreamNext(b, false, ca.next);
    LabelledWiden(cb.code, ca.next, ca.next, cb.next, l);
    PlainLabelled([Do(op)], l, cb.next);
    Join(cb.code, [Do(op)], l, ca.next, cb.next, cb.next);
    Join(ca.code, cb.code + [Do(op)], l, l, ca.next, cb.next);
  }

  lemma IfLabels(n: Node, tail: bool, l: nat)
    requires n.If?
    ensures Labelled(EmitNode(n, tail, l).code, l, l, EmitNode(n, tail, l).next)
    decreases n, 0
  {
    var cc := EmitStream(n.test, false, l + 2);
    var ce := EmitStream(n.onFalse, tail, cc.next);
    var ct := EmitStream(n.onTrue, tail, ce.next);
    StreamLabels(n.test, false, l + 2);
    StreamLabels(n.onFalse, tail, cc.next);
    StreamLabels(n.onTrue, tail, ce.next);
    hide Labelled, EmitStream;
    IfParts(cc.code, ce.code, ct.code, l, cc.next, ce.next, ct.next);
  }

  lemma IfParts(cc: seq<Item>, ce: seq<Item>, ct: seq<Item>, l: nat, m1: nat, m2: nat, h: nat)
    requires Labelled(cc, l + 2, l + 2, m1) && Labelled(ce, m1, m1, m2) && Labelled(ct, m2, m2, h)
    ensures Labelled(cc + ([Go(Jnf, l)] + (ce + ([Go(Jmp, l + 1)] + ([Here(l)] + (ct + [Here(l + 1)]))))), l, l, h)
  {
    hide Count, Closed;
    Part(cc, l + 2, l + 2, m1, l, h);
    Part(ce, m1, m1, m2, l, h);
    Part(ct, m2, m2, h, l, h);
    One(Go(Jnf, l), l, h);
    One(Go(Jmp, l + 1), l, h);
    One(Here(l), l, h);
    One(Here(l + 1), l, h);
    var c4 := ct + [Here(l + 1)];
    var c3 := [Here(l)] + c4;
    var c2 := [Go(Jmp, l + 1)] + c3;
    Plus(ct, [Here(l + 1)], l, h);
    Plus([Here(l)], c4, l, h);
    Plus([Go(Jmp, l + 1)], c3, l, h);
    Plus(ce, c2, l, h);
    Plus([Go(Jnf, l)], ce + c2, l, h);
    Plus(cc, [Go(Jnf, l)] + (ce + c2), l, h);
  }

  lemma ClausesLabels(cs: Clauses, done: nat, tail: bool, l: nat)
    requires done < l
    ensures Labelled(EmitClauses(cs, done, tail, l).code, done, l, EmitClauses(cs, done, tail, l).next)
    decreases cs
  {
    match cs
    case NoClause => PlainLabelled([], done, l);
    case Clause(t, b, rest) =>
      var ct := EmitStream(t, false, l);
      var cb := EmitStream(b, tail, ct.next + 1);
      var cr := EmitClauses(rest, done, tail, cb.next);
      StreamLabels(t, false, l);
      StreamLabels(b, tail, ct.next + 1);
      ClausesLabels(rest, done, tail, cb.next);
      hide Labelled, EmitStream, EmitClauses;
      ClauseParts(ct.code, cb.code, cr.code, done, l, ct.next, cb.next, cr.next);
      ClauseIs(cs, done, tail, l);
  }

  lemma ClauseParts(ct: seq<Item>, cb: seq<Item>, cr: seq<Item>, done: nat, l: nat, skip: nat, mid: nat, h: nat)
    requires done < l && Labelled(ct, l, l, skip) && Labelled(cb, skip + 1, skip + 1, mid) && Labelled(cr, done, mid, h)
    ensures Labelled(ct + ([Do(Not), Go(Jnf, skip)] + (cb + ([Go(Jmp, done), Here(skip)] + cr))), done, l, h)
  {
    hide Count, Closed;
    Part(ct, l, l, skip, done, h);
    Part(cb, skip + 1, skip + 1, mid, done, h);
    Part(cr, done, mid, h, done, h);
    One(Do(Not), done, h);
    One(Go(Jnf, skip), done, h);
    One(Go(Jmp, done), done, h);
    One(Here(skip), done, h);
    var j := [Go(Jmp, done), Here(skip)];
    assert j == [Go(Jmp, done)] + [Here(skip)];
    Plus([Go(Jmp, done)], [Here(skip)], done, h);
    Plus(j, cr, done, h);
    Plus(cb, j + cr, done, h);
    var i := [Do(Not), Go(Jnf, skip)];
    assert i == [Do(Not)] + [Go(Jnf, skip)];
    Plus([Do(Not)], [Go(Jnf, skip)], done, h);
    Plus(i, cb + (j + cr), done, h);
    Plus(ct, i + (cb + (j + cr)), done, h);
  }

  lemma ClauseIs(cs: Clauses, done: nat, tail: bool, l: nat)
    requires cs.Clause?
    ensures var ct := EmitStream(cs.test, false, l); var cb := EmitStream(cs.body, tail, ct.next + 1);
      var cr := EmitClauses(cs.rest, done, tail, cb.next);
      EmitClauses(cs, done, tail, l)
        == Out(ct.code + ([Do(Not), Go(Jnf, ct.next)] + (cb.code + ([Go(Jmp, done), Here(ct.next)] + cr.code))),
               cr.next)
  {
    hide EmitStream;
  }

  lemma LogicLabels(xs: Stream, conj: bool, l: nat)
    ensures Labelled(EmitLogic(xs, conj, l).code, l, l, EmitLogic(xs, conj, l).next)
    decreases xs, 3
  {
    if xs.End? {
      var v := Put(if conj then LitTrue else LitFalse);
      hide Closed;
      One(v, l, l + 1);
      One(Here(l), l, l + 1);
      assert [v, Here(l)] == [v] + [Here(l)];
      Plus([v], [Here(l)], l, l + 1);
    } else {
      var a := EmitBool(xs, conj, l, l + 1);
      BoolLabels(xs, conj, l, l + 1);
      hide Count, Closed, EmitBool;
      Part(a.code, l, l + 1, a.next, l, a.next);
      One(Here(l), l, a.next);
      Plus(a.code, [Here(l)], l, a.next);
    }
  }

  lemma BoolLabels(xs: Stream, conj: bool, done: nat, l: nat)
    requires xs.Seq? && done < l
    ensures Labelled(EmitBool(xs, conj, done, l).code, done, l, EmitBool(xs, conj, done, l).next)
    decreases xs, 2
  {
    var a := EmitValue(xs.head, false, l);
    ValueLabels(xs.head, false, l);
    LabelledWiden(a.code, l, l, a.next, done);
    if xs.next.Seq? {
      var t := BoolTest(conj, done, a.next);
      var b := EmitBool(xs.next, conj, done, t.next);
      BoolLabels(xs.next, conj, done, t.next);
      BoolTestLabels(conj, done, a.next);
      hide Labelled, EmitBool, EmitValue, BoolTest;
      Join(t.code, b.code, done, a.next, t.next, b.next);
      Join(a.code, t.code + b.code, done, l, a.next, b.next);
    }
  }

  lemma BoolTestLabels(conj: bool, done: nat, l: nat)
    requires done < l
    ensures Labelled(BoolTest(conj, done, l).code, done, l, BoolTest(conj, done, l).next)
  {
    var c := BoolTest(conj, done, l);
    var h := c.next;
    hide Closed, Count;
    One(Do(Dup), done, h);
    One(Go(Jnf, if conj then l else done), done, h);
    One(Do(Drop), done, h);
    if conj {
      One(Go(Jmp, done), done, h);
      One(Here(l), done, h);
      Plus([Here(l)], [Do(Drop)], done, h);
      Plus([Go(Jmp, done)], [Here(l)] + [Do(Drop)], done, h);
      var r := [Go(Jmp, done)] + ([Here(l)] + [Do(Drop)]);
      Plus([Go(Jnf, l)], r, done, h);
      Plus([Do(Dup)], [Go(Jnf, l)] + r, done, h);
      assert c.code == [Do(Dup)] + ([Go(Jnf, l)] + r);
    } else {
      Plus([Go(Jnf, done)], [Do(Drop)], done, h);
      Plus([Do(Dup)], [Go(Jnf, done)] + [Do(Drop)], done, h);
      assert c.code == [Do(Dup)] + ([Go(Jnf, done)] + [Do(Drop)]);
    }
  }

  lemma ArgsLabels(xs: Stream, l: nat)
    ensures Labelled(EmitArgs(xs, l).code, l, l, EmitArgs(xs, l).next)
    decreases xs
  {
    match xs
    case End => PlainLabelled([], l, l);
    case Seq(n, rest) =>
      var a := EmitValue(n, false, l);
      var b := EmitArgs(rest, a.next);
      ValueLabels(n, false, l);
      ArgsLabels(rest, a.next);
      LabelledWiden(b.code, a.next, a.next, b.next, l);
      PlainLabelled([Do(Cons)], l, a.next);
      hide Labelled, EmitValue;
      Join([Do(Cons)], b.code, l, a.next, a.next, b.next);
      Join(a.code, [Do(Cons)] + b.code, l, l, a.next, b.next);
  }

  lemma ApplyLabels(n: Node, tail: bool, l: nat)
    requires n.Apply?
    ensures Labelled(EmitNode(n, tail, l).code, l, l, EmitNode(n, tail, l).next)
    decreases n, 0
  {
    var a := EmitArgs(n.args, l);
    var g := EmitStream(n.operator, false, a.next);
    var last := [Do(if tail then TailCallIn else CallIn)];
    ArgsLabels(n.args, l);
    StreamLabels(n.operator, false, a.next);
    LabelledWiden(g.code, a.next, a.next, g.next, l);
    PlainLabelled(last, l, g.next);
    PlainLabelled([Put(LitEmpty)], l, l);
    hide Labelled, EmitArgs, EmitStream;
    Join(g.code, last, l, a.next, g.next, g.next);
    Join(a.code, g.code + last, l, l, a.next, g.next);
    Join([Put(LitEmpty)], a.code + (g.code + last), l, l, l, g.next);
  }

  lemma LambdaLabels(n: Node, tail: bool, l: nat)
    requires n.Lambda?
    ensures Labelled(EmitNode(n, tail, l).code, l, l, EmitNode(n, tail, l).next)
    decreases n, 0
  {
    var b := EmitStream(n.body, true, l + 2);
    StreamLabels(n.body, true, l + 2);
    FormalsPlain(n.formals);
    hide Labelled, EmitStream, EmitFormals, NoLabel;
    LambdaParts(EmitFormals(n.formals), b.code, l, b.next);
  }

  lemma LambdaParts(fs: seq<Item>, b: seq<Item>, l: nat, h: nat)
    requires NoLabel(fs) && Labelled(b, l + 2, l + 2, h)
    ensures Labelled([Go(Jmp, l + 1)] + (([Here(l), Do(Swap)] + (fs + (b + [Do(Swap), Do(Ret)])))
                     + [Here(l + 1), Go(Proc, l)]), l, l, h)
  {
    hide Count, Closed;
    var last := [Do(Swap), Do(Ret)];
    PlainLabelled(fs, l, l + 2);
    PlainLabelled(last, l, h);
    PlainLabelled([Do(Swap)], l, l + 2);
    Part(b, l + 2, l + 2, h, l, h);
    Part(fs, l, l + 2, l + 2, l, h);
    Part(last, l, h, h, l, h);
    Part([Do(Swap)], l, l + 2, l + 2, l, h);
    One(Here(l), l, h);
    One(Here(l + 1), l, h);
    One(Go(Proc, l), l, h);
    One(Go(Jmp, l + 1), l, h);
    Plus(b, last, l, h);
    Plus(fs, b + last, l, h);
    var e := [Here(l), Do(Swap)];
    assert e == [Here(l)] + [Do(Swap)];
    Plus([Here(l)], [Do(Swap)], l, h);
    Plus(e, fs + (b + last), l, h);
    var z := [Here(l + 1), Go(Proc, l)];
    assert z == [Here(l + 1)] + [Go(Proc, l)];
    Plus([Here(l + 1)], [Go(Proc, l)], l, h);
    Plus(e + (fs + (b + last)), z, l, h);
    Plus([Go(Jmp, l + 1)], (e + (fs + (b + last))) + z, l, h);
  }

  lemma LetEntryLabels(tail: bool, l: nat, h: nat)
    requires h >= l + 2
    ensures Closed(LetEntry(tail, l), l, h)
    ensures forall n: nat :: Count(LetEntry(tail, l), n) == if n == l then 1 else 0
  {
    hide Closed, Count;
    One(Here(l), l, h);
    if tail {
      One(Put(LitEmpty), l, h);
      One(Go(Proc, l), l, h);
      One(Do(TailCallIn), l, h);
      One(Do(Swap), l, h);
      One(Do(Drop), l, h);
      Plus([Do(Swap)], [Do(Drop)], l, h);
      var c1 := [Here(l)] + ([Do(Swap)] + [Do(Drop)]);
      Plus([Here(l)], [Do(Swap)] + [Do(Drop)], l, h);
      Plus([Do(TailCallIn)], c1, l, h);
      Plus([Go(Proc, l)], [Do(TailCallIn)] + c1, l, h);
      Plus([Put(LitEmpty)], [Go(Proc, l)] + ([Do(TailCallIn)] + c1), l, h);
      assert LetEntry(tail, l) == [Put(LitEmpty)] + ([Go(Proc, l)] + ([Do(TailCallIn)] + c1));
    } else {
      One(Go(Call, l), l, h);
      One(Go(Jmp, l + 1), l, h);
      Plus([Go(Jmp, l + 1)], [Here(l)], l, h);
      Plus([Go(Call, l)], [Go(Jmp, l + 1)] + [Here(l)], l, h);
      assert LetEntry(tail, l) == [Go(Call, l)] + ([Go(Jmp, l + 1)] + [Here(l)]);
    }
  }

  lemma LetLabels(n: Node, tail: bool, l: nat)
    requires n.LetStar?
    ensures Labelled(EmitNode(n, tail, l).code, l, l, EmitNode(n, tail, l).next)
    decreases n, 0
  {
    var b := EmitStream(n.bindings, false, l + 2);
    var c := EmitStream(n.body, tail, b.next);
    StreamLabels(n.bindings, false, l + 2);
    StreamLabels(n.body, tail, b.next);
    hide Labelled, EmitStream, LetEntry;
    LetParts(LetEntry(tail, l), b.code, c.code, tail, l, b.next, c.next);
  }

  lemma LetParts(e: seq<Item>, b: seq<Item>, c: seq<Item>, tail: bool, l: nat, m: nat, h: nat)
    requires e == LetEntry(tail, l) && Labelled(b, l + 2, l + 2, m) && Labelled(c, m, m, h)
    ensures Labelled(e + (b + ([Do(Drop)] + (c + [Do(Swap), Do(Ret), Here(l + 1)]))), l, l, h)
  {
    hide Count, Closed, LetEntry;
    PlainLabelled([Do(Swap), Do(Ret)], l, h);
    Part(b, l + 2, l + 2, m, l, h);
    Part(c, m, m, h, l, h);
    Part([Do(Swap), Do(Ret)], l, h, h, l, h);
    One(Here(l + 1), l, h);
    One(Do(Drop), l, h);
    var last := [Do(Swap), Do(Ret), Here(l + 1)];
    assert last == [Do(Swap), Do(Ret)] + [Here(l + 1)];
    Plus([Do(Swap), Do(Ret)], [Here(l + 1)], l, h);
    Plus(c, last, l, h);
    Plus([Do(Drop)], c + last, l, h);
    Plus(b, [Do(Drop)] + (c + last), l, h);
    LetEntryLabels(tail, l, h);
    Plus(e, b + ([Do(Drop)] + (c + last)), l, h);
  }

  lemma RecordLabels(d: Stream, l: nat)
    ensures Labelled(EmitQuoted(d, false) + EmitRecord(l), l, l, l + 2)
  {
    QuotedPlain(d, false);
    PlainLabelled(EmitQuoted(d, false), l, l);
    hide EmitQuoted;
    LoopLabels(l);
    hide Count, Closed, RecordLoop;
    var call := [Put(LitSymbol(FACTORY)), Do(Read), Do(CallIn)];
    PlainLabelled(call, l, l);
    var h := l + 2;
    Part(EmitQuoted(d, false), l, l, l, l, h);
    Part(call, l, l, l, l, h);
    Plus(call, RecordLoop(l), l, h);
    Plus(EmitQuoted(d, false), EmitRecord(l), l, h);
  }

  lemma LoopPieces(l: nat, test: seq<Item>, step: seq<Item>)
    requires test == [Do(Dup), Do(IsEmpty)]
      && step == [Do(Dup), Do(Car), Do(Dup), Do(Cdr), Do(Swap), Do(Car), Do(Bind), Do(Cdr)]
    ensures RecordLoop(l) == [Here(l)] + (test + ([Go(Jnf, l + 1)] + (step + ([Go(Jmp, l)] + [Here(l + 1)]))))
  {
  }

  lemma LoopLabels(l: nat)
    ensures Closed(RecordLoop(l), l, l + 2)
    ensures forall n: nat :: Count(RecordLoop(l), n) == if l <= n < l + 2 then 1 else 0
  {
    var test := [Do(Dup), Do(IsEmpty)];
    var step := [Do(Dup), Do(Car), Do(Dup), Do(Cdr), Do(Swap), Do(Car), Do(Bind), Do(Cdr)];
    hide Count, Closed, RecordLoop;
    PlainLabelled(test, l, l);
    PlainLabelled(step, l, l);
    var h := l + 2;
    Part(test, l, l, l, l, h);
    Part(step, l, l, l, l, h);
    One(Here(l), l, h);
    One(Go(Jnf, l + 1), l, h);
    One(Go(Jmp, l), l, h);
    One(Here(l + 1), l, h);
    Plus([Go(Jmp, l)], [Here(l + 1)], l, h);
    var c1 := step + ([Go(Jmp, l)] + [Here(l + 1)]);
    Plus(step, [Go(Jmp, l)] + [Here(l + 1)], l, h);
    Plus([Go(Jnf, l + 1)], c1, l, h);
    var c2 := test + ([Go(Jnf, l + 1)] + c1);
    Plus(test, [Go(Jnf, l + 1)] + c1, l, h);
    Plus([Here(l)], c2, l, h);
    LoopPieces(l, test, step);
  }

  // ---------- consequences ----------

  lemma {:induction false} CountPositive(code: seq<Item>, n: nat)
    ensures Count(code, n) > 0 <==> Here(n) in code
  {
    if code != [] { CountPositive(code[1..], n); }
  }

  lemma {:induction false} CountTwo(code: seq<Item>, n: nat, i: int, j: int)
    requires 0 <= i < j < |code| && code[i] == Here(n) && code[j] == Here(n)
    ensures Count(code, n) >= 2
  {
    if i > 0 {
      CountTwo(code[1..], n, i - 1, j - 1);
    } else {
      CountPositive(code[1..], n);
      assert code[1..][j - 1] == Here(n);
    }
  }

  /** Emitted code defines no label twice and jumps only to labels it defines. */
  lemma EmittedLabels(s: Stream, tail: bool, l: nat)
    ensures var c := EmitStream(s, tail, l).code;
      UniqueLabels(c) && forall i :: 0 <= i < |c| && c[i].Ins? && c[i].i.Jump? ==> Mark(c[i].i.target) in c
  {
    var c := EmitStream(s, tail, l).code;
    StreamLabels(s, tail, l);
    forall i, j | 0 <= i < j < |c| && c[i].Mark? ensures c[i] != c[j] {
      assert ItemIn(c[i], l, EmitStream(s, tail, l).next);
      if c[i] == c[j] { CountTwo(c, c[i].l.n, i, j); }
    }
    forall i | 0 <= i < |c| && c[i].Ins? && c[i].i.Jump? ensures Mark(c[i].i.target) in c {
      assert ItemIn(c[i], l, EmitStream(s, tail, l).next);
      CountPositive(c, c[i].i.target.n);
    }
  }
}
