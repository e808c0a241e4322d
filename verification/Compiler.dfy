/** The compiler object: an output buffer of labelled code and a running label index.  Each method
    follows the emit routine of the same name and is held to the code Emit gives for its node. */
module Compiler {
  import opened Machine
  import opened Syntax
  import opened Code
  import Emit

  /** The code of one node of a quoted structure; nodes of other kinds give none. */
  ghost function QuotedPart(n: Node): seq<Item> {
    match n
    case LiteralNode(v) => [Emit.Put(v)]
    case Quoted(inner) => Emit.EmitQuoted(inner, false)
    case _ => []
  }

  lemma QuotedSplit(before: seq<Item>, d: Stream, isList: bool)
    requires d.Seq?
    ensures before + Emit.EmitQuoted(d, isList)
      == before + QuotedPart(d.head) + (if isList then [Emit.Do(Cons)] else []) + Emit.EmitQuoted(d.next, true)
  {
    var one, glue, rest := QuotedPart(d.head), if isList then [Emit.Do(Cons)] else [], Emit.EmitQuoted(d.next, true);
    assert Emit.EmitQuoted(d, isList) == one + (glue + rest);
    hide Emit.EmitQuoted, QuotedPart;
    assert before + (one + (glue + rest)) == before + one + glue + rest;
  }

  /** Appending piece by piece is appending the nested concatenation. */
  lemma Pieces4<T>(z: seq<T>, a: seq<T>, b: seq<T>, c: seq<T>, d: seq<T>)
    ensures z + (a + (b + (c + d))) == z + a + b + c + d
  {
    assert z + (a + (b + (c + d))) == (z + a) + (b + (c + d));
    assert (z + a) + (b + (c + d)) == (z + a) + b + (c + d);
  }

  lemma Pieces7<T>(z: seq<T>, a: seq<T>, b: seq<T>, c: seq<T>, d: seq<T>, e: seq<T>, f: seq<T>, g: seq<T>)
    ensures z + (a + (b + (c + (d + (e + (f + g)))))) == z + a + b + c + d + e + f + g
  {
    Pieces4(z, a, b, c, d + (e + (f + g)));
    Pieces4(z + a + b + c, d, e, f, g);
  }

  lemma LambdaPieces(z: seq<Item>, n: Node, l: nat, c: Emit.Out)
    requires n.Lambda? && c == Emit.EmitStream(n.body, true, l + 2)
    ensures forall tail :: Emit.EmitNode(n, tail, l).next == c.next
    ensures forall tail :: (z + Emit.EmitNode(n, tail, l).code
      == z + [Emit.Go(Jmp, l + 1)] + [Emit.Here(l), Emit.Do(Swap)]
      + Emit.EmitFormals(n.formals) + c.code + [Emit.Do(Swap), Emit.Do(Ret)] + [Emit.Here(l + 1), Emit.Go(Proc, l)])
  {
    hide Emit.EmitStream, Emit.EmitFormals;
    var j, h, f := [Emit.Go(Jmp, l + 1)], [Emit.Here(l), Emit.Do(Swap)], Emit.EmitFormals(n.formals);
    var r, e := [Emit.Do(Swap), Emit.Do(Ret)],
      [Emit.Here(l + 1), Emit.Go(Proc, l)];
    Pieces4(z + j, h, f, c.code, r);
    var p := h + (f + (c.code + r));
    assert z + (j + (p + e)) == z + j + p + e;
  }

  /** The code of a stream as its first node's code and what follows. */
  lemma StreamPieces(z: seq<Item>, s: Stream, tail: bool, l: nat)
    requires s.Seq?
    ensures var a := Emit.EmitNode(s.head, tail && s.next.End?, l); var o := Emit.EmitStream(s, tail, l);
      if s.next.End? then
        o.next == a.next && z + o.code == z + a.code + (if Pushes(s.head) then [] else [Emit.Put(LitEmpty)])
      else var b := Emit.EmitStream(s.next, tail, a.next);
        o.next == b.next && z + o.code == (if Pushes(s.head) then z + a.code + [Emit.Do(Drop)] else z + a.code) + b.code
  {
    hide Emit.EmitNode;
  }

  lemma LetPieces(z: seq<Item>, n: Node, tail: bool, l: nat, b: Emit.Out, c: Emit.Out, last: seq<Item>)
    requires n.LetStar? && b == Emit.EmitStream(n.bindings, false, l + 2) && c == Emit.EmitStream(n.body, tail, b.next)
    requires last == [Emit.Do(Swap), Emit.Do(Ret), Emit.Here(l + 1)]
    ensures Emit.EmitNode(n, tail, l).next == c.next
    ensures z + Emit.EmitNode(n, tail, l).code == z + Emit.LetEntry(tail, l) + b.code + [Emit.Do(Drop)] + c.code + last
  {
    hide Emit.EmitStream, Emit.LetEntry;
    var e := Emit.LetEntry(tail, l);
    var body := b.code + ([Emit.Do(Drop)] + (c.code + last));
    assert z + (e + body) == z + e + body;
    Pieces4(z + e, b.code, [Emit.Do(Drop)], c.code, last);
  }

  lemma FormalPieces(z: seq<Item>, fs: Formals)
    requires fs.Formal?
    ensures fs.next.NoFormal? ==> z + Emit.EmitFormals(fs) == z + [Emit.Put(LitSymbol(fs.name))] + [Emit.Do(Bind)]
    ensures !fs.next.NoFormal? ==> (z + Emit.EmitFormals(fs)
      == (var y := z + [Emit.Do(Dup)] + [Emit.Do(Car)] + [Emit.Put(LitSymbol(fs.name))] + [Emit.Do(Bind)];
          (if fs.next.Formal? then y + [Emit.Do(Cdr)] else y) + Emit.EmitFormals(fs.next)))
  {
    hide Emit.EmitFormals;
    FormalCode(fs);
    if !fs.next.NoFormal? {
      var a, b, c, d := [Emit.Do(Dup)], [Emit.Do(Car)], [Emit.Put(LitSymbol(fs.name))], [Emit.Do(Bind)];
      var e := (if fs.next.Formal? then [Emit.Do(Cdr)] else []) + Emit.EmitFormals(fs.next);
      Pieces4(z, a, b, c, d + e);
      assert z + a + b + c + (d + e) == z + a + b + c + d + e;
    }
  }

  lemma FormalCode(fs: Formals)
    requires fs.Formal?
    ensures fs.next.NoFormal? ==> Emit.EmitFormals(fs) == [Emit.Put(LitSymbol(fs.name))] + [Emit.Do(Bind)]
    ensures !fs.next.NoFormal? ==> (Emit.EmitFormals(fs)
      == [Emit.Do(Dup)] + ([Emit.Do(Car)] + ([Emit.Put(LitSymbol(fs.name))] + ([Emit.Do(Bind)]
         + ((if fs.next.Formal? then [Emit.Do(Cdr)] else []) + Emit.EmitFormals(fs.next))))))
  {
  }

  lemma FormalsEnd(fs: Formals)
    ensures !fs.Formal? ==> Emit.EmitFormals(fs) == [Emit.Do(Drop)]
  {
  }

  lemma ClausePieces(z: seq<Item>, cs: Clauses, done: nat, tail: bool, l: nat)
    requires cs.Clause?
    ensures var ct := Emit.EmitStream(cs.test, false, l); var cb := Emit.EmitStream(cs.body, tail, ct.next + 1);
      var r := Emit.EmitClauses(cs.rest, done, tail, cb.next); var o := Emit.EmitClauses(cs, done, tail, l);
      && o.next == r.next
      && z + o.code == z + ct.code + [Emit.Do(Not)] + [Emit.Go(Jnf, ct.next)] + cb.code
                       + [Emit.Go(Jmp, done)] + [Emit.Here(ct.next)] + r.code
  {
    hide Emit.EmitStream;
    var ct := Emit.EmitStream(cs.test, false, l);
    var cb := Emit.EmitStream(cs.body, tail, ct.next + 1);
    var r := Emit.EmitClauses(cs.rest, done, tail, cb.next);
    var end := [Emit.Go(Jmp, done), Emit.Here(ct.next)] + r.code;
    var mid := [Emit.Do(Not), Emit.Go(Jnf, ct.next)] + (cb.code + end);
    var y := z + ct.code + [Emit.Do(Not)] + [Emit.Go(Jnf, ct.next)];
    assert z + (ct.code + mid) == z + ct.code + mid;
    TwoPieces(z + ct.code, Emit.Do(Not), Emit.Go(Jnf, ct.next), cb.code + end);
    assert y + (cb.code + end) == y + cb.code + end;
    TwoPieces(y + cb.code, Emit.Go(Jmp, done), Emit.Here(ct.next), r.code);
  }

  lemma TwoPieces<T>(z: seq<T>, a: T, b: T, rest: seq<T>)
    ensures z + ([a, b] + rest) == z + [a] + [b] + rest
  {
  }

  class Compiler {
    var buf: seq<Item>
    var labelIndex: nat

    constructor ()
      ensures buf == [] && labelIndex == 0
    {
      buf, labelIndex := [], 0;
    }

    method GenLabel() returns (l: nat)
      modifies this`labelIndex
      ensures l == old(labelIndex) && labelIndex == l + 1
    {
      l := labelIndex;
      labelIndex := labelIndex + 1;
    }

    method EmitItem(it: Item)
      modifies this`buf
      ensures buf == old(buf) + [it]
    {
      buf := buf + [it];
    }

    /** A run of single instructions and labels. */
    method EmitItems(items: seq<Item>)
      modifies this`buf
      ensures buf == old(buf) + items
    {
      for i := 0 to |items|
        invariant buf == old(buf) + items[..i]
      {
        EmitItem(items[i]);
        assert items[..i + 1] == items[..i] + [items[i]];
      }
      assert items[..|items|] == items;
    }

    /** What an emit routine adds. */
    twostate predicate Adds(o: Emit.Out)
      reads this
    {
      buf == old(buf) + o.code && labelIndex == o.next
    }

    method EmitStream(s: Stream, tail: bool)
      modifies this
      ensures Adds(Emit.EmitStream(s, tail, old(labelIndex)))
      decreases s, 0
    {
      var head, pushed := s, false;
      ghost var all := Emit.EmitStream(s, tail, labelIndex);
      while head.Seq?
        invariant head == s || head < s
        invariant head.Seq? ==>
          var o := Emit.EmitStream(head, tail, labelIndex); buf + o.code == old(buf) + all.code && o.next == all.next
        invariant head.End? ==>
          buf + (if pushed then [] else [Emit.Put(LitEmpty)]) == old(buf) + all.code && labelIndex == all.next
        decreases head
      {
        StreamPieces(buf, head, tail, labelIndex);
        hide Emit.EmitStream, Emit.EmitNode;
        pushed := EmitNode(head.head, tail && head.next.End?);
        head := head.next;
        if head.Seq? && pushed {
          EmitItem(Emit.Do(Drop));
        }
      }
      if !pushed {
        EmitItem(Emit.Put(LitEmpty));
      }
    }

    method EmitNode(n: Node, tail: bool) returns (pushed: bool)
      modifies this
      ensures Adds(Emit.EmitNode(n, tail, old(labelIndex))) && pushed == Pushes(n)
      decreases n, 1
    {
      pushed := true;
      match n
      case LiteralNode(v) => EmitItem(Emit.Put(v));
      case Quoted(d) => EmitQuoted(d);
      case Load(x) =>
        EmitStream(x, false);
        EmitItem(Emit.Do(Read));
      case BindNode(v, x) =>
        EmitDouble(n, v, x, Bind);
        pushed := false;
      case StoreNode(v, x) =>
        EmitDouble(n, v, x, Set);
        pushed := false;
      case MathNode(m, a, b) => EmitDouble(n, a, b, Math(m));
      case If(_, _, _) => EmitIf(n, tail);
      case Cond(_) => EmitCond(n, tail);
      case And(xs) => EmitBool(xs, true);
      case Or(xs) => EmitBool(xs, false);
      case Lambda(_, _) => EmitLambda(n);
      case Apply(_, _) => EmitCall(n, tail);
      case LetStar(_, _) => EmitLetStar(n, tail);
      case RecordType(d) => EmitRecordType(d);
    }

    method EmitDouble(ghost n: Node, a: Stream, b: Stream, op: Op)
      requires a < n && b < n
      modifies this
      ensures var ca := Emit.EmitStream(a, false, old(labelIndex));
        Adds(Emit.Double(ca, Emit.EmitStream(b, false, ca.next), op))
      decreases n, 0
    {
      EmitStream(a, false);
      EmitStream(b, false);
      EmitItem(Emit.Do(op));
    }

    method EmitIf(n: Node, tail: bool)
      requires n.If?
      modifies this
      ensures Adds(Emit.EmitNode(n, tail, old(labelIndex)))
      decreases n, 0
    {
      hide Emit.EmitStream;
      ghost var z := buf;
      ghost var cc := Emit.EmitStream(n.test, false, labelIndex + 2);
      ghost var ce := Emit.EmitStream(n.onFalse, tail, cc.next);
      ghost var ct := Emit.EmitStream(n.onTrue, tail, ce.next);
      Pieces7(z, cc.code, [Emit.Go(Jnf, labelIndex)], ce.code, [Emit.Go(Jmp, labelIndex + 1)],
              [Emit.Here(labelIndex)], ct.code,
        [Emit.Here(labelIndex + 1)]);
      var trueLabel := GenLabel();
      var doneLabel := GenLabel();
      EmitStream(n.test, false);
      EmitItem(Emit.Go(Jnf, trueLabel));
      EmitStream(n.onFalse, tail);
      EmitItem(Emit.Go(Jmp, doneLabel));
      EmitItem(Emit.Here(trueLabel));
      EmitStream(n.onTrue, tail);
      EmitItem(Emit.Here(doneLabel));
    }

    method EmitCond(n: Node, tail: bool)
      requires n.Cond?
      modifies this
      ensures Adds(Emit.EmitNode(n, tail, old(labelIndex)))
      decreases n, 0
    {
      var done := GenLabel();
      EmitClauses(n.clauses, done, tail);
      hide Emit.EmitClauses;
      EmitItems([Emit.Put(LitEmpty), Emit.Here(done)]);
    }

    /** The loop over the clauses of a cond. */
    method EmitClauses(cs: Clauses, done: nat, tail: bool)
      modifies this
      ensures Adds(Emit.EmitClauses(cs, done, tail, old(labelIndex)))
      decreases cs, 1
    {
      var clause := cs;
      ghost var all := Emit.EmitClauses(cs, done, tail, labelIndex);
      while clause.Clause?
        invariant clause == cs || clause < cs
        invariant var o := Emit.EmitClauses(clause, done, tail, labelIndex);
          buf + o.code == old(buf) + all.code && o.next == all.next
        decreases clause
      {
        hide Emit.EmitClauses;
        EmitClause(clause, done, tail);
        clause := clause.rest;
      }
    }

    method EmitClause(cs: Clauses, done: nat, tail: bool)
      requires cs.Clause?
      modifies this
      ensures var o := Emit.EmitClauses(cs, done, tail, old(labelIndex));
        var r := Emit.EmitClauses(cs.rest, done, tail, labelIndex);
        buf + r.code == old(buf) + o.code && r.next == o.next
      decreases cs, 0
    {
      hide Emit.EmitStream;
      ClausePieces(buf, cs, done, tail, labelIndex);
      hide Emit.EmitClauses;
      EmitStream(cs.test, false);
      EmitItem(Emit.Do(Not));
      var next := GenLabel();
      EmitItem(Emit.Go(Jnf, next));
      EmitStream(cs.body, tail);
      EmitItem(Emit.Go(Jmp, done));
      EmitItem(Emit.Here(next));
    }

    method EmitBool(xs: Stream, conj: bool)
      modifies this
      ensures Adds(Emit.EmitLogic(xs, conj, old(labelIndex)))
      decreases xs, 4
    {
      var done := GenLabel();
      if xs.Seq? {
        EmitBoolArgs(xs, conj, done);
      } else {
        EmitItem(Emit.Put(if conj then LitTrue else LitFalse));
      }
      EmitItem(Emit.Here(done));
    }

    /** The loop over the arguments of and/or. */
    method EmitBoolArgs(xs: Stream, conj: bool, done: nat)
      requires xs.Seq?
      modifies this
      ensures Adds(Emit.EmitBool(xs, conj, done, old(labelIndex)))
      decreases xs, 3
    {
      var exp := xs;
      ghost var all := Emit.EmitBool(xs, conj, done, labelIndex);
      while exp.Seq?
        invariant exp == xs || exp < xs
        invariant exp.Seq? ==>
          var o := Emit.EmitBool(exp, conj, done, labelIndex); buf + o.code == old(buf) + all.code && o.next == all.next
        invariant exp.End? ==> buf == old(buf) + all.code && labelIndex == all.next
        decreases exp
      {
        ghost var before, l, here := buf, labelIndex, exp;
        ghost var o := Emit.EmitBool(here, conj, done, l);
        EmitValue(exp.head);
        exp := exp.next;
        if exp.Seq? {
          ghost var a := Emit.EmitValue(here.head, false, l);
          EmitBoolTest(conj, done);
          ghost var t := Emit.BoolTest(conj, done, a.next);
          ghost var b := Emit.EmitBool(exp, conj, done, t.next);
          hide Emit.EmitValue, Emit.BoolTest;
          assert o.code == a.code + (t.code + b.code);
          assert buf + b.code == before + o.code;
        }
      }
    }

    method EmitBoolTest(conj: bool, done: nat)
      modifies this
      ensures Adds(Emit.BoolTest(conj, done, old(labelIndex)))
    {
      EmitItem(Emit.Do(Dup));
      if conj {
        var next := GenLabel();
        EmitItems([Emit.Go(Jnf, next), Emit.Go(Jmp, done), Emit.Here(next)]);
      } else {
        EmitItem(Emit.Go(Jnf, done));
      }
      EmitItem(Emit.Do(Drop));
    }

    /** A node that must take a slot: () stands in when it pushes nothing. */
    method EmitValue(n: Node)
      modifies this
      ensures Adds(Emit.EmitValue(n, false, old(labelIndex)))
      decreases n, 2
    {
      var pushed := EmitNode(n, false);
      if !pushed { EmitItem(Emit.Put(LitEmpty)); }
    }

    method EmitLambda(n: Node)
      requires n.Lambda?
      modifies this
      ensures Adds(Emit.EmitNode(n, false, old(labelIndex))) && Adds(Emit.EmitNode(n, true, old(labelIndex)))
      decreases n, 0
    {
      hide Emit.EmitStream, Emit.EmitFormals;
      ghost var z, l := buf, labelIndex;
      ghost var c := Emit.EmitStream(n.body, true, l + 2);
      LambdaPieces(z, n, l, c);
      var procLabel := GenLabel();
      var skipLabel := GenLabel();
      EmitItem(Emit.Go(Jmp, skipLabel));
      EmitItems([Emit.Here(procLabel), Emit.Do(Swap)]);
      EmitFormals(n.formals);
      EmitStream(n.body, true);
      EmitItems([Emit.Do(Swap), Emit.Do(Ret)]);
      EmitItems([Emit.Here(skipLabel), Emit.Go(Proc, procLabel)]);
    }

    /** The loop over the formals of a lambda, and the drop after it. */
    method EmitFormals(fs: Formals)
      modifies this`buf
      ensures buf == old(buf) + Emit.EmitFormals(fs)
    {
      var node, bindRest := fs, false;
      while node.Formal?
        invariant !bindRest ==> buf + Emit.EmitFormals(node) == old(buf) + Emit.EmitFormals(fs)
        invariant bindRest ==> node.NoFormal? && buf == old(buf) + Emit.EmitFormals(fs)
        decreases node
      {
        FormalPieces(buf, node);
        hide Emit.EmitFormals;
        bindRest := node.next.NoFormal?;
        if !bindRest {
          EmitItem(Emit.Do(Dup));
          EmitItem(Emit.Do(Car));
        }
        EmitItem(Emit.Put(LitSymbol(node.name)));
        EmitItem(Emit.Do(Bind));
        node := node.next;
        if !bindRest && node.Formal? {
          EmitItem(Emit.Do(Cdr));
        }
      }
      FormalsEnd(node);
      hide Emit.EmitFormals;
      if !bindRest {
        EmitItem(Emit.Do(Drop));
      }
    }

    method EmitLetStar(n: Node, tail: bool)
      requires n.LetStar?
      modifies this
      ensures Adds(Emit.EmitNode(n, tail, old(labelIndex)))
      decreases n, 0
    {
      var bodyLabel := GenLabel();
      var nextLabel := GenLabel();
      EmitLetEntry(tail, bodyLabel, nextLabel);
      hide Emit.LetEntry, Emit.EmitStream;
      ghost var b := Emit.EmitStream(n.bindings, false, labelIndex);
      ghost var c := Emit.EmitStream(n.body, tail, b.next);
      ghost var last := [Emit.Do(Swap), Emit.Do(Ret), Emit.Here(nextLabel)];
      LetPieces(old(buf), n, tail, bodyLabel, b, c, last);
      hide Emit.EmitNode;
      EmitStream(n.bindings, false);
      EmitItem(Emit.Do(Drop));
      EmitStream(n.body, tail);
      EmitItems([Emit.Do(Swap), Emit.Do(Ret), Emit.Here(nextLabel)]);
    }

    method EmitLetEntry(tail: bool, bodyLabel: nat, nextLabel: nat)
      requires nextLabel == bodyLabel + 1
      modifies this`buf
      ensures buf == old(buf) + Emit.LetEntry(tail, bodyLabel)
    {
      if tail {
        EmitItems([Emit.Put(LitEmpty), Emit.Go(Proc, bodyLabel), Emit.Do(TailCallIn)]);
      } else {
        EmitItems([Emit.Go(Call, bodyLabel), Emit.Go(Jmp, nextLabel)]);
      }
      EmitItem(Emit.Here(bodyLabel));
      if tail {
        EmitItems([Emit.Do(Swap), Emit.Do(Drop)]);
      }
    }

    method EmitCall(n: Node, tail: bool)
      requires n.Apply?
      modifies this
      ensures Adds(Emit.EmitNode(n, tail, old(labelIndex)))
      decreases n, 0
    {
      hide Emit.EmitStream, Emit.EmitArgs;
      ghost var a := Emit.EmitArgs(n.args, labelIndex);
      Pieces4(buf, [Emit.Put(LitEmpty)], a.code, Emit.EmitStream(n.operator, false, a.next).code,
              [Emit.Do(if tail then TailCallIn else CallIn)]);
      EmitItem(Emit.Put(LitEmpty));
      EmitArgs(n.args);
      EmitStream(n.operator, false);
      EmitItem(Emit.Do(if tail then TailCallIn else CallIn));
    }

    /** The loop that conses the arguments. */
    method EmitArgs(xs: Stream)
      modifies this
      ensures Adds(Emit.EmitArgs(xs, old(labelIndex)))
      decreases xs, 3
    {
      var head := xs;
      ghost var all := Emit.EmitArgs(xs, labelIndex);
      while head.Seq?
        invariant head == xs || head < xs
        invariant var o := Emit.EmitArgs(head, labelIndex); buf + o.code == old(buf) + all.code && o.next == all.next
        decreases head
      {
        ghost var before, o, a := buf, Emit.EmitArgs(head, labelIndex), Emit.EmitValue(head.head, false, labelIndex);
        EmitValue(head.head);
        EmitItem(Emit.Do(Cons));
        head := head.next;
        hide Emit.EmitValue;
        ghost var b := Emit.EmitArgs(head, a.next);
        assert o.code == a.code + ([Emit.Do(Cons)] + b.code);
        assert buf + b.code == before + o.code;
      }
    }

    method EmitQuoted(d: Stream)
      modifies this`buf
      ensures buf == old(buf) + Emit.EmitQuoted(d, false)
      decreases d, 0
    {
      var head, isList := d, false;
      ghost var goal := buf + Emit.EmitQuoted(d, false);
      while head.Seq?
        invariant head == d || head < d
        invariant buf + Emit.EmitQuoted(head, isList) == goal
        decreases head
      {
        ghost var before := buf;
        QuotedSplit(before, head, isList);
        hide Emit.EmitQuoted, QuotedPart;
        EmitDatum(head.head);
        if isList { EmitItem(Emit.Do(Cons)); } else { assert buf == buf + []; }
        head := head.next;
        isList := true;
      }
    }

    method EmitDatum(n: Node)
      modifies this`buf
      ensures buf == old(buf) + QuotedPart(n)
      decreases n, 1
    {
      match n {
        case Quoted(inner) => EmitQuoted(inner);
        case LiteralNode(v) => EmitItem(Emit.Put(v));
        case _ =>
      }
    }

    method EmitRecordType(d: Stream)
      modifies this
      ensures Adds(Emit.Out(Emit.EmitQuoted(d, false) + Emit.EmitRecord(old(labelIndex)), old(labelIndex) + 2))
      decreases d, 1
    {
      EmitQuoted(d);
      EmitItems([Emit.Put(LitSymbol(FACTORY)), Emit.Do(Read), Emit.Do(CallIn)]);
      var loop := GenLabel();
      var done := GenLabel();
      EmitItems([Emit.Here(loop), Emit.Do(Dup), Emit.Do(IsEmpty), Emit.Go(Jnf, done),
                 Emit.Do(Dup), Emit.Do(Car), Emit.Do(Dup), Emit.Do(Cdr), Emit.Do(Swap), Emit.Do(Car), Emit.Do(Bind),
                 Emit.Do(Cdr), Emit.Go(Jmp, loop), Emit.Here(done)]);
    }
  }
}
