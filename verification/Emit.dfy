/** Code generation: the labelled code of every node, and the compiler object that writes it. */
module Emit {
  import opened Machine
  import opened Syntax
  import opened Code

  /** Code together with the label index that follows the last label it uses. */
  datatype Out = Out(code: seq<Item>, next: nat)

  function Do(op: Op): Item { Ins(Plain(op)) }
  function Put(l: Lit): Item { Ins(Literal(l)) }
  function Go(k: JumpKind, l: nat): Item { Ins(Jump(k, Gen(l))) }
  function Here(l: nat): Item { Mark(Gen(l)) }

  function EmitStream(s: Stream, tail: bool, l: nat): Out
    decreases s, 0
  {
    match s
    case End => Out([Put(LitEmpty)], l)
    case Seq(n, rest) =>
      if rest.End? then EmitValue(n, tail, l)
      else
        var a := EmitNode(n, false, l);
        var b := EmitStream(rest, tail, a.next);
        Out(a.code + ((if Pushes(n) then [Do(Drop)] else []) + b.code), b.next)
  }

  /** A node in a place that always takes one slot. */
  function EmitValue(n: Node, tail: bool, l: nat): Out
    decreases n, 1
  {
    var a := EmitNode(n, tail, l);
    Out(a.code + (if Pushes(n) then [] else [Put(LitEmpty)]), a.next)
  }

  function EmitNode(n: Node, tail: bool, l: nat): Out
    decreases n, 0
  {
    match n
    case LiteralNode(v) => Out([Put(v)], l)
    case Quoted(d) => Out(EmitQuoted(d, false), l)
    case Load(x) => var a := EmitStream(x, false, l); Out(a.code + [Do(Read)], a.next)
    case BindNode(v, x) => var c1 := EmitStream(v, false, l); Double(c1, EmitStream(x, false, c1.next), Bind)
    case StoreNode(v, x) => var c1 := EmitStream(v, false, l); Double(c1, EmitStream(x, false, c1.next), Set)
    case MathNode(m, a, b) => var c1 := EmitStream(a, false, l); Double(c1, EmitStream(b, false, c1.next), Math(m))
    case If(c, t, e) =>
      var cc := EmitStream(c, false, l + 2);
      var ce := EmitStream(e, tail, cc.next);
      var ct := EmitStream(t, tail, ce.next);
      Out(cc.code + ([Go(Jnf, l)] + (ce.code + ([Go(Jmp, l + 1)] + ([Here(l)] + (ct.code + [Here(l + 1)]))))), ct.next)
    case Cond(cs) =>
      var a := EmitClauses(cs, l, tail, l + 1);
      Out(a.code + [Put(LitEmpty), Here(l)], a.next)
    case And(xs) => EmitLogic(xs, true, l)
    case Or(xs) => EmitLogic(xs, false, l)
    case Lambda(fs, body) =>
      var p := EmitProc(fs, body, l, l + 2);
      Out([Go(Jmp, l + 1)] + (p.code + [Here(l + 1), Go(Proc, l)]), p.next)
    case Apply(f, xs) =>
      var a := EmitArgs(xs, l);
      var g := EmitStream(f, false, a.next);
      Out([Put(LitEmpty)] + (a.code + (g.code + [Do(if tail then TailCallIn else CallIn)])), g.next)
    case LetStar(bs, body) =>
      var b := EmitStream(bs, false, l + 2);
      var c := EmitStream(body, tail, b.next);
      Out(LetEntry(tail, l) + (b.code + ([Do(Drop)] + (c.code + [Do(Swap), Do(Ret), Here(l + 1)]))), c.next)
    case RecordType(d) => Out(EmitQuoted(d, false) + EmitRecord(l), l + 2)
  }

  function Double(a: Out, b: Out, op: Op): Out {
    Out(a.code + (b.code + [Do(op)]), b.next)
  }

  function EmitClauses(cs: Clauses, done: nat, tail: bool, l: nat): Out {
    match cs
    case NoClause => Out([], l)
    case Clause(t, b, rest) =>
      var ct := EmitStream(t, false, l);
      var cb := EmitStream(b, tail, ct.next + 1);
      var cr := EmitClauses(rest, done, tail, cb.next);
      Out(ct.code + ([Do(Not), Go(Jnf, ct.next)] + (cb.code + ([Go(Jmp, done), Here(ct.next)] + cr.code))), cr.next)
  }

  function EmitLogic(xs: Stream, conj: bool, l: nat): Out
    decreases xs, 1
  {
    if xs.End? then Out([Put(if conj then LitTrue else LitFalse), Here(l)], l + 1)
    else var a := EmitBool(xs, conj, l, l + 1); Out(a.code + [Here(l)], a.next)
  }

  /** The arguments of and/or, with `done` the label that ends the form. */
  function EmitBool(xs: Stream, conj: bool, done: nat, l: nat): Out
    requires xs.Seq?
    decreases xs, 0
  {
    var a := EmitValue(xs.head, false, l);
    if xs.next.End? then a
    else
      var t := BoolTest(conj, done, a.next);
      var b := EmitBool(xs.next, conj, done, t.next);
      Out(a.code + (t.code + b.code), b.next)
  }

  function BoolTest(conj: bool, done: nat, l: nat): Out {
    if conj then Out([Do(Dup), Go(Jnf, l), Go(Jmp, done), Here(l), Do(Drop)], l + 1)
    else Out([Do(Dup), Go(Jnf, done), Do(Drop)], l)
  }

  function EmitArgs(xs: Stream, l: nat): Out {
    match xs
    case End => Out([], l)
    case Seq(n, rest) =>
      var a := EmitValue(n, false, l);
      var b := EmitArgs(rest, a.next);
      Out(a.code + ([Do(Cons)] + b.code), b.next)
  }

  /** The procedure of a lambda, entered at its label with the arguments below the return. */
  function EmitProc(fs: Formals, body: Stream, entry: nat, l: nat): Out
    decreases body, 1
  {
    var b := EmitStream(body, true, l);
    Out([Here(entry), Do(Swap)] + (EmitFormals(fs) + (b.code + [Do(Swap), Do(Ret)])), b.next)
  }

  function EmitFormals(fs: Formals): seq<Item> {
    match fs
    case NoFormal => [Do(Drop)]
    case FixedEnd => [Do(Drop)]
    case Formal(x, NoFormal) => [Put(LitSymbol(x)), Do(Bind)]
    case Formal(x, FixedEnd) => [Do(Dup), Do(Car), Put(LitSymbol(x)), Do(Bind), Do(Drop)]
    case Formal(x, rest) =>
      [Do(Dup), Do(Car), Put(LitSymbol(x)), Do(Bind), Do(Cdr)] + EmitFormals(rest)
  }

  function LetEntry(tail: bool, l: nat): seq<Item> {
    if tail then [Put(LitEmpty), Go(Proc, l), Do(TailCallIn), Here(l), Do(Swap), Do(Drop)]
    else [Go(Call, l), Go(Jmp, l + 1), Here(l)]
  }

  /** A quoted structure; every node after the first is consed onto what precedes it.  Only
      literals and nested quotes appear here. */
  function EmitQuoted(d: Stream, isList: bool): seq<Item> {
    match d
    case End => []
    case Seq(n, rest) =>
      (match n
       case LiteralNode(v) => [Put(v)]
       case Quoted(inner) => EmitQuoted(inner, false)
       case _ => [])
      + ((if isList then [Do(Cons)] else []) + EmitQuoted(rest, true))
  }

  function EmitRecord(l: nat): seq<Item> {
    [Put(LitSymbol(FACTORY)), Do(Read), Do(CallIn)] + RecordLoop(l)
  }

  function RecordLoop(l: nat): seq<Item> {
    [Here(l), Do(Dup), Do(IsEmpty), Go(Jnf, l + 1),
     Do(Dup), Do(Car), Do(Dup), Do(Cdr), Do(Swap), Do(Car), Do(Bind),
     Do(Cdr), Go(Jmp, l), Here(l + 1)]
  }
}
