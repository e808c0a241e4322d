/** Evaluating a well-formed tree keeps every procedure in the store well formed. */
module Formation {
  import opened Machine
  import opened Syntax
  import opened Eval
  import opened StackDiscipline

  /** Every procedure inside a value has a well-formed body. */
  ghost predicate FormedVal(v: Val) {
    match v
    case SPair(a, d) => FormedVal(a) && FormedVal(d)
    case SClosure(_, body, _) => Formed(body)
    case _ => true
  }

  ghost predicate FormedVars(vars: map<string, Val>) { forall x :: x in vars ==> FormedVal(vars[x]) }

  ghost predicate FormedStore(st: Store) { forall f :: 0 <= f < |st| ==> FormedVars(st[f].vars) }

  ghost predicate FormedResult(r: Result) { r.Ok? ==> FormedVal(r.v) && FormedStore(r.st) }

  lemma {:induction false} QuotedForms(n: Node)
    requires n.LiteralNode? || (n.Quoted? && WellQuoted(n.datum))
    ensures FormedVal(QuotedNode(n))
    decreases n
  {
    if n.Quoted? {
      QuotedForms(n.datum.head);
      FoldForms(n.datum.next, QuotedNode(n.datum.head));
    }
  }

  lemma {:induction false} FoldForms(d: Stream, acc: Val)
    requires (d.End? || WellQuoted(d)) && FormedVal(acc)
    ensures FormedVal(QuotedFold(d, acc))
    decreases d
  {
    if d.Seq? {
      QuotedForms(d.head);
      FoldForms(d.next, SPair(QuotedNode(d.head), acc));
    }
  }

  lemma DefineForms(st: Store, g: nat, x: string, v: Val)
    requires FormedStore(st) && FormedVal(v) && g < |st|
    ensures FormedStore(Define(st, g, x, v))
  {
  }

  lemma {:induction false} BindForms(fs: Formals, args: Val, vars: map<string, Val>)
    requires FormedVal(args) && FormedVars(vars)
    ensures BindFormals(fs, args, vars).Some? ==> FormedVars(BindFormals(fs, args, vars).value)
    decreases fs
  {
    if fs.Formal? && !fs.next.NoFormal? && args.SPair? {
      assert FormedVars(vars[fs.name := args.car]);
      BindForms(fs.next, args.cdr, vars[fs.name := args.car]);
    }
  }

  lemma {:induction false} ListForms(st: Store, f: nat, entries: Val)
    requires FormedStore(st) && FormedVal(entries) && f < |st|
    ensures FormedResult(BindList(st, f, entries))
    decreases entries
  {
    if entries.SPair? && entries.car.SPair? && entries.car.car.SSymbol? {
      DefineForms(st, f, entries.car.car.name, entries.car.cdr);
      ListForms(Define(st, f, entries.car.car.name, entries.car.cdr), f, entries.cdr);
    }
  }

  lemma StreamForms(k: nat, s: Stream, f: nat, st: Store)
    requires Formed(s) && FormedStore(st)
    ensures FormedResult(EvalStream(k, s, f, st))
    decreases k, s, 1
  {
    hide EvalNode, FormedStore, FormedNode;
    if s.Seq? {
      NodeForms(k, s.head, f, st);
      var r := EvalNode(k, s.head, f, st);
      if r.Ok? && s.next.Seq? { StreamForms(k, s.next, f, r.st); }
    }
  }

  lemma NodeForms(k: nat, n: Node, f: nat, st: Store)
    requires FormedNode(n) && FormedStore(st)
    ensures FormedResult(EvalNode(k, n, f, st))
    decreases k, n, 1
  {
    hide EvalPair, EvalClauses, EvalBool, EvalArgs, EvalStream, EvalCall, QuotedNode, WellQuoted, FindFrame;
    hide BindList, Define, Formed, FormedClauses;
    match n
    case LiteralNode(_) =>
    case Quoted(d) => if WellQuoted(d) { QuotedForms(n); }
    case Load(x) => StreamForms(k, x, f, st);
    case BindNode(v, x) =>
      PairForms(k, n, v, x, f, st);
      var r := EvalPair(k, n, v, x, f, st);
      if r.Ok? && r.v.SPair? && r.v.cdr.SSymbol? && f < |r.st| { DefineForms(r.st, f, r.v.cdr.name, r.v.car); }
    case StoreNode(v, x) => StoreForms(k, n, f, st);
    case MathNode(m, a, b) =>
      PairForms(k, n, a, b, f, st);
      MathForms(m);
    case If(c, t, e) =>
      StreamForms(k, c, f, st);
      var r := EvalStream(k, c, f, st);
      if r.Ok? { StreamForms(k, if r.v == SBool(false) then e else t, f, r.st); }
    case Cond(cs) => ClausesForm(k, cs, f, st);
    case And(xs) => if xs.Seq? { BoolForms(k, xs, true, f, st); }
    case Or(xs) => if xs.Seq? { BoolForms(k, xs, false, f, st); }
    case Lambda(_, _) =>
    case Apply(_, _) => ApplyForms(k, n, f, st);
    case LetStar(bs, body) =>
      assert FormedStore(NewFrame(st, f));
      StreamForms(k, bs, |st|, NewFrame(st, f));
      var b := EvalStream(k, bs, |st|, NewFrame(st, f));
      if b.Ok? { StreamForms(k, body, |st|, b.st); }
    case RecordType(_) => RecordForms(k, n, f, st);
  }

  lemma MathForms(m: MathOp)
    ensures forall a, b :: MathVal(m, a, b).Some? ==> FormedVal(MathVal(m, a, b).value)
  {
  }

  lemma StoreForms(k: nat, n: Node, f: nat, st: Store)
    requires n.StoreNode? && FormedNode(n) && FormedStore(st)
    ensures FormedResult(EvalNode(k, n, f, st))
    decreases k, n, 0, 1
  {
    hide EvalPair, FindFrame, Define;
    PairForms(k, n, n.value, n.name, f, st);
    var r := EvalPair(k, n, n.value, n.name, f, st);
    if r.Ok? && r.v.SPair? && r.v.cdr.SSymbol? {
      var g := FindFrame(r.st, f, r.v.cdr.name);
      if g.Some? && g.value < |r.st| { DefineForms(r.st, g.value, r.v.cdr.name, r.v.car); }
    }
  }

  lemma ApplyForms(k: nat, n: Node, f: nat, st: Store)
    requires n.Apply? && FormedNode(n) && FormedStore(st)
    ensures FormedResult(EvalNode(k, n, f, st))
    decreases k, n, 0, 1
  {
    hide EvalArgs, EvalStream, EvalCall, FormedStore;
    ArgsForm(k, n.args, f, st, SEmpty);
    var a := EvalArgs(k, n.args, f, st, SEmpty);
    if a.Ok? {
      StreamForms(k, n.operator, f, a.st);
      var r := EvalStream(k, n.operator, f, a.st);
      if r.Ok? && k > 0 { CallForms(k - 1, r.v, a.v, r.st); }
    }
  }

  lemma RecordForms(k: nat, n: Node, f: nat, st: Store)
    requires n.RecordType? && FormedNode(n) && FormedStore(st)
    ensures FormedResult(EvalNode(k, n, f, st))
    decreases k, n, 0, 1
  {
    hide EvalCall, BindList, QuotedNode, WellQuoted, FindFrame;
    var g := FindFrame(st, f, FACTORY);
    if k > 0 && g.Some? && g.value < |st| && FACTORY in st[g.value].vars {
      QuotedForms(Quoted(n.def));
      CallForms(k - 1, st[g.value].vars[FACTORY], QuotedNode(Quoted(n.def)), st);
      var r := EvalCall(k - 1, st[g.value].vars[FACTORY], QuotedNode(Quoted(n.def)), st);
      if r.Ok? && f < |r.st| { ListForms(r.st, f, r.v); }
    }
  }

  lemma PairForms(k: nat, n: Node, a: Stream, b: Stream, f: nat, st: Store)
    requires a < n && b < n && Formed(a) && Formed(b) && FormedStore(st)
    ensures FormedResult(EvalPair(k, n, a, b, f, st))
    decreases k, n, 0, 0
  {
    hide EvalStream, FormedStore;
    StreamForms(k, a, f, st);
    var r := EvalStream(k, a, f, st);
    if r.Ok? { StreamForms(k, b, f, r.st); }
  }

  lemma ClausesForm(k: nat, cs: Clauses, f: nat, st: Store)
    requires FormedClauses(cs) && FormedStore(st)
    ensures FormedResult(EvalClauses(k, cs, f, st))
    decreases k, cs
  {
    hide EvalStream, FormedStore;
    if cs.Clause? {
      StreamForms(k, cs.test, f, st);
      var r := EvalStream(k, cs.test, f, st);
      if r.Ok? {
        if r.v == SBool(false) { ClausesForm(k, cs.rest, f, r.st); } else { StreamForms(k, cs.body, f, r.st); }
      }
    }
  }

  lemma BoolForms(k: nat, xs: Stream, conj: bool, f: nat, st: Store)
    requires xs.Seq? && Formed(xs) && FormedStore(st)
    ensures FormedResult(EvalBool(k, xs, conj, f, st))
    decreases k, xs, 0
  {
    hide EvalNode, FormedStore;
    NodeForms(k, xs.head, f, st);
    var r := EvalNode(k, xs.head, f, st);
    if r.Ok? && xs.next.Seq? { BoolForms(k, xs.next, conj, f, r.st); }
  }

  lemma ArgsForm(k: nat, xs: Stream, f: nat, st: Store, acc: Val)
    requires Formed(xs) && FormedStore(st) && FormedVal(acc)
    ensures FormedResult(EvalArgs(k, xs, f, st, acc))
    decreases k, xs
  {
    hide EvalNode, FormedStore;
    if xs.Seq? {
      NodeForms(k, xs.head, f, st);
      var r := EvalNode(k, xs.head, f, st);
      if r.Ok? { ArgsForm(k, xs.next, f, r.st, SPair(r.v, acc)); }
    }
  }

  lemma CallForms(k: nat, g: Val, args: Val, st: Store)
    requires FormedVal(g) && FormedVal(args) && FormedStore(st)
    ensures FormedResult(EvalCall(k, g, args, st))
    decreases k
  {
    hide EvalStream;
    if g.SClosure? {
      BindForms(g.formals, args, map[]);
      var b := BindFormals(g.formals, args, map[]);
      if b.Some? {
        assert FormedStore(st + [Frame(b.value, Some(g.frame))]);
        StreamForms(k, g.body, |st|, st + [Frame(b.value, Some(g.frame))]);
      }
    }
  }
}
