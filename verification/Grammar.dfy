/** The list-building grammar actions, and what they make the evaluator see: arguments in source
    order, formals bound to the arguments they face, and quoted data as written. */
module Grammar {
  import opened Machine
  import opened Syntax
  import opened Eval

  // ---------- quoted data ----------

  /** A datum as written after a quote mark.  Inside data a quote mark adds nothing, and the long
      form `(quote ...)` is a literal whose list_end is what stands after the word. */
  datatype Datum =
    | DAtom(lit: Lit)
    | DQuote(inner: Datum)
    | DList(end: ListEnd)
    | DLongQuote(end: ListEnd)

  datatype ListEnd = Nothing | Proper(items: Items) | Dotted(items: Items, last: Datum)

  datatype Items = One(d: Datum) | More(d: Datum, rest: Items)

  /** The datum as data. */
  function Meaning(d: Datum): Val {
    match d
    case DAtom(l) => LitVal(l)
    case DQuote(e) => Meaning(e)
    case DList(e) => EndMeaning(e)
    case DLongQuote(e) => EndMeaning(e)
  }

  function EndMeaning(e: ListEnd): Val {
    match e
    case Nothing => SEmpty
    case Proper(xs) => ItemsOnto(xs, SEmpty)
    case Dotted(xs, last) => ItemsOnto(xs, Meaning(last))
  }

  function ItemsOnto(xs: Items, acc: Val): Val {
    match xs
    case One(d) => SPair(Meaning(d), acc)
    case More(d, rest) => SPair(Meaning(d), ItemsOnto(rest, acc))
  }

  function Single(n: Node): Stream { Seq(n, End) }

  /** The actions of datum, list, list_end and list_next; lists come out back to front. */
  function DatumStream(d: Datum): Stream {
    match d
    case DAtom(l) => Single(LiteralNode(l))
    case DQuote(e) => Single(Quoted(DatumStream(e)))
    case DList(e) => Single(Quoted(EndStream(e)))
    case DLongQuote(e) => Single(Quoted(EndStream(e)))
  }

  function EndStream(e: ListEnd): Stream {
    match e
    case Nothing => Single(LiteralNode(LitEmpty))
    case Proper(xs) => Concat(Single(LiteralNode(LitEmpty)), ListNext(xs))
    case Dotted(xs, last) => Concat(DatumStream(last), ListNext(xs))
  }

  function ListNext(xs: Items): Stream {
    match xs
    case One(d) => DatumStream(d)
    case More(d, rest) => Concat(ListNext(rest), DatumStream(d))
  }

  lemma {:induction false} QuotedConcat(a: Stream, b: Stream, acc: Val)
    requires (a.End? || WellQuoted(a)) && (b.End? || WellQuoted(b))
    ensures Concat(a, b).End? || WellQuoted(Concat(a, b))
    ensures QuotedFold(Concat(a, b), acc) == QuotedFold(b, QuotedFold(a, acc))
    decreases a
  {
    if a.Seq? { QuotedConcat(a.next, b, SPair(QuotedNode(a.head), acc)); }
  }

  /** Quoted data mean what they say: the quoted node the parser builds has the datum as value. */
  lemma {:induction false} QuotedDatum(d: Datum)
    ensures DatumStream(d).Seq? && DatumStream(d).next.End? && WellQuoted(DatumStream(d))
    ensures QuotedNode(DatumStream(d).head) == Meaning(d)
    ensures QuotedNode(Quoted(DatumStream(d))) == Meaning(d)
    decreases d
  {
    match d
    case DAtom(_) =>
    case DQuote(e) => QuotedDatum(e);
    case DList(e) => QuotedEnd(e);
    case DLongQuote(e) => QuotedEnd(e);
  }

  lemma {:induction false} QuotedEnd(e: ListEnd)
    ensures WellQuoted(EndStream(e)) && QuotedNode(Quoted(EndStream(e))) == EndMeaning(e)
    decreases e
  {
    match e
    case Nothing =>
    case Proper(xs) =>
      QuotedItems(xs, SEmpty);
      QuotedConcat(Single(LiteralNode(LitEmpty)), ListNext(xs), SEmpty);
    case Dotted(xs, last) =>
      QuotedDatum(last);
      QuotedItems(xs, Meaning(last));
      QuotedConcat(DatumStream(last), ListNext(xs), SEmpty);
  }

  lemma {:induction false} QuotedItems(xs: Items, acc: Val)
    ensures WellQuoted(ListNext(xs))
    ensures QuotedFold(ListNext(xs), acc) == ItemsOnto(xs, acc)
    decreases xs
  {
    QuotedDatum(xs.d);
    if xs.More? {
      QuotedItems(xs.rest, acc);
      QuotedConcat(ListNext(xs.rest), DatumStream(xs.d), acc);
    }
  }

  /** The long form quotes the list of what follows, as an expression and inside data: `(quote x)`
      is the one-element list of x, where the quote mark before x gives x. */
  lemma LongQuoteIsList(e: ListEnd)
    ensures WellQuoted(EndStream(e)) && QuotedNode(Quoted(EndStream(e))) == Meaning(DList(e))
    ensures e.Proper? && e.items.One? ==> QuotedNode(Quoted(EndStream(e))) == SPair(Meaning(e.items.d), SEmpty)
    ensures e.Proper? && e.items.One? ==>
      var d := DatumStream(e.items.d);
      WellQuoted(d) && QuotedNode(Quoted(EndStream(e))) != QuotedNode(Quoted(d))
    ensures e.Proper? && e.items.One? ==> Meaning(DLongQuote(e)) != Meaning(DQuote(e.items.d))
  {
    QuotedEnd(e);
    if e.Proper? && e.items.One? {
      var m := Meaning(e.items.d);
      assert ItemsOnto(e.items, SEmpty) == SPair(m, SEmpty);
      assert m < SPair(m, SEmpty);
      QuotedDatum(e.items.d);
    }
  }

  // ---------- arguments ----------

  /** user_call_body over single-node arguments: each earlier one goes behind the later ones. */
  function CallArgs(es: seq<Node>): Stream {
    if es == [] then End else Concat(CallArgs(es[1..]), Single(es[0]))
  }

  datatype Values = Values(vs: seq<Val>, st: Store) | Failed

  /** The arguments evaluated from the last to the first, in source positions. */
  function EvalRight(k: nat, es: seq<Node>, f: nat, st: Store): Values {
    if es == [] then Values([], st)
    else
      var later := EvalRight(k, es[1..], f, st);
      if later.Failed? then Failed
      else
        var r := EvalNode(k, es[0], f, later.st);
        if r.Fail? then Failed else Values([r.v] + later.vs, r.st)
  }

  function ListVal(vs: seq<Val>): Val {
    if vs == [] then SEmpty else SPair(vs[0], ListVal(vs[1..]))
  }

  lemma {:induction false} ArgsConcat(k: nat, a: Stream, b: Stream, f: nat, st: Store, acc: Val)
    ensures var r := EvalArgs(k, a, f, st, acc);
      EvalArgs(k, Concat(a, b), f, st, acc) == if r.Fail? then Fail else EvalArgs(k, b, f, r.st, r.v)
    decreases a
  {
    if a.Seq? {
      var r := EvalNode(k, a.head, f, st);
      if r.Ok? { ArgsConcat(k, a.next, b, f, r.st, SPair(r.v, acc)); }
    }
  }

  /** The reversed stream and the consing loop put the i-th argument in the i-th place. */
  lemma {:induction false} ArgumentOrder(k: nat, es: seq<Node>, f: nat, st: Store)
    ensures var vs := EvalRight(k, es, f, st);
      EvalArgs(k, CallArgs(es), f, st, SEmpty) == if vs.Failed? then Fail else Ok(ListVal(vs.vs), vs.st)
    ensures EvalRight(k, es, f, st).Values? ==> |EvalRight(k, es, f, st).vs| == |es|
    decreases |es|
  {
    if es != [] {
      ArgumentOrder(k, es[1..], f, st);
      ArgsConcat(k, CallArgs(es[1..]), Single(es[0]), f, st, SEmpty);
      var later := EvalRight(k, es[1..], f, st);
      if later.Values? {
        var r := EvalNode(k, es[0], f, later.st);
        if r.Ok? {
          assert ([r.v] + later.vs)[1..] == later.vs;
        }
      }
    }
  }

  // ---------- formals ----------

  /** lambda_formals: names, with an optional name for the rest. */
  function FormalsOf(names: seq<string>, rest: Option<string>): Formals {
    if names != [] then
      Formal(names[0], if |names| == 1 && rest.None? then FixedEnd else FormalsOf(names[1..], rest))
    else match rest
      case None => NoFormal
      case Some(x) => Formal(x, NoFormal)
  }

  /** Place i holds the last formal of its name. */
  ghost predicate Last(names: seq<string>, rest: Option<string>, i: nat)
    requires i < |names|
  {
    rest != Some(names[i]) && forall j :: i < j < |names| ==> names[j] != names[i]
  }

  /** The i-th name has the i-th argument, a repeated name the one of its last place, the rest name
      the list of the others, and nothing else changes. */
  ghost predicate Bound(names: seq<string>, rest: Option<string>, vs: seq<Val>, vars: map<string, Val>, m: map<string,
                        Val>) {
    && |names| <= |vs|
    && (forall x :: x in m <==> x in vars || x in names || rest == Some(x))
    && (forall i :: 0 <= i < |names| && Last(names, rest, i) ==> m[names[i]] == vs[i])
    && (rest.Some? ==> m[rest.value] == ListVal(vs[|names|..]))
    && (forall x :: x in vars && x !in names && rest != Some(x) ==> m[x] == vars[x])
  }

  lemma BoundStep(names: seq<string>, rest: Option<string>, vs: seq<Val>, vars: map<string, Val>, m: map<string, Val>)
    requires names != [] && vs != []
    requires Bound(names[1..], rest, vs[1..], vars[names[0] := vs[0]], m)
    ensures Bound(names, rest, vs, vars, m)
  {
    var names', vs' := names[1..], vs[1..];
    assert names == [names[0]] + names';
    forall i | 0 <= i < |names| && Last(names, rest, i) ensures m[names[i]] == vs[i] {
      if i > 0 {
        assert names[i] == names'[i - 1] && vs[i] == vs'[i - 1];
        forall j | i - 1 < j < |names'| ensures names'[j] != names'[i - 1] { assert names[j + 1] != names[i]; }
        assert Last(names', rest, i - 1);
      } else {
        assert names[0] !in names' by { assert forall j :: 0 <= j < |names'| ==> names'[j] == names[j + 1]; }
      }
    }
    assert vs[|names|..] == vs'[|names'|..];
  }

  /** A call binds its formals exactly when there are enough arguments.  Arguments beyond a fixed
      list are ignored. */
  lemma {:induction false} FormalsBound(names: seq<string>, rest: Option<string>, vs: seq<Val>, vars: map<string, Val>)
    ensures var out := BindFormals(FormalsOf(names, rest), ListVal(vs), vars);
      && (out.Some? <==> |names| <= |vs|)
      && (out.Some? ==> Bound(names, rest, vs, vars, out.value))
    decreases |names|
  {
    var fs := FormalsOf(names, rest);
    if names == [] {
      assert vs[0..] == vs;
    } else if vs != [] {
      var vars' := vars[names[0] := vs[0]];
      if |names| == 1 && rest.None? {
        assert BindFormals(fs, ListVal(vs), vars) == Some(vars');
        assert Bound(names[1..], rest, vs[1..], vars', vars');
        BoundStep(names, rest, vs, vars, vars');
      } else {
        hide Bound;
        FormalsBound(names[1..], rest, vs[1..], vars');
        var out := BindFormals(FormalsOf(names[1..], rest), ListVal(vs[1..]), vars');
        assert BindFormals(fs, ListVal(vs), vars) == out;
        if out.Some? { BoundStep(names, rest, vs, vars, out.value); }
      }
    }
  }
}
