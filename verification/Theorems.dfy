/** What the compiler and the machine promise together, for whole programs and single calls. */
module Theorems {
  import opened Machine
  import opened Syntax
  import opened Code
  import opened Emit
  import opened Eval
  import opened Simulation
  import opened Stages
  import opened Correct
  import opened Grammar
  import Labels

  /** The store of a program that has not started. */
  const GLOBAL: Store := [Frame(map[], None)]

  /** Meaning preservation for whole programs: if evaluation of the tree gives v and the final
      variables st, the compiled program runs from its first instruction to its end, leaving
      exactly v on the empty stack and exactly the variables st in its tables. */
  lemma ProgramCorrect(prog: Stream, k: nat) returns (t: State, w: Value)
    requires EvalStream(k, prog, 0, GLOBAL).Ok?
    ensures var code := EmitStream(prog, false, 0).code; var res := EvalStream(k, prog, 0, GLOBAL);
      && Reaches(code, Start(), t) && t.Ok() && t.Ip() == |code|
      && t.stack == On(w, Bottom) && ValRep(code, t.envs, t.cur, res.st, res.v, w)
      && StoreRep(code, res.st, t)
  {
    hide Exec, Stepper, Reaches, Grows, ValRep, VarsRep, EmitStream, EvalStream, UniqueLabels;
    var code := EmitStream(prog, false, 0).code;
    Labels.EmittedLabels(prog, false, 0);
    StartRep(code);
    assert code[0..|code|] == code;
    t, w := RunStream(code, prog, false, 0, k, 0, GLOBAL, Start(), 0);
    YieldsStage(code, Start(), t, GLOBAL, EvalStream(k, prog, 0, GLOBAL), 0, 0, w, |code|);
  }

  lemma StartRep(code: seq<Item>)
    ensures Sim(code, GLOBAL, 0, Start())
  {
    assert VarsRep(code, Start().envs, 0, GLOBAL, map[], map[]);
  }

  /** Meaning preservation in context: code of x placed anywhere in a program, run in any state
      that represents the store, pushes the value of x on the unchanged stack. */
  lemma StreamCorrect(code: seq<Item>, x: Stream, l: nat, k: nat, f: nat, st: Store, s: State)
    returns (t: State, w: Value)
    requires UniqueLabels(code) && Sim(code, st, f, s) && EvalStream(k, x, f, st).Ok?
    requires CodeAt(code, s.Ip(), EmitStream(x, false, l).code)
    ensures var res := EvalStream(k, x, f, st);
      && Reaches(code, s, t) && t.Ok() && t.Ip() == s.Ip() + |EmitStream(x, false, l).code|
      && t.stack == On(w, s.stack) && ValRep(code, t.envs, t.cur, res.st, res.v, w)
      && StoreRep(code, res.st, t) && SameFrame(s.envs[s.cur], t.envs[t.cur])
  {
    hide Exec, Stepper, Reaches, Grows, ValRep, VarsRep, EmitStream, EvalStream;
    t, w := RunStream(code, x, false, l, k, f, st, s, 0);
    YieldsStage(code, s, t, st, EvalStream(k, x, f, st), f, 0, w, s.Ip() + |EmitStream(x, false, l).code|);
  }

  // ---------- quoted data on the machine ----------

  /** A datum as a machine value. */
  function ValueOf(v: Val): Value {
    match v
    case SEmpty => Empty
    case SBool(b) => Bool(b)
    case SFixnum(i) => Fixnum(i)
    case SChar(c) => Char(c)
    case SStr(x) => Str(x)
    case SSymbol(x) => Symbol(x)
    case SPair(a, d) => Pair(ValueOf(a), ValueOf(d))
    case SClosure(_, _, _) => Empty
  }

  predicate Plain(v: Val) {
    match v
    case SPair(a, d) => Plain(a) && Plain(d)
    case SClosure(_, _, _) => false
    case _ => true
  }

  lemma {:induction false} PlainRep(code: seq<Item>, envs: seq<Env>, cur: nat, st: Store, v: Val, w: Value)
    requires Plain(v) && ValRep(code, envs, cur, st, v, w)
    ensures w == ValueOf(v)
    decreases v
  {
    if v.SPair? {
      PlainRep(code, envs, cur, st, v.car, w.car);
      PlainRep(code, envs, cur, st, v.cdr, w.cdr);
    }
  }

  lemma {:induction false} PlainMeaning(d: Datum)
    ensures Plain(Meaning(d))
    decreases d
  {
    match d
    case DAtom(_) =>
    case DQuote(e) => PlainMeaning(e);
    case DList(e) => PlainEnd(e);
    case DLongQuote(e) => PlainEnd(e);
  }

  lemma {:induction false} PlainEnd(e: ListEnd)
    ensures Plain(EndMeaning(e))
    decreases e
  {
    match e
    case Nothing =>
    case Proper(xs) => PlainItems(xs, SEmpty);
    case Dotted(xs, last) =>
      PlainMeaning(last);
      PlainItems(xs, Meaning(last));
  }

  lemma {:induction false} PlainItems(xs: Items, acc: Val)
    requires Plain(acc)
    ensures Plain(ItemsOnto(xs, acc))
    decreases xs
  {
    PlainMeaning(xs.d);
    if xs.More? { PlainItems(xs.rest, acc); }
  }

  /** The code of a quoted datum pushes exactly that datum and changes nothing else. */
  lemma QuotedCorrect(code: seq<Item>, d: Datum, l: nat, f: nat, st: Store, s: State) returns (t: State)
    requires UniqueLabels(code) && Sim(code, st, f, s)
    requires CodeAt(code, s.Ip(), EmitNode(Quoted(DatumStream(d)), false, l).code)
    ensures Reaches(code, s, t) && t.Ok() && t.Ip() == s.Ip() + |EmitNode(Quoted(DatumStream(d)), false, l).code|
    ensures t.stack == On(ValueOf(Meaning(d)), s.stack) && StoreRep(code, st, t)
  {
    hide Exec, Stepper, Reaches, Grows, ValRep, VarsRep, Meaning, DatumStream, EmitQuoted;
    QuotedDatum(d);
    PlainMeaning(d);
    var w;
    t, w := RunQuoted(code, DatumStream(d), f, st, s);
    PlainRep(code, t.envs, t.cur, st, Meaning(d), w);
  }

  // ---------- the calling convention on the machine ----------

  /** From the entry of a procedure, with its arguments below the return closure, to its body:
      the new table holds each formal with the argument it faces, the rest name with the remaining
      list, and nothing else; only the return closure is left above the caller's stack. */
  lemma CallingConvention(code: seq<Item>, names: seq<string>, rest: Option<string>, body: Stream, entry: nat, l: nat,
                          vs: seq<Val>, aw: Value, g: nat, st: Store, s: State, r: nat, base: Stack)
    returns (t: State, m: map<string, Val>)
    requires |names| <= |vs|
    requires Sim(code, NewFrame(st, g), |st|, s) && s.stack == On(Closure(r), On(aw, base))
    requires CodeAt(code, s.Ip(), EmitProc(FormalsOf(names, rest), body, entry, l).code)
    requires ValRep(code, s.envs, s.cur, NewFrame(st, g), ListVal(vs), aw)
    ensures Reaches(code, s, t) && t.Ok() && CodeAt(code, t.Ip(), EmitStream(body, true, l).code)
    ensures t.stack == On(Closure(r), base)
    ensures t.envs[t.cur].table == |st| && |t.tables| == |st| + 1
    ensures Bound(names, rest, vs, map[], m)
      && VarsRep(code, t.envs, t.cur, st + [Frame(m, Some(g))], m, t.tables[|st|])
  {
    hide Exec, Stepper, Reaches, Grows, ValRep, Stage, CodeAt, EmitStream, Bound, EmitFormals, FormalsOf;
    var fs := FormalsOf(names, rest);
    FormalsBound(names, rest, vs, map[]);
    m := BindFormals(fs, ListVal(vs), map[]).value;
    var st1 := NewFrame(st, g);
    var f := |st|;
    var p := s.Ip();
    ProcPlaced(code, p, fs, body, entry, l);
    StageRefl(code, s, st1, f);
    var kr := On(Closure(r), base);
    var t1 := StagePure(code, s, s, st1, st1, f, s.stack, p, s.stack);
    t1 := StagePure(code, s, t1, st1, st1, f, s.stack, p + 1, On(aw, kr));
    ValKept(code, s, t1, st1, st1, f, On(aw, kr), p + 2, ListVal(vs), aw);
    StageSim(code, s, t1, st1, st1, f, On(aw, kr), p + 2);
    t := RunFormals(code, fs, ListVal(vs), aw, kr, st1, f, t1, m);
    var st2 := st + [Frame(m, Some(g))];
    assert st1[f := st1[f].(vars := m)] == st2;
    StageTrans(code, s, t1, t, st1, st1, st2, f, On(aw, kr), p + 2, kr, p + 2 + |EmitFormals(fs)|);
    StageSim(code, s, t, st1, st2, f, kr, p + 2 + |EmitFormals(fs)|);
    assert VarsRep(code, t.envs, t.cur, st2, st2[f].vars, t.tables[f]);
  }
}
