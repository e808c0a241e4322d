/** How a machine state represents an evaluator store, and the steps that keep the two together. */
module Simulation {
  import opened Machine
  import opened Syntax
  import opened Code
  import opened Emit
  import opened Eval

  // ---------- representation ----------

  /** Record e stands for frame f: same table, and parents that stand for the parent frames. */
  ghost predicate EnvRep(envs: seq<Env>, st: Store, e: nat, f: nat)
    decreases f
  {
    e < |envs| && f < |st| && envs[e].table == f &&
    match st[f].parent
    case None => envs[e].parent.None?
    case Some(g) =>
      g < f && envs[e].parent.Some? && envs[e].parent.value < e && EnvRep(envs, st, envs[e].parent.value, g)
  }

  /** The code of a procedure with these formals and body starts at p. */
  ghost predicate ProcAt(code: seq<Item>, p: int, fs: Formals, body: Stream) {
    exists entry: nat, l: nat :: CodeAt(code, p, EmitProc(fs, body, entry, l).code)
  }

  ghost predicate ValRep(code: seq<Item>, envs: seq<Env>, cur: nat, st: Store, v: Val, w: Value)
    decreases v
  {
    match v
    case SEmpty => w == Empty
    case SBool(b) => w == Bool(b)
    case SFixnum(i) => w == Fixnum(i)
    case SChar(c) => w == Char(c)
    case SStr(x) => w == Str(x)
    case SSymbol(x) => w == Symbol(x)
    case SPair(a, d) => w.Pair? && ValRep(code, envs, cur, st, a, w.car) && ValRep(code, envs, cur, st, d, w.cdr)
    case SClosure(fs, body, f) =>
      w.Closure? && w.env != cur && EnvRep(envs, st, w.env, f) && ProcAt(code, envs[w.env].ip, fs, body)
  }

  ghost predicate VarsRep(code: seq<Item>, envs: seq<Env>, cur: nat, st: Store, vars: map<string, Val>, t: Table) {
    vars.Keys == t.Keys && forall x :: x in vars ==> ValRep(code, envs, cur, st, vars[x], t[x])
  }

  ghost predicate StoreRep(code: seq<Item>, st: Store, s: State) {
    |st| == |s.tables| &&
    forall f :: 0 <= f < |st| ==> VarsRep(code, s.envs, s.cur, st, st[f].vars, s.tables[f])
  }

  /** State s runs in frame f of store st. */
  ghost predicate Sim(code: seq<Item>, st: Store, f: nat, s: State) {
    s.Ok() && StoreRep(code, st, s) && EnvRep(s.envs, st, s.cur, f)
  }

  // ---------- what later states keep ----------

  ghost predicate Grows(s: State, t: State) {
    && |s.envs| <= |t.envs|
    && s.cur < |s.envs| && t.cur < |t.envs|
    && (t.cur == s.cur || t.cur >= |s.envs|)
    && (forall i :: 0 <= i < |s.envs| ==> t.envs[i].table == s.envs[i].table && t.envs[i].parent == s.envs[i].parent)
    && (forall i :: 0 <= i < |s.envs| && i != s.cur ==> t.envs[i] == s.envs[i])
  }

  ghost predicate StoreGrows(st: Store, st': Store) {
    |st| <= |st'| && forall f :: 0 <= f < |st| ==> st'[f].parent == st[f].parent
  }

  ghost predicate SameFrame(a: Env, b: Env) {
    a.(ip := 0) == b.(ip := 0)
  }

  lemma GrowsTrans(s: State, t: State, u: State)
    requires Grows(s, t) && Grows(t, u)
    ensures Grows(s, u)
  {
  }

  lemma {:induction false} EnvMono(envs: seq<Env>, envs': seq<Env>, st: Store, st': Store, e: nat, f: nat)
    requires EnvRep(envs, st, e, f) && StoreGrows(st, st')
    requires |envs| <= |envs'|
    requires forall i :: 0 <= i < |envs| ==> envs'[i].table == envs[i].table && envs'[i].parent == envs[i].parent
    ensures EnvRep(envs', st', e, f)
    decreases f
  {
    if st[f].parent.Some? {
      EnvMono(envs, envs', st, st', envs[e].parent.value, st[f].parent.value);
    }
  }

  lemma {:induction false} ValMono(code: seq<Item>, s: State, t: State, st: Store, st': Store, v: Val, w: Value)
    requires ValRep(code, s.envs, s.cur, st, v, w) && Grows(s, t) && StoreGrows(st, st')
    ensures ValRep(code, t.envs, t.cur, st', v, w)
    decreases v
  {
    match v
    case SPair(a, d) =>
      ValMono(code, s, t, st, st', a, w.car);
      ValMono(code, s, t, st, st', d, w.cdr);
    case SClosure(_, _, f) =>
      EnvMono(s.envs, t.envs, st, st', w.env, f);
    case _ =>
  }

  lemma VarsMono(code: seq<Item>, s: State, t: State, st: Store, st': Store, vars: map<string, Val>, tab: Table)
    requires VarsRep(code, s.envs, s.cur, st, vars, tab) && Grows(s, t) && StoreGrows(st, st')
    ensures VarsRep(code, t.envs, t.cur, st', vars, tab)
  {
    forall x | x in vars ensures ValRep(code, t.envs, t.cur, st', vars[x], tab[x]) {
      ValMono(code, s, t, st, st', vars[x], tab[x]);
    }
  }

  /** A store whose frames are unchanged stays represented when records are added. */
  lemma StoreMono(code: seq<Item>, s: State, t: State, st: Store)
    requires StoreRep(code, st, s) && Grows(s, t) && t.tables == s.tables
    ensures StoreRep(code, st, t)
  {
    forall f | 0 <= f < |st| ensures VarsRep(code, t.envs, t.cur, st, st[f].vars, t.tables[f]) {
      VarsMono(code, s, t, st, st, st[f].vars, s.tables[f]);
    }
  }

  /** Truth agrees: only #f is false. */
  lemma FalseRep(code: seq<Item>, envs: seq<Env>, cur: nat, st: Store, v: Val, w: Value)
    requires ValRep(code, envs, cur, st, v, w)
    ensures v == SBool(false) <==> w == Bool(false)
  {
  }

  // ---------- variables ----------

  lemma {:induction false} LookupRep(code: seq<Item>, st: Store, s: State, e: nat, f: nat, x: string)
    requires StoreRep(code, st, s) && EnvRep(s.envs, st, e, f)
    ensures Lookup(s.envs, s.tables, e, x) == FindFrame(st, f, x)
    ensures FindFrame(st, f, x).Some? ==> FindFrame(st, f, x).value < |st| && x in st[FindFrame(st, f, x).value].vars
    decreases f
  {
    assert VarsRep(code, s.envs, s.cur, st, st[f].vars, s.tables[f]);
    if x !in st[f].vars && st[f].parent.Some? {
      LookupRep(code, st, s, s.envs[e].parent.value, st[f].parent.value, x);
    }
  }

  lemma ValueOfRep(code: seq<Item>, st: Store, s: State, g: nat, x: string)
    requires StoreRep(code, st, s) && g < |st| && x in st[g].vars
    ensures x in s.tables[g] && ValRep(code, s.envs, s.cur, st, st[g].vars[x], s.tables[g][x])
  {
    assert VarsRep(code, s.envs, s.cur, st, st[g].vars, s.tables[g]);
  }

  lemma DefineRep(code: seq<Item>, st: Store, s: State, g: nat, x: string, v: Val, w: Value)
    requires StoreRep(code, st, s) && g < |st| && ValRep(code, s.envs, s.cur, st, v, w) && s.Ok()
    ensures StoreRep(code, Define(st, g, x, v), s.(tables := s.tables[g := s.tables[g][x := w]]))
    ensures StoreGrows(st, Define(st, g, x, v))
  {
    var st' := Define(st, g, x, v);
    var t := s.(tables := s.tables[g := s.tables[g][x := w]]);
    forall f | 0 <= f < |st'| ensures VarsRep(code, t.envs, t.cur, st', st'[f].vars, t.tables[f]) {
      VarsMono(code, s, t, st, st', st[f].vars, s.tables[f]);
      ValMono(code, s, t, st, st', v, w);
    }
  }
}
