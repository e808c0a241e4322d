/** An adopt that is not harmless: lending the table of a continuation to other code loses the
    capture.  In any program a procedure of eleven instructions does so when call/cc is called on
    it, and a program made of the routine and that procedure does so from the start. */
module Adoption {
  import opened Machine
  import opened Runs
  import opened Code
  import opened CallCc
  import opened Continuations
  import opened Spoiling
  import opened Stages
  import Frames
  import Emit

  // ---------- the routine as code ----------

  function EmptyCode(): seq<Item> {
    [CallCc.Label("scheme-call-cc-return"), CallCc.Label("scheme-call-cc-empty"), Emit.Do(GetDepth), Num(0),
     Emit.Do(Math(NumEq)),
     To(Jnf, "scheme-call-cc-empty-done"), Emit.Do(Drop), To(Jmp, "scheme-call-cc-empty"),
     CallCc.Label("scheme-call-cc-empty-done"),
     Sym(STACK_SAVE), Emit.Do(Read)]
  }

  function RestoreCode(): seq<Item> {
    [CallCc.Label("scheme-call-cc-restore"), Emit.Do(Dup), Emit.Do(IsEmpty), To(Jnf, "scheme-call-cc-restore-done"),
     Emit.Do(Dup),
     Emit.Do(Car), Emit.Do(Swap), Emit.Do(Cdr), To(Jmp, "scheme-call-cc-restore"),
     CallCc.Label("scheme-call-cc-restore-done"),
     Emit.Do(Drop), Sym(RET_VAL), Emit.Do(Read), Sym(RETURN), Emit.Do(Read), Emit.Do(Ret)]
  }

  function ExitCode(): seq<Item> {
    [CallCc.Label("scheme-call-cc-exit"), Emit.Do(Drop), Emit.Do(Car), Sym(RET_VAL), Emit.Do(Bind),
     To(Jmp, "scheme-call-cc-return")]
  }

  function EntryCode(): seq<Item> {
    [CallCc.Label("scheme-call-cc"), Emit.Do(Swap), Emit.Do(Car), Sym(PROC), Emit.Do(Bind), Sym(RETURN), Emit.Do(Bind),
     Emit.Put(LitEmpty), Sym(STACK_SAVE), Emit.Do(Bind)]
  }

  function SaveCode(): seq<Item> {
    [CallCc.Label("scheme-call-cc-save"), Emit.Do(GetDepth), Num(0), Emit.Do(Math(NumEq)),
     To(Jnf, "scheme-call-cc-stack-save-exit"),
     Sym(STACK_SAVE), Emit.Do(Read), Emit.Do(Swap), Emit.Do(Op.Cons), Sym(STACK_SAVE), Emit.Do(Set),
     To(Jmp, "scheme-call-cc-save"), CallCc.Label("scheme-call-cc-stack-save-exit")]
  }

  function CallCode(): seq<Item> {
    [Emit.Put(LitEmpty), To(Proc, "scheme-call-cc-exit"), Emit.Do(Op.Cons), Sym(PROC), Emit.Do(Read), Emit.Do(CallIn),
     Sym(RET_VAL), Emit.Do(Bind), To(Jmp, "scheme-call-cc-return")]
  }

  /** The routine, from scheme-call-cc-return to the jump back to it. */
  function Routine(): seq<Item> { EmptyCode() + RestoreCode() + ExitCode() + EntryCode() + SaveCode() + CallCode() }

  lemma RoutineSize()
    ensures |Routine()| == SIZE
  {
  }

  /** Other code around the routine: no labels before it, none of its own after it. */
  ghost predicate Around(pre: seq<Item>, tail: seq<Item>) {
    && (forall i :: 0 <= i < |pre| ==> !pre[i].Mark?)
    && (forall i :: 0 <= i < |tail| && tail[i].Mark? ==> tail[i].l.Named? && |tail[i].l.name| < 14)
    && UniqueLabels(tail)
  }

  /** The labels of the routine, told apart by their names. */
  lemma RoutineMarks(pre: seq<Item>, tail: seq<Item>)
    requires Around(pre, tail)
    ensures UniqueLabels(pre + Routine() + tail)
  {
    RoutineSize();
    var code := pre + Routine() + tail;
    var b := |pre|;
    hide Routine, NameAt;
    forall i, j | 0 <= i < j < |code| && code[i].Mark? ensures code[i] != code[j] {
      if code[j].Mark? {
        if i < b + SIZE { assert code[i] == Routine()[i - b]; MarkNames(i - b); }
        if j < b + SIZE { assert code[j] == Routine()[j - b]; MarkNames(j - b); NamesApart(i - b, j - b); }
        else if i < b + SIZE { assert code[j] == tail[j - b - SIZE]; NamesLong(i - b); }
        else { assert code[i] == tail[i - b - SIZE] && code[j] == tail[j - b - SIZE]; }
      }
    }
  }

  lemma NamesApart(i: nat, j: nat)
    requires i in {0, 1, 8, 11, 20, 27, 33, 43, 55} && j in {0, 1, 8, 11, 20, 27, 33, 43, 55} && i != j
    ensures NameAt(i) != NameAt(j)
  {
  }

  lemma NamesLong(i: nat)
    requires i in {0, 1, 8, 11, 20, 27, 33, 43, 55}
    ensures |NameAt(i)| >= 14
  {
  }

  /** The name of the label at each labelled place of the routine. */
  function NameAt(i: nat): string {
    if i == 0 then "scheme-call-cc-return" else if i == 1 then "scheme-call-cc-empty"
    else if i == 8 then "scheme-call-cc-empty-done"
    else if i == 11 then "scheme-call-cc-restore" else if i == 20 then "scheme-call-cc-restore-done"
    else if i == 27 then "scheme-call-cc-exit" else if i == 33 then "scheme-call-cc"
    else if i == 43 then "scheme-call-cc-save"
    else if i == 55 then "scheme-call-cc-stack-save-exit" else ""
  }

  lemma MarkNames(i: nat)
    requires i < |Routine()| && Routine()[i].Mark?
    ensures i in {0, 1, 8, 11, 20, 27, 33, 43, 55} && Routine()[i] == CallCc.Label(NameAt(i))
  {
    hide NameAt;
    ItemOf(i);
    NamesThere();
    hide Routine;
  }

  lemma ItemOf(i: nat)
    requires i < |Routine()|
    ensures i < 11 ==> Routine()[i] == EmptyCode()[i]
    ensures 11 <= i < 27 ==> Routine()[i] == RestoreCode()[i - 11]
    ensures 27 <= i < 33 ==> Routine()[i] == ExitCode()[i - 27]
    ensures 33 <= i < 43 ==> Routine()[i] == EntryCode()[i - 33]
    ensures 43 <= i < 56 ==> Routine()[i] == SaveCode()[i - 43]
    ensures 56 <= i ==> i < SIZE && Routine()[i] == CallCode()[i - 56]
  {
    hide EmptyCode, RestoreCode, ExitCode, EntryCode, SaveCode, CallCode;
    PartSizes();
  }

  lemma PartSizes()
    ensures |EmptyCode()| == 11 && |RestoreCode()| == 16 && |ExitCode()| == 6 && |EntryCode()| == 10
      && |SaveCode()| == 13 && |CallCode()| == 9
  {
  }

  lemma NamesThere()
    ensures NameAt(0) == "scheme-call-cc-return" && NameAt(1) == "scheme-call-cc-empty"
      && NameAt(8) == "scheme-call-cc-empty-done"
    ensures NameAt(11) == "scheme-call-cc-restore" && NameAt(20) == "scheme-call-cc-restore-done"
      && NameAt(27) == "scheme-call-cc-exit"
    ensures NameAt(33) == "scheme-call-cc" && NameAt(43) == "scheme-call-cc-save"
      && NameAt(55) == "scheme-call-cc-stack-save-exit"
  {
  }

  /** The routine satisfies the layout the theorems about it ask for, wherever it is loaded. */
  lemma RoutineLoaded(pre: seq<Item>, tail: seq<Item>)
    requires Around(pre, tail)
    ensures Loaded(pre + Routine() + tail, |pre|)
  {
    hide *;
    RoutineMarks(pre, tail);
    PartsThere(pre, tail);
    var code, b := pre + Routine() + tail, |pre|;
    EmptyThere(code, b);
    RestoreThere(code, b);
    ExitThere(code, b);
    EntryThere(code, b);
    SaveThere(code, b);
    CallThere(code, b);
    AllThere(code, b);
  }

  lemma AllThere(code: seq<Item>, b: nat)
    requires UniqueLabels(code) && b + SIZE <= |code| && EmptyPart(code, b) && RestorePart(code, b) && ExitPart(code, b)
    requires EntryPart(code, b) && SavePart(code, b) && CallPart(code, b)
    ensures Loaded(code, b)
  {
    hide UniqueLabels, EmptyPart, RestorePart, ExitPart, EntryPart, SavePart, CallPart;
  }

  /** The items of the routine, part by part, wherever it is loaded. */
  lemma PartsThere(pre: seq<Item>, tail: seq<Item>)
    ensures |pre + Routine() + tail| >= |pre| + SIZE
    ensures var code, b := pre + Routine() + tail, |pre|;
      && (forall j :: b <= j < b + 11 ==> code[j] == EmptyCode()[j - b])
      && (forall j :: b + 11 <= j < b + 27 ==> code[j] == RestoreCode()[j - b - 11])
      && (forall j :: b + 27 <= j < b + 33 ==> code[j] == ExitCode()[j - b - 27])
      && (forall j :: b + 33 <= j < b + 43 ==> code[j] == EntryCode()[j - b - 33])
      && (forall j :: b + 43 <= j < b + 56 ==> code[j] == SaveCode()[j - b - 43])
      && (forall j :: b + 56 <= j < b + 65 ==> code[j] == CallCode()[j - b - 56])
  {
    hide EmptyCode, RestoreCode, ExitCode, EntryCode, SaveCode, CallCode;
    PartSizes();
  }

  lemma EmptyThere(code: seq<Item>, b: nat)
    requires b + SIZE <= |code| && forall j :: b <= j < b + 11 ==> code[j] == EmptyCode()[j - b]
    ensures EmptyPart(code, b)
  {
  }

  lemma RestoreThere(code: seq<Item>, b: nat)
    requires b + SIZE <= |code| && forall j :: b + 11 <= j < b + 27 ==> code[j] == RestoreCode()[j - b - 11]
    ensures RestorePart(code, b)
  {
  }

  lemma ExitThere(code: seq<Item>, b: nat)
    requires b + SIZE <= |code| && forall j :: b + 27 <= j < b + 33 ==> code[j] == ExitCode()[j - b - 27]
    ensures ExitPart(code, b)
  {
  }

  lemma EntryThere(code: seq<Item>, b: nat)
    requires b + SIZE <= |code| && forall j :: b + 33 <= j < b + 43 ==> code[j] == EntryCode()[j - b - 33]
    ensures EntryPart(code, b)
  {
  }

  lemma SaveThere(code: seq<Item>, b: nat)
    requires b + SIZE <= |code| && forall j :: b + 43 <= j < b + 56 ==> code[j] == SaveCode()[j - b - 43]
    ensures SavePart(code, b)
  {
  }

  lemma CallThere(code: seq<Item>, b: nat)
    requires b + SIZE <= |code| && forall j :: b + 56 <= j < b + 65 ==> code[j] == CallCode()[j - b - 56]
    ensures CallPart(code, b)
  {
  }

  // ---------- the harmful adopt ----------

  /** A procedure that makes a closure of its second half, adopts it into the environment of the
      continuation it is called with, and goes there to bind stack-save. */
  function Thief(): seq<Item> {
    [CallCc.Label("thief"), Emit.Do(Drop), Emit.Do(Car), To(Proc, "rob"), Emit.Do(Swap), Emit.Do(Adopt), Emit.Do(Ret),
     CallCc.Label("rob"), Emit.Put(LitTrue), Sym(STACK_SAVE), Emit.Do(Bind)]
  }

  /** The thief is at p, outside the routine at b. */
  ghost predicate ThiefAt(code: seq<Item>, p: int, b: int) {
    CodeAt(code, p, Thief()) && (p >= b + SIZE || p + |Thief()| <= b)
  }

  lemma ThiefItem(code: seq<Item>, p: int, b: int, i: nat)
    requires ThiefAt(code, p, b) && i < 11
    ensures 0 <= p && p + 11 <= |code| && |Thief()| == 11 && code[p + i] == Thief()[i]
  {
    assert code[p..p + 11][i] == code[p + i];
  }

  /** From the call of the thief to its adopt. */
  lemma ToAdopt(code: seq<Item>, p: int, b: int, u: State, h: nat, c: nat) returns (w: State)
    requires UniqueLabels(code) && ThiefAt(code, p, b) && Calling(code, u, h, Pair(Closure(c), Empty)) && h != u.cur
    requires u.envs[h].ip == p && u.stack.rest.rest == Bottom && code[u.Ip()] == Emit.Do(CallIn) && c < |u.envs|
      && c != u.cur
    ensures Walks(code, Entered(u, h, On(Closure(u.cur), On(Pair(Closure(c), Empty), Bottom))), w)
    ensures w.Ok() && w.Ip() == p + 5 && w.tables == u.tables + [map[]] && w.cur == |u.envs| + 1
    ensures |w.envs| == |u.envs| + 3 && w.envs[c] == u.envs[c] && w.envs[|u.envs| + 2].ip == p + 7
    ensures w.stack == On(Closure(c), On(Closure(|u.envs| + 2), Bottom))
  {
    hide Exec, Walker, Walks, Thief, UniqueLabels;
    var k0 := On(Closure(u.cur), On(Pair(Closure(c), Empty), Bottom));
    var t := Entered(u, h, k0);
    var k2 := On(Closure(c), Bottom);
    ThiefItems(code, p, b);
    assert Conf(t, k0, p, map[]) == t by {
      assert t.tables[|u.tables| := map[]] == t.tables;
      assert t.envs[t.cur := t.envs[t.cur].(ip := p)] == t.envs;
    }
    WalksRefl(code, t);
    Go(code, t, t, k0, p, map[], k0);
    Go(code, t, t, k0, p + 1, map[], k0.rest);
    Go(code, t, t, k0.rest, p + 2, map[], k2);
    var d := Conf(t, k2, p + 3, map[]);
    var d1 := ProcConf(code, d, "rob", p + 7);
    WalksTrans(code, t, d, d1);
    w := Moved(d1, On(Closure(c), On(Closure(|u.envs| + 2), Bottom)), p + 5);
    PureWalk(code, d1, w.stack);
    WalksTrans(code, t, d1, w);
  }

  /** From the adopt to the binding, in a record that shares the table of the continuation. */
  lemma ToBind(code: seq<Item>, p: int, b: int, w: State, c: nat, x: nat, g: nat) returns (y: State, z: State)
    requires ThiefAt(code, p, b) && w.Ok() && w.Ip() == p + 5 && w.stack == On(Closure(c), On(Closure(x), Bottom))
    requires c < |w.envs| && x < |w.envs| && c != w.cur && x != w.cur && w.envs[x].ip == p + 7
    requires w.envs[c].table == g && g < |w.tables|
    ensures Reaches(code, w, y) && y.Ok() && y.Ip() == p + 10 && y.tables == w.tables && y.envs[y.cur].table == g
    ensures y.stack == On(Symbol(STACK_SAVE), On(Bool(true), Bottom))
    ensures Reaches(code, y, z) && z.tables == w.tables[g := w.tables[g][STACK_SAVE := Bool(true)]]
  {
    hide Exec, Walker, Walks, Reaches, Thief, ThiefAt;
    ThiefItems(code, p, b);
    var t := ToRob(code, p, b, w, c, x);
    y, z := Rob(code, p, b, t);
    ReachesTrans(code, w, t, y);
  }

  lemma ToRob(code: seq<Item>, p: int, b: int, w: State, c: nat, x: nat) returns (t: State)
    requires ThiefAt(code, p, b) && w.Ok() && w.Ip() == p + 5 && w.stack == On(Closure(c), On(Closure(x), Bottom))
    requires c < |w.envs| && x < |w.envs| && c != w.cur && x != w.cur && w.envs[x].ip == p + 7
    ensures Reaches(code, w, t) && t.Ok() && t.Ip() == p + 7 && t.stack == Bottom && t.tables == w.tables
    ensures t.envs[t.cur].table == w.envs[c].table
  {
    hide Exec, Reaches, Thief, ThiefAt;
    ThiefItems(code, p, b);
    var m := Adopted(w, c, x);
    AdoptStep(code, w, c, x);
    t := Enter(Moved(m, Bottom, p + 7), m.envs[|w.envs|]);
    RetStep(code, m, |w.envs|);
    ReachesTrans(code, w, m, t);
  }

  lemma Rob(code: seq<Item>, p: int, b: int, t: State) returns (y: State, z: State)
    requires ThiefAt(code, p, b) && Frame(t) && t.Ip() == p + 7 && t.stack == Bottom
    ensures var g := t.envs[t.cur].table;
      && Reaches(code, t, y) && y.Ok() && y.Ip() == p + 10 && y.tables == t.tables && y.envs[y.cur].table == g
      && y.stack == On(Symbol(STACK_SAVE), On(Bool(true), Bottom))
      && Reaches(code, y, z) && z.tables == t.tables[g := t.tables[g][STACK_SAVE := Bool(true)]]
  {
    hide Exec, Walker, Walks, Reaches, Thief, ThiefAt;
    ThiefItems(code, p, b);
    var g := t.envs[t.cur].table;
    var tab := t.tables[g];
    assert Conf(t, Bottom, p + 7, tab) == t by {
      assert t.tables[g := tab] == t.tables;
      assert t.envs[t.cur := t.envs[t.cur].(ip := p + 7)] == t.envs;
    }
    WalksRefl(code, t);
    Go(code, t, t, Bottom, p + 7, tab, Bottom);
    Go(code, t, t, Bottom, p + 8, tab, On(Bool(true), Bottom));
    Go(code, t, t, On(Bool(true), Bottom), p + 9, tab, On(Symbol(STACK_SAVE), On(Bool(true), Bottom)));
    y := Conf(t, On(Symbol(STACK_SAVE), On(Bool(true), Bottom)), p + 10, tab);
    WalksReach(code, t, y);
    BindConf(code, t, STACK_SAVE, Bool(true), Bottom, p + 10, tab);
    z := Conf(t, Bottom, p + 11, tab[STACK_SAVE := Bool(true)]);
    WalksReach(code, y, z);
  }

  lemma ThiefItems(code: seq<Item>, p: int, b: int)
    requires ThiefAt(code, p, b)
    ensures 0 <= p && p + 11 <= |code| && code[p] == CallCc.Label("thief") && code[p + 1] == Emit.Do(Drop)
    ensures code[p + 2] == Emit.Do(Car) && code[p + 3] == To(Proc, "rob") && code[p + 4] == Emit.Do(Swap)
    ensures code[p + 5] == Emit.Do(Adopt) && code[p + 6] == Emit.Do(Ret)
    ensures code[p + 7] == CallCc.Label("rob") && code[p + 8] == Emit.Put(LitTrue) && code[p + 9] == Sym(STACK_SAVE)
    ensures code[p + 10] == Emit.Do(Bind)
  {
    assert |Thief()| == 11;
    forall i: nat | i < 11 ensures code[p + i] == Thief()[i] { ThiefItem(code, p, b, i); }
    assert code[p + 0] == Thief()[0];
  }

  /** The state after an adopt of closures c and x on top of an empty stack. */
  function Adopted(w: State, c: nat, x: nat): State
    requires w.Ok() && c < |w.envs| && x < |w.envs|
  {
    Moved(w, On(Closure(|w.envs|), Bottom), w.Ip() + 1)
      .(envs := w.envs[w.cur := w.envs[w.cur].(ip := w.Ip() + 1)]
                + [w.envs[x].(table := w.envs[c].table, parent := w.envs[c].parent)])
  }

  lemma AdoptStep(code: seq<Item>, w: State, c: nat, x: nat)
    requires w.Ok() && 0 <= w.Ip() < |code| && code[w.Ip()] == Emit.Do(Adopt)
    requires c < |w.envs| && x < |w.envs| && c != w.cur && x != w.cur
      && w.stack == On(Closure(c), On(Closure(x), Bottom))
    ensures Reaches(code, w, Adopted(w, c, x))
  {
    ReachesStep(code, w, Adopted(w, c, x));
  }

  lemma RetStep(code: seq<Item>, m: State, e: nat)
    requires m.Ok() && 0 <= m.Ip() < |code| && code[m.Ip()] == Emit.Do(Ret)
    requires e < |m.envs| && e != m.cur && m.stack == On(Closure(e), Bottom)
    ensures Reaches(code, m, Enter(Moved(m, Bottom, m.Ip() + 1), m.envs[e]))
  {
    ReachesStep(code, m, Enter(Moved(m, Bottom, m.Ip() + 1), m.envs[e]));
  }

  /** In any program with the routine and the thief in it, from any call of call/cc on the thief:
      the capture is made and kept up to an adopt that is not harmless, and the bind behind it
      spoils the capture. */
  lemma AdoptLosesCapture(code: seq<Item>, b: int, p: int, s: State, e: nat, h: nat, more: Value, r: nat)
    returns (w: State, y: State, z: State)
    requires Loaded(code, b) && ThiefAt(code, p, b) && Frames.Inv(s)
    requires Calling(code, s, e, Pair(Closure(h), more)) && s.envs[e].ip == b + ENTRY
    requires ReturnOf(code, s, e, Pair(Closure(h), more)) == Closure(r) && h < |s.envs| && s.envs[h].ip == p
    ensures var g := |s.tables|; var k := Below(code, s, e, Pair(Closure(h), more));
      && Reaches(code, s, w) && Kept(w, g, b, k, r) && !Harmless(code, w, g, b)
      && Reaches(code, w, y) && Saved(y.tables, g, k, r) && Spoils(code, y, g)
      && Reaches(code, y, z) && !Saved(z.tables, g, k, r)
  {
    hide Exec, Loaded, Walks, Walker, Reaches, Kept, ThiefAt, Frames.Inv, Step;
    var args := Pair(Closure(h), more);
    var g, k := |s.tables|, Below(code, s, e, args);
    var u, c := CallCcCaptures(code, b, s, e, Closure(h), more, r);
    ReachInv(code, s, u);
    CodeHere(code, b);
    LoadedLabels(code, b);
    NotCurrent(s, e, h, more);
    Operands(u, h, c);
    var v := Entered(u, h, On(Closure(u.cur), On(Pair(Closure(c), Empty), Bottom)));
    CalledThief(code, u, h, c);
    w := ToAdopt(code, p, b, u, h, c);
    KeptAlong(code, b, v, w, g, k, r);
    WalksReach(code, v, w);
    ReachesTrans(code, s, u, v);
    ReachesTrans(code, s, v, w);
    KeptSaved(w, g, b, k, r);
    y, z := ToBind(code, p, b, w, c, |u.envs| + 2, g);
    Harms(code, p, b, w, c, |u.envs| + 2, g);
    Stolen(code, p, b, y, z, g, k, r);
  }

  lemma LoadedLabels(code: seq<Item>, b: int)
    requires Loaded(code, b)
    ensures UniqueLabels(code)
  {
  }

  lemma NotCurrent(s: State, e: nat, h: nat, more: Value)
    requires Frames.Inv(s) && s.stack.On? && s.stack.rest.On? && s.stack.rest.top == Pair(Closure(h), more)
    ensures h < |s.envs| && h != s.cur
  {
    assert Frames.StackApart(s.stack.rest, |s.envs|, s.cur);
    assert Frames.Apart(Pair(Closure(h), more), |s.envs|, s.cur);
    assert Frames.Apart(Closure(h), |s.envs|, s.cur);
  }

  lemma Operands(u: State, h: nat, c: nat)
    requires Frames.Inv(u) && u.stack == On(Closure(h), On(Pair(Closure(c), Empty), Bottom))
    ensures h < |u.envs| && h != u.cur && c < |u.envs| && c != u.cur
  {
    NotCurrent(u, h, c, Empty);
  }

  lemma CalledThief(code: seq<Item>, u: State, h: nat, c: nat)
    requires Calling(code, u, h, Pair(Closure(c), Empty)) && h != u.cur && u.stack.rest.rest == Bottom
    requires code[u.Ip()] == Emit.Do(CallIn)
    ensures var v := Entered(u, h, On(Closure(u.cur), On(Pair(Closure(c), Empty), Bottom)));
      Reaches(code, u, v) && Step(code, u) == Next(v)
  {
    ReachesStep(code, u, Entered(u, h, On(Closure(u.cur), On(Pair(Closure(c), Empty), Bottom))));
  }

  lemma KeptAlong(code: seq<Item>, b: int, v: State, w: State, g: nat, k: Stack, r: nat)
    requires Loaded(code, b) && Kept(v, g, b, k, r) && Walks(code, v, w)
    ensures Kept(w, g, b, k, r)
  {
    hide Loaded, Kept, Walker;
    var m: nat :| Iterate(Walker(code), v, m) == Some(w);
    WalkKept(code, b, v, m, w, g, k, r);
  }

  lemma Harms(code: seq<Item>, p: int, b: int, w: State, c: nat, x: nat, g: nat)
    requires ThiefAt(code, p, b) && w.Ok() && w.Ip() == p + 5 && w.stack == On(Closure(c), On(Closure(x), Bottom))
    requires c < |w.envs| && x < |w.envs| && w.envs[x].ip == p + 7 && w.envs[c].table == g
    ensures !Harmless(code, w, g, b)
  {
    ThiefItems(code, p, b);
    assert |Thief()| == 11;
    hide Thief;
    assert OnChain(w.envs, c, g);
    assert !Post(b, p + 7);
  }

  lemma Stolen(code: seq<Item>, p: int, b: int, y: State, z: State, g: nat, k: Stack, r: nat)
    requires ThiefAt(code, p, b) && y.Ok() && y.Ip() == p + 10 && Saved(y.tables, g, k, r) && y.envs[y.cur].table == g
    requires y.stack == On(Symbol(STACK_SAVE), On(Bool(true), Bottom))
    requires z.tables == y.tables[g := y.tables[g][STACK_SAVE := Bool(true)]]
    ensures Spoils(code, y, g) && !Saved(z.tables, g, k, r)
  {
    ThiefItems(code, p, b);
    hide Thief, ThiefAt;
    RefillSaved(k, Empty);
  }

  // ---------- a whole program ----------

  /** Call call/cc on the thief. */
  const CALLER: seq<Item> :=
    [Emit.Put(LitEmpty), To(Proc, "thief"), Emit.Do(Op.Cons), To(Proc, "scheme-call-cc"), Emit.Do(CallIn)]

  function Program(): seq<Item> { CALLER + Routine() + Thief() }

  lemma ProgramLoaded()
    ensures |Program()| == 81 && Loaded(Program(), 5) && ThiefAt(Program(), 70, 5)
    ensures forall i :: 0 <= i < 5 ==> Program()[i] == CALLER[i]
  {
    hide Routine, Thief, Loaded, Around;
    RoutineSize();
    ThiefAround();
    RoutineLoaded(CALLER, Thief());
    Placed(CALLER, Routine(), Thief());
  }

  lemma Placed(a: seq<Item>, m: seq<Item>, c: seq<Item>)
    ensures (a + m + c)[|a| + |m|..] == c && forall i :: 0 <= i < |a| ==> (a + m + c)[i] == a[i]
  {
  }

  lemma ThiefAround()
    ensures |Thief()| == 11 && |CALLER| == 5 && Around(CALLER, Thief())
  {
    assert "thief"[0] == 't' && "rob"[0] == 'r';
  }

  /** The state of the program at its call of call/cc. */
  function AtCall(): State {
    State(On(Closure(2), On(Pair(Closure(1), Empty), Bottom)),
          [Env(4, 0, false, 0, None), Env(70, 0, false, 0, None), Env(38, 0, false, 0, None)], [map[]], 0)
  }

  lemma ReachesCall()
    ensures Reaches(Program(), Start(), AtCall())
  {
    hide Program, Loaded, ThiefAt, Reaches, UniqueLabels;
    ProgramLoaded();
    LoadedLabels(Program(), 5);
    CallerItems(Program());
    ThiefItems(Program(), 70, 5);
    EntryHere(Program(), 5);
    FromStart(Program());
  }

  lemma FromStart(code: seq<Item>)
    requires |code| == 81 && UniqueLabels(code) && code[0] == Emit.Put(LitEmpty) && code[1] == To(Proc, "thief")
    requires code[2] == Emit.Do(Op.Cons) && code[3] == To(Proc, "scheme-call-cc")
    requires code[38] == CallCc.Label("scheme-call-cc") && code[70] == CallCc.Label("thief")
    ensures Reaches(code, Start(), AtCall())
  {
    hide Reaches, Walks, Walker, Exec, UniqueLabels;
    var s := Start();
    PureWalk(code, s, On(Empty, Bottom));
    var s1 := State(On(Empty, Bottom), [Env(1, 0, false, 0, None)], [map[]], 0);
    assert s1 == Moved(s, On(Empty, Bottom), 1);
    var s2 := ProcConf(code, s1, "thief", 70);
    WalksTrans(code, s, s1, s2);
    assert s2.envs == [Env(2, 0, false, 0, None), Env(70, 0, false, 0, None)];
    var s4 := ToCall(code, s2);
    WalksTrans(code, s, s2, s4);
    WalksReach(code, s, s4);
  }

  lemma ToCall(code: seq<Item>, s: State) returns (t: State)
    requires |code| == 81 && UniqueLabels(code) && code[2] == Emit.Do(Op.Cons) && code[3] == To(Proc, "scheme-call-cc")
    requires code[38] == CallCc.Label("scheme-call-cc")
    requires s == State(On(Closure(1), On(Empty, Bottom)), [Env(2, 0, false, 0, None), Env(70, 0, false, 0, None)],
                        [map[]], 0)
    ensures Walks(code, s, t) && t == AtCall()
  {
    hide Walks, Walker, Exec, UniqueLabels;
    var k := On(Pair(Closure(1), Empty), Bottom);
    PureWalk(code, s, k);
    var s1 := State(k, [Env(3, 0, false, 0, None), Env(70, 0, false, 0, None)], [map[]], 0);
    assert s1 == Moved(s, k, 3);
    t := ProcConf(code, s1, "scheme-call-cc", 38);
    WalksTrans(code, s, s1, t);
    assert t.envs == AtCall().envs;
  }

  lemma CallerItems(code: seq<Item>)
    requires |code| == 81 && forall i :: 0 <= i < 5 ==> code[i] == CALLER[i]
    ensures code[0] == Emit.Put(LitEmpty) && code[1] == To(Proc, "thief") && code[2] == Emit.Do(Op.Cons)
    ensures code[3] == To(Proc, "scheme-call-cc") && code[4] == Emit.Do(CallIn)
  {
  }

  lemma EntryHere(code: seq<Item>, b: int)
    requires Loaded(code, b)
    ensures 0 <= b && b + ENTRY < |code| && code[b + ENTRY] == CallCc.Label("scheme-call-cc")
  {
  }

  /** A whole run from the start of the machine that makes a capture and loses it. */
  lemma CaptureLost() returns (code: seq<Item>, w: State, z: State)
    ensures Loaded(code, 5) && Reaches(code, Start(), w) && Kept(w, 1, 5, Bottom, 0) && !Harmless(code, w, 1, 5)
    ensures Reaches(code, w, z) && !Saved(z.tables, 1, Bottom, 0)
  {
    hide Loaded, ThiefAt, Reaches, Kept, Harmless, Saved, Spoils;
    ProgramLoaded();
    CallerItems(Program());
    code := Program();
    hide Program;
    ReachesCall();
    AtCallInv();
    var s := AtCall();
    assert Calling(code, s, 2, Pair(Closure(1), Empty));
    var y;
    w, y, z := AdoptLosesCapture(code, 5, 70, s, 2, 1, Empty, 0);
    ReachesTrans(code, Start(), s, w);
    ReachesTrans(code, w, y, z);
  }

  lemma AtCallInv()
    ensures Frames.Inv(AtCall())
  {
    var s := AtCall();
    forall i | 0 <= i < |s.envs| ensures Frames.EnvApart(s.envs[i], i, |s.tables|, s.cur) {}
    assert Frames.TableApart(s.tables[0], 3, 0);
    assert Frames.StackApart(s.stack.rest, 3, 0) by {
      assert Frames.Apart(Pair(Closure(1), Empty), 3, 0);
    }
  }
}
