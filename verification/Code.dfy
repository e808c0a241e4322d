/** Runs of a deterministic transition function. */
module Runs {
  import opened Machine

  function Iterate<S>(f: S -> Option<S>, s: S, n: nat): Option<S>
    decreases n
  {
    if n == 0 then Some(s)
    else match f(s)
      case None => None
      case Some(t) => Iterate(f, t, n - 1)
  }

  ghost predicate ReachesBy<S>(f: S -> Option<S>, s: S, t: S) {
    exists n: nat :: Iterate(f, s, n) == Some(t)
  }

  lemma {:induction false} IteratePlus<S>(f: S -> Option<S>, s: S, m: nat, t: S, n: nat)
    requires Iterate(f, s, m) == Some(t)
    ensures Iterate(f, s, m + n) == Iterate(f, t, n)
    decreases m
  {
    if m > 0 { IteratePlus(f, f(s).value, m - 1, t, n); }
  }

  lemma ByRefl<S>(f: S -> Option<S>, s: S)
    ensures ReachesBy(f, s, s)
  {
    assert Iterate(f, s, 0) == Some(s);
  }

  lemma ByStep<S>(f: S -> Option<S>, s: S, t: S)
    requires f(s) == Some(t)
    ensures ReachesBy(f, s, t)
  {
    assert Iterate(f, t, 0) == Some(t);
    assert Iterate(f, s, 1) == Some(t);
  }

  lemma ByTrans<S>(f: S -> Option<S>, s: S, t: S, u: S)
    requires ReachesBy(f, s, t) && ReachesBy(f, t, u)
    ensures ReachesBy(f, s, u)
  {
    var m: nat :| Iterate(f, s, m) == Some(t);
    var n: nat :| Iterate(f, t, n) == Some(u);
    IteratePlus(f, s, m, t, n);
  }
}

/** Labelled code, and the machine that runs it with instruction indices for addresses.

    A label is an item of its own that takes no space.  When a label is defined twice the last
    definition counts, as in the assembler's label table. */
module Code {
  import opened Machine
  import opened Runs

  /** `Gen(n)` stands for the text "_label_n" that gen_label writes. */
  datatype Label = Gen(n: nat) | Named(name: string)

  datatype Item = Ins(i: Instr<Label>) | Mark(l: Label)

  function LabelPos(code: seq<Item>, l: Label): int {
    if code == [] then -1
    else if code[|code| - 1] == Mark(l) then |code| - 1
    else LabelPos(code[..|code| - 1], l)
  }

  function Resolve(code: seq<Item>, i: Instr<Label>): Instr<int> {
    match i
    case Literal(l) => Literal(l)
    case Plain(op) => Plain(op)
    case Jump(k, l) => Jump(k, LabelPos(code, l))
  }

  /** One step of the labelled-code machine; a state whose ip is outside the code has halted. */
  function Step(code: seq<Item>, s: State): Outcome
    requires s.Ok() && 0 <= s.Ip() < |code|
  {
    match code[s.Ip()]
    case Mark(_) => Next(SetIp(s, s.Ip() + 1))
    case Ins(i) => Exec(Resolve(code, i), s.Ip() + 1, s)
  }

  /** The transition function; a halted, aborted or undefined state has no successor. */
  function Stepper(code: seq<Item>): State -> Option<State> {
    (s: State) =>
      if s.cur < |s.envs| && 0 <= s.Ip() < |code| then
        (match Step(code, s) case Next(t) => Some(t) case _ => None)
      else None
  }

  ghost predicate Reaches(code: seq<Item>, s: State, t: State) {
    ReachesBy(Stepper(code), s, t)
  }

  lemma ReachesRefl(code: seq<Item>, s: State)
    ensures Reaches(code, s, s)
  {
    ByRefl(Stepper(code), s);
  }

  lemma ReachesTrans(code: seq<Item>, s: State, t: State, u: State)
    requires Reaches(code, s, t) && Reaches(code, t, u)
    ensures Reaches(code, s, u)
  {
    ByTrans(Stepper(code), s, t, u);
  }

  lemma ReachesStep(code: seq<Item>, s: State, t: State)
    requires s.Ok() && 0 <= s.Ip() < |code| && Step(code, s) == Next(t)
    ensures Reaches(code, s, t)
  {
    ByStep(Stepper(code), s, t);
  }

  // ---------- placement of code segments ----------

  ghost predicate CodeAt(code: seq<Item>, p: int, seg: seq<Item>) {
    0 <= p && p + |seg| <= |code| && code[p..p + |seg|] == seg
  }

  ghost predicate UniqueLabels(code: seq<Item>) {
    forall i, j :: 0 <= i < j < |code| && code[i].Mark? ==> code[i] != code[j]
  }

  lemma CodeAtSplit(code: seq<Item>, p: int, a: seq<Item>, b: seq<Item>)
    requires CodeAt(code, p, a + b)
    ensures CodeAt(code, p, a) && CodeAt(code, p + |a|, b)
  {
    var w := code[p..p + |a + b|];
    assert w[..|a|] == a && w[|a|..] == b;
    assert code[p..p + |a|] == w[..|a|];
    assert code[p + |a|..p + |a| + |b|] == w[|a|..];
  }

  lemma CodeAtHead(code: seq<Item>, p: int, it: Item, rest: seq<Item>)
    requires CodeAt(code, p, [it] + rest)
    ensures 0 <= p < |code| && code[p] == it && CodeAt(code, p + 1, rest)
  {
    CodeAtSplit(code, p, [it], rest);
    assert code[p..p + 1][0] == it;
  }

  lemma CodeIndex(code: seq<Item>, p: int, seg: seq<Item>, i: nat)
    requires CodeAt(code, p, seg) && i < |seg|
    ensures 0 <= p && p + i < |code| && code[p + i] == seg[i]
  {
    assert code[p..p + |seg|][i] == seg[i];
  }

  lemma {:induction false} LabelPosUnique(code: seq<Item>, l: Label, k: int)
    requires UniqueLabels(code) && 0 <= k < |code| && code[k] == Mark(l)
    ensures LabelPos(code, l) == k
  {
    var last := |code| - 1;
    if k < last {
      var init := code[..last];
      assert init[k] == Mark(l);
      assert UniqueLabels(init);
      LabelPosUnique(init, l, k);
    }
  }

  /** The last definition of a label is the one a jump reaches. */
  lemma {:induction false} LabelPosLast(code: seq<Item>, l: Label)
    ensures -1 <= LabelPos(code, l) < |code|
    ensures LabelPos(code, l) >= 0 ==> code[LabelPos(code, l)] == Mark(l)
    ensures forall k :: LabelPos(code, l) < k < |code| ==> code[k] != Mark(l)
  {
    if code != [] && code[|code| - 1] != Mark(l) {
      var init := code[..|code| - 1];
      LabelPosLast(init, l);
      assert forall k :: 0 <= k < |init| ==> init[k] == code[k];
    }
  }
}
