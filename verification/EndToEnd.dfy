/** From tree to bytes: compiled, assembled and run, a program gives the value of its tree. */
module EndToEnd {
  import opened Machine
  import opened Syntax
  import opened Runs
  import opened Code
  import opened Emit
  import opened Eval
  import opened Simulation
  import opened Bytes
  import opened Assembler
  import opened ByteMachine
  import opened ControlFlow
  import Adequacy
  import StackDiscipline
  import Labels
  import Theorems

  /** Compiled code is accepted by the assembler whenever its literals are representable and it is
      not longer than addresses reach: no compiled jump is ever undefined. */
  lemma CompiledAssembles(prog: Stream, tail: bool, l: nat)
    requires AllEncodable(EmitStream(prog, tail, l).code)
    requires Addr(EmitStream(prog, tail, l).code, |EmitStream(prog, tail, l).code|) <= INT_MAX
    ensures Assemblable(EmitStream(prog, tail, l).code)
  {
    Labels.EmittedLabels(prog, tail, l);
  }

  /** The byte machine, started at address 0 on the assembled program, runs to the end of the code
      with exactly the value of the program on the stack and its variables in the tables. */
  lemma ProgramOnBytes(prog: Stream, k: nat) returns (t: State, u: State, w: Value)
    requires EvalStream(k, prog, 0, Theorems.GLOBAL).Ok?
    requires AllEncodable(EmitStream(prog, false, 0).code)
    requires Addr(EmitStream(prog, false, 0).code, |EmitStream(prog, false, 0).code|) <= INT_MAX
    ensures var code := EmitStream(prog, false, 0).code;
      var bs := Assembled(code);
      var res := EvalStream(k, prog, 0, Theorems.GLOBAL);
      && ByteReaches(bs, Start(), u) && u.Ok() && u.Ip() == |bs|
      && u.stack == On(w, Bottom) && u == OnBytes(code, t)
      && ValRep(code, t.envs, t.cur, res.st, res.v, w) && StoreRep(code, res.st, t)
      && OnBoundaries(code, u)
  {
    hide Exec, Decode, Assembled, ValRep, StoreRep, EvalStream, EmitStream, Reaches, ByteReaches, Encodable;
    var code := EmitStream(prog, false, 0).code;
    CompiledAssembles(prog, false, 0);
    t, w := Theorems.ProgramCorrect(prog, k);
    u := OnBytes(code, t);
    BytesSimulate(code, Start(), t);
    StartOnBytes(code);
    ControlFlowIntegrity(code, Start(), u);
  }

  lemma StartOnBytes(code: seq<Item>)
    ensures OnBytes(code, Start()) == Start() && InRange(Start(), |code|)
  {
    assert OnBytes(code, Start()).envs == Start().envs;
  }

  // ---------- and back ----------

  /** A state at the end of the bytes is one at the end of the labelled code, past any labels. */
  lemma EndBack(code: seq<Item>, t: State) returns (t': State)
    requires Assemblable(code) && InRange(t, |code|) && OnBytes(code, t).Ip() == |Assembled(code)|
    ensures Reaches(code, t, t') && t'.Ok() && t'.Ip() == |code| && OnBytes(code, t') == OnBytes(code, t)
  {
    hide Exec, Reaches, Assembled;
    t' := SkipMarks(code, t);
    if t'.Ip() < |code| {
      AddrMono(code, t'.Ip() + 1, |code|);
      assert OnBytes(code, t').Ip() == Addr(code, t'.Ip()) < Addr(code, t'.Ip() + 1);
    }
  }

  /** Bytes that come to their end have run the program to its value. */
  lemma BytesEnd(prog: Stream, u: State) returns (t: State, k: nat, w: Value)
    requires StackDiscipline.Formed(prog) && AllEncodable(EmitStream(prog, false, 0).code)
    requires Addr(EmitStream(prog, false, 0).code, |EmitStream(prog, false, 0).code|) <= INT_MAX
    requires ByteReaches(Assembled(EmitStream(prog, false, 0).code), Start(), u)
    requires u.Ok() && u.Ip() == |Assembled(EmitStream(prog, false, 0).code)|
    ensures Adequacy.ValueAt(k, prog, 0, Theorems.GLOBAL)
    ensures var code := EmitStream(prog, false, 0).code; var res := EvalStream(k, prog, 0, Theorems.GLOBAL);
      && u.stack == On(w, Bottom) && u == OnBytes(code, t)
      && ValRep(code, t.envs, t.cur, res.st, res.v, w) && StoreRep(code, res.st, t)
  {
    hide Exec, Decode, Assembled, ValRep, StoreRep, EvalStream, EmitStream, Reaches, Encodable, ByteStepper;
    hide StackDiscipline.Formed;
    var code := EmitStream(prog, false, 0).code;
    CompiledAssembles(prog, false, 0);
    StartOnBytes(code);
    var n: nat :| Iterate(ByteStepper(Assembled(code)), Start(), n) == Some(u);
    var t0 := RunBack(code, Start(), n, u);
    t := EndBack(code, t0);
    ReachesTrans(code, Start(), t0, t);
    k, w := Adequacy.ProgramEnds(prog, t);
  }

  ghost predicate BytesEndAt(bs: seq<Byte>, u: State) { ByteReaches(bs, Start(), u) && u.Ok() && u.Ip() == |bs| }

  /** The assembled program comes to its end if and only if the evaluator gives the tree a value. */
  lemma BytesAdequate(prog: Stream)
    requires StackDiscipline.Formed(prog) && AllEncodable(EmitStream(prog, false, 0).code)
    requires Addr(EmitStream(prog, false, 0).code, |EmitStream(prog, false, 0).code|) <= INT_MAX
    ensures Adequacy.HasValue(prog, 0, Theorems.GLOBAL) <==>
      exists u :: BytesEndAt(Assembled(EmitStream(prog, false, 0).code), u)
  {
    hide Assembled, ValRep, StoreRep, EvalStream, EmitStream, ByteReaches, Encodable;
    hide StackDiscipline.Formed, OnBoundaries;
    var bs := Assembled(EmitStream(prog, false, 0).code);
    if Adequacy.HasValue(prog, 0, Theorems.GLOBAL) {
      var k: nat :| EvalStream(k, prog, 0, Theorems.GLOBAL).Ok?;
      var t, u, w := ProgramOnBytes(prog, k);
      assert BytesEndAt(bs, u);
    }
    if exists u :: BytesEndAt(bs, u) {
      var u :| BytesEndAt(bs, u);
      var t, k, w := BytesEnd(prog, u);
    }
  }
}
