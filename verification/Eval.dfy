/** A direct evaluator for instruction-stream trees, written without the machine.

    Every procedure call and every let* allocates one frame.  Arguments are evaluated in stream
    order, which is last to first in the source, and the operator after them.  The number k
    bounds the depth of nested procedure calls; `Fail` is an error or a bound that was too small. */
module Eval {
  import opened Machine
  import opened Syntax

  datatype Val =
    | SEmpty | SBool(b: bool) | SFixnum(i: int) | SChar(c: int) | SStr(s: string) | SSymbol(name: string)
    | SPair(car: Val, cdr: Val)
    | SClosure(formals: Formals, body: Stream, frame: nat)

  datatype Frame = Frame(vars: map<string, Val>, parent: Option<nat>)

  type Store = seq<Frame>

  datatype Result = Fail | Ok(v: Val, st: Store)

  function LitVal(l: Lit): Val {
    match l
    case LitEmpty => SEmpty
    case LitTrue => SBool(true)
    case LitFalse => SBool(false)
    case LitFixnum(i) => SFixnum(i)
    case LitChar(c) => SChar(c)
    case LitString(s) => SStr(s)
    case LitSymbol(s) => SSymbol(s)
  }

  // ---------- variables ----------

  function FindFrame(st: Store, f: nat, x: string): Option<nat>
    decreases f
  {
    if f >= |st| then None
    else if x in st[f].vars then Some(f)
    else match st[f].parent
      case None => None
      case Some(g) => if g < f then FindFrame(st, g, x) else None
  }

  function Define(st: Store, f: nat, x: string, v: Val): Store
    requires f < |st|
  {
    st[f := st[f].(vars := st[f].vars[x := v])]
  }

  function NewFrame(st: Store, parent: nat): Store {
    st + [Frame(map[], Some(parent))]
  }

  // ---------- quoted data ----------

  predicate WellQuoted(d: Stream) {
    d.Seq? && (d.head.LiteralNode? || (d.head.Quoted? && WellQuoted(d.head.datum)))
      && (d.next.End? || WellQuoted(d.next))
  }

  function QuotedNode(n: Node): Val
    requires n.LiteralNode? || (n.Quoted? && WellQuoted(n.datum))
    decreases n
  {
    if n.LiteralNode? then LitVal(n.lit) else QuotedFold(n.datum.next, QuotedNode(n.datum.head))
  }

  function QuotedFold(d: Stream, acc: Val): Val
    requires d.End? || WellQuoted(d)
    decreases d
  {
    if d.End? then acc else QuotedFold(d.next, SPair(QuotedNode(d.head), acc))
  }

  // ---------- procedures ----------

  /** The variables of a call: each formal takes the next argument, a final bare name the rest. */
  function BindFormals(fs: Formals, args: Val, vars: map<string, Val>): Option<map<string, Val>> {
    match fs
    case NoFormal => Some(vars)
    case FixedEnd => Some(vars)
    case Formal(x, NoFormal) => Some(vars[x := args])
    case Formal(x, rest) =>
      if args.SPair? then BindFormals(rest, args.cdr, vars[x := args.car]) else None
  }

  /** The operators on 64-bit integers; a quotient is cut off at the point, and the remainder is
      what that leaves of the dividend. */
  function MathVal(m: MathOp, a: Val, b: Val): Option<Val> {
    if !a.SFixnum? || !b.SFixnum? then None
    else match m
      case NumEq => Some(SBool(a.i == b.i))
      case NumLt => Some(SBool(a.i < b.i))
      case NumGt => Some(SBool(b.i < a.i))
      case Add => Fits64(a.i + b.i)
      case Sub => Fits64(a.i - b.i)
      case Mul => Fits64(a.i * b.i)
      case Div => if b.i == 0 then None else Fits64(if a.i >= 0 then a.i / b.i else -(-a.i / b.i))
      case Mod =>
        if b.i == 0 || (a.i == -0x8000_0000_0000_0000 && b.i == -1) then None
        else Fits64(if a.i >= 0 then a.i % b.i else -(-a.i % b.i))
  }

  function Fits64(i: int): Option<Val> {
    if -0x8000_0000_0000_0000 <= i < 0x8000_0000_0000_0000 then Some(SFixnum(i)) else None
  }

  /** The record-binding list: each (symbol . value) entry becomes a definition. */
  function BindList(st: Store, f: nat, entries: Val): Result
    requires f < |st|
    decreases entries
  {
    match entries
    case SEmpty => Ok(SEmpty, st)
    case SPair(SPair(SSymbol(x), v), rest) => BindList(Define(st, f, x, v), f, rest)
    case _ => Fail
  }

  // ---------- evaluation ----------

  function EvalStream(k: nat, s: Stream, f: nat, st: Store): Result
    decreases k, s
  {
    match s
    case End => Ok(SEmpty, st)
    case Seq(n, rest) =>
      var r := EvalNode(k, n, f, st);
      if r.Fail? || rest.End? then r else EvalStream(k, rest, f, r.st)
  }

  /** Definitions and assignments have the value (). */
  function EvalNode(k: nat, n: Node, f: nat, st: Store): Result
    decreases k, n
  {
    match n
    case LiteralNode(v) => Ok(LitVal(v), st)
    case Quoted(d) => if WellQuoted(d) then Ok(QuotedNode(n), st) else Fail
    case Load(x) =>
      var r := EvalStream(k, x, f, st);
      if r.Fail? || !r.v.SSymbol? then Fail
      else (match FindFrame(r.st, f, r.v.name)
        case Some(g) => if g < |r.st| && r.v.name in r.st[g].vars then Ok(r.st[g].vars[r.v.name], r.st) else Fail
        case None => Fail)
    case BindNode(v, x) =>
      var r := EvalPair(k, n, v, x, f, st);
      if r.Fail? || !r.v.SPair? || !r.v.cdr.SSymbol? || f >= |r.st| then Fail
      else Ok(SEmpty, Define(r.st, f, r.v.cdr.name, r.v.car))
    case StoreNode(v, x) =>
      var r := EvalPair(k, n, v, x, f, st);
      if r.Fail? || !r.v.SPair? || !r.v.cdr.SSymbol? then Fail
      else (match FindFrame(r.st, f, r.v.cdr.name)
        case Some(g) => if g < |r.st| then Ok(SEmpty, Define(r.st, g, r.v.cdr.name, r.v.car)) else Fail
        case None => Fail)
    case MathNode(m, a, b) =>
      var r := EvalPair(k, n, a, b, f, st);
      if r.Fail? || !r.v.SPair? then Fail
      else (match MathVal(m, r.v.car, r.v.cdr) case Some(v) => Ok(v, r.st) case None => Fail)
    case If(c, t, e) =>
      var r := EvalStream(k, c, f, st);
      if r.Fail? then Fail else EvalStream(k, if r.v == SBool(false) then e else t, f, r.st)
    case Cond(cs) => EvalClauses(k, cs, f, st)
    case And(xs) => if xs.End? then Ok(SBool(true), st) else EvalBool(k, xs, true, f, st)
    case Or(xs) => if xs.End? then Ok(SBool(false), st) else EvalBool(k, xs, false, f, st)
    case Lambda(fs, body) => Ok(SClosure(fs, body, f), st)
    case Apply(g, xs) =>
      var a := EvalArgs(k, xs, f, st, SEmpty);
      if a.Fail? then Fail
      else
        var r := EvalStream(k, g, f, a.st);
        if r.Fail? || k == 0 then Fail else EvalCall(k - 1, r.v, a.v, r.st)
    case LetStar(bs, body) =>
      var b := EvalStream(k, bs, |st|, NewFrame(st, f));
      if b.Fail? then Fail else EvalStream(k, body, |st|, b.st)
    case RecordType(d) =>
      if !WellQuoted(d) || k == 0 then Fail
      else (match FindFrame(st, f, FACTORY)
        case Some(g) =>
          if g < |st| && FACTORY in st[g].vars then
            var r := EvalCall(k - 1, st[g].vars[FACTORY], QuotedNode(Quoted(d)), st);
            if r.Fail? || f >= |r.st| then Fail else BindList(r.st, f, r.v)
          else Fail
        case None => Fail)
  }

  /** Two operands in order, as a pair of their values. */
  function EvalPair(k: nat, ghost n: Node, a: Stream, b: Stream, f: nat, st: Store): Result
    requires a < n && b < n
    decreases k, n, 0
  {
    var r := EvalStream(k, a, f, st);
    if r.Fail? then Fail
    else
      var q := EvalStream(k, b, f, r.st);
      if q.Fail? then Fail else Ok(SPair(r.v, q.v), q.st)
  }

  function EvalClauses(k: nat, cs: Clauses, f: nat, st: Store): Result
    decreases k, cs
  {
    match cs
    case NoClause => Ok(SEmpty, st)
    case Clause(t, b, rest) =>
      var r := EvalStream(k, t, f, st);
      if r.Fail? then Fail
      else if r.v == SBool(false) then EvalClauses(k, rest, f, r.st)
      else EvalStream(k, b, f, r.st)
  }

  function EvalBool(k: nat, xs: Stream, conj: bool, f: nat, st: Store): Result
    requires xs.Seq?
    decreases k, xs
  {
    var r := EvalNode(k, xs.head, f, st);
    if r.Fail? || xs.next.End? || (r.v == SBool(false)) == conj then r
    else EvalBool(k, xs.next, conj, f, r.st)
  }

  function EvalArgs(k: nat, xs: Stream, f: nat, st: Store, acc: Val): Result
    decreases k, xs
  {
    match xs
    case End => Ok(acc, st)
    case Seq(n, rest) =>
      var r := EvalNode(k, n, f, st);
      if r.Fail? then Fail else EvalArgs(k, rest, f, r.st, SPair(r.v, acc))
  }

  function EvalCall(k: nat, g: Val, args: Val, st: Store): Result
    decreases k
  {
    if !g.SClosure? then Fail
    else match BindFormals(g.formals, args, map[])
      case None => Fail
      case Some(vars) => EvalStream(k, g.body, |st|, st + [Frame(vars, Some(g.frame))])
  }
}
