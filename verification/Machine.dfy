/** The virtual machine: its values, environments and the effect of each decoded instruction.

    Environment records live in `envs` and are named by their index.  Cloning a record copies it
    but shares its binding table, so tables are separate objects named by their own index.  The
    instruction pointer of the running code is the `ip` of the current record. */
module Machine {

  datatype Option<+T> = None | Some(value: T)

  datatype Value =
    | Empty
    | Bool(b: bool)
    | Fixnum(i: int)
    | Char(c: int)
    | Str(s: string)
    | Symbol(name: string)
    | Pair(car: Value, cdr: Value)
    | Closure(env: nat)

  /** The operand stack, a list with its top first as in the machine itself. */
  datatype Stack = Bottom | On(top: Value, rest: Stack)

  function Depth(s: Stack): nat {
    match s
    case Bottom => 0
    case On(_, rest) => 1 + Depth(rest)
  }

  datatype Env = Env(ip: int, table: nat, handler: bool, handlerAddr: int, parent: Option<nat>)

  type Table = map<string, Value>

  datatype State = State(stack: Stack, envs: seq<Env>, tables: seq<Table>, cur: nat) {
    ghost predicate Ok() { cur < |envs| }
    function Ip(): int requires cur < |envs| { envs[cur].ip }
  }

  /** The machine as vm_create leaves it: one record with an empty table. */
  function Start(): State {
    State(Bottom, [Env(0, 0, false, 0, None)], [map[]], 0)
  }

  /** `Abort` is the failed assertion of an unhandled exception or a stack under-run; `Undefined`
      is C behaviour the language leaves open (overflow, division by zero, a wild pointer). */
  datatype Outcome = Next(s: State) | Abort | Undefined

  datatype Lit =
    | LitEmpty | LitTrue | LitFalse
    | LitFixnum(i: int) | LitChar(c: int) | LitString(s: string) | LitSymbol(s: string)

  datatype MathOp = Add | Sub | Mul | Div | Mod | NumEq | NumLt | NumGt

  datatype Op =
    | Cons | Car | Cdr
    | Bind | Set | Read
    | Swap | Rot | Dup | Drop | GetDepth
    | Math(m: MathOp)
    | Not | IsEmpty
    | Adopt | Ret | Jin | CallIn | TailCallIn | Restore

  datatype JumpKind = Jmp | Jnf | Call | Proc | Continue

  /** An instruction whose jump target is still a label, or already an absolute address. */
  datatype Instr<T> = Literal(lit: Lit) | Plain(op: Op) | Jump(kind: JumpKind, target: T)

  function LitValue(l: Lit): Value {
    match l
    case LitEmpty => Empty
    case LitTrue => Bool(true)
    case LitFalse => Bool(false)
    case LitFixnum(i) => Fixnum(i)
    case LitChar(c) => Char(c)
    case LitString(s) => Str(s)
    case LitSymbol(s) => Symbol(s)
  }

  // ---------- small state updates ----------

  function SetIp(s: State, ip: int): State
    requires s.cur < |s.envs|
  {
    s.(envs := s.envs[s.cur := s.envs[s.cur].(ip := ip)])
  }

  function Push(s: State, v: Value): State {
    s.(stack := On(v, s.stack))
  }

  /** clone_env into the current environment: a copy of record e becomes current. */
  function Enter(s: State, e: Env): State {
    s.(envs := s.envs + [e], cur := |s.envs|)
  }

  /** push_env: a child of the current record with an empty table becomes current. */
  function PushEnv(s: State): State
    requires s.cur < |s.envs|
  {
    Enter(s, Env(s.Ip(), |s.tables|, false, 0, Some(s.cur))).(tables := s.tables + [map[]])
  }

  // ---------- environment chains ----------

  /** The nearest table on the parent chain of e that binds x. */
  function Lookup(envs: seq<Env>, tables: seq<Table>, e: nat, x: string): Option<nat>
    decreases e
  {
    if e >= |envs| || envs[e].table >= |tables| then None
    else if x in tables[envs[e].table] then Some(envs[e].table)
    else match envs[e].parent
      case None => None
      case Some(p) => if p < e then Lookup(envs, tables, p, x) else None
  }

  /** The nearest record on the parent chain of e with its handler enabled. */
  function FindHandler(envs: seq<Env>, e: nat): Option<nat>
    decreases e
  {
    if e >= |envs| then None
    else if envs[e].handler then Some(e)
    else match envs[e].parent
      case None => None
      case Some(p) => if p < e then FindHandler(envs, p) else None
  }

  // ---------- exceptions ----------

  function ListOnto(vs: seq<Value>, acc: Value): Value
  {
    if vs == [] then acc else ListOnto(vs[1..], Pair(vs[0], acc))
  }

  /** handle_exception: push (message closure . objects), then resume at the nearest handler. */
  function Throw(s: State, msg: string, objs: seq<Value>): Outcome
    requires s.cur < |s.envs|
  {
    var here := Closure(|s.envs|);
    var exn := Pair(Str(msg), Pair(here, ListOnto(objs, Empty)));
    var s1 := s.(envs := s.envs + [s.envs[s.cur]], stack := On(exn, s.stack));
    match FindHandler(s1.envs, s1.cur)
    case None => Abort
    case Some(h) =>
      if h < |s1.envs| then
        Next(Enter(s1, s1.envs[h].(handler := false, ip := s1.envs[h].handlerAddr)))
      else Undefined
  }

  // ---------- arithmetic ----------

  const INT_MIN: int := -0x8000_0000_0000_0000
  const INT_MAX: int := 0x7fff_ffff_ffff_ffff

  /** C division truncates toward zero. */
  function TruncDiv(a: int, b: int): int
    requires b != 0
  {
    if (a < 0) == (b < 0) then Abs(a) / Abs(b) else -(Abs(a) / Abs(b))
  }

  function Abs(a: int): nat { if a < 0 then -a else a }

  function Arith(m: MathOp, a: int, b: int): Option<Value> {
    match m
    case NumEq => Some(Bool(a == b))
    case NumLt => Some(Bool(a < b))
    case NumGt => Some(Bool(a > b))
    case Add => Ranged(a + b)
    case Sub => Ranged(a - b)
    case Mul => Ranged(a * b)
    case Div => if b == 0 then None else Ranged(TruncDiv(a, b))
    case Mod => if b == 0 || (a == INT_MIN && b == -1) then None else Ranged(a - TruncDiv(a, b) * b)
  }

  function Ranged(i: int): Option<Value> {
    if INT_MIN <= i <= INT_MAX then Some(Fixnum(i)) else None
  }

  // ---------- instructions ----------

  /** One instruction, with `next` the address just past its operands. */
  function Exec(i: Instr<int>, next: int, s0: State): Outcome
    requires s0.cur < |s0.envs|
  {
    var s := SetIp(s0, next);
    match i
    case Literal(l) => Next(Push(s, LitValue(l)))
    case Jump(k, t) => ExecJump(k, t, s)
    case Plain(op) =>
      if op == GetDepth then Next(Push(s, Fixnum(Depth(s.stack))))
      else if op == Restore then Next(s.(envs := s.envs[s.cur := s.envs[s.cur].(handler := true)]))
      else match s.stack
        case Bottom => Abort
        case On(a, rest) => ExecOne(op, a, s.(stack := rest))
  }

  function ExecJump(k: JumpKind, t: int, s: State): Outcome
    requires s.cur < |s.envs|
  {
    match k
    case Jmp => Next(SetIp(s, t))
    case Jnf =>
      (match s.stack
       case Bottom => Abort
       case On(a, rest) => var s1 := s.(stack := rest); Next(if a == Bool(false) then s1 else SetIp(s1, t)))
    case Call => Next(SetIp(PushEnv(Push(s, Closure(s.cur))), t))
    case Proc =>
      Next(s.(envs := s.envs + [s.envs[s.cur].(ip := t)], stack := On(Closure(|s.envs|), s.stack)))
    case Continue =>
      Next(s.(envs := s.envs[s.cur := s.envs[s.cur].(handler := true, handlerAddr := t)]))
  }

  /** Instructions that pop at least one operand, a already popped from s. */
  function ExecOne(op: Op, a: Value, s: State): Outcome
    requires s.cur < |s.envs|
  {
    match op
    case Drop => Next(s)
    case Dup => Next(Push(Push(s, a), a))
    case Not => Next(Push(s, Bool(a == Bool(false))))
    case IsEmpty => Next(Push(s, Bool(a == Empty)))
    case Car => if a.Pair? then Next(Push(s, a.car)) else Throw(s, "Attempt to read the car of a non-pair", [a])
    case Cdr => if a.Pair? then Next(Push(s, a.cdr)) else Throw(s, "Attempt to read the cdr of a non-pair", [a])
    case Read => ExecRead(a, s)
    case Ret | Jin | CallIn | TailCallIn => ExecTransfer(op, a, s)
    case _ =>
      match s.stack
      case Bottom => Abort
      case On(b, rest) => ExecTwo(op, a, b, s.(stack := rest))
  }

  function ExecRead(a: Value, s: State): Outcome
    requires s.cur < |s.envs|
  {
    if !a.Symbol? then Throw(s, "Attempt to read with non-symbol", [a])
    else match Lookup(s.envs, s.tables, s.cur, a.name)
      case None => Throw(s, "Attempt to read undefined symbol", [a])
      case Some(t) =>
        if t < |s.tables| && a.name in s.tables[t] then Next(Push(s, s.tables[t][a.name])) else Undefined
  }

  /** ret, jin, call_in and tail_call_in, which run the closure a. */
  function ExecTransfer(op: Op, a: Value, s: State): Outcome
    requires s.cur < |s.envs|
  {
    if !a.Closure? then Throw(s, "Attempt to jump to non-closure", [a])
    else if a.env >= |s.envs| then Undefined
    else
      var target := s.envs[a.env];
      match op
      case Ret => Next(Enter(s, target))
      case Jin => Next(Enter(s, target.(table := s.envs[s.cur].table, parent := s.envs[s.cur].parent)))
      case CallIn => Next(PushEnv(Enter(Push(s, Closure(s.cur)), target)))
      case _ =>
        match s.stack
        case On(b, On(c, rest)) => Next(PushEnv(Enter(s.(stack := On(c, On(b, rest))), target)))
        case _ => Abort
  }

  /** Instructions that pop two or more operands, a from the top and b from below it. */
  function ExecTwo(op: Op, a: Value, b: Value, s: State): Outcome
    requires s.cur < |s.envs|
  {
    match op
    case Cons => Next(Push(s, Pair(a, b)))
    case Swap => Next(Push(Push(s, a), b))
    case Math(m) =>
      if !a.Fixnum? || !b.Fixnum? then
        Throw(s, if m.NumEq? || m.NumLt? || m.NumGt? then "Attempt to compare with non-number\n"
                 else "Attempt to calculate with non-number\n", [b, a])
      else (match Arith(m, b.i, a.i) case None => Undefined case Some(v) => Next(Push(s, v)))
    case Bind =>
      if !a.Symbol? then Throw(s, "Attempt to bind with non-symbol", [a, b])
      else
        var t := s.envs[s.cur].table;
        if t < |s.tables| then Next(s.(tables := s.tables[t := s.tables[t][a.name := b]])) else Undefined
    case Set =>
      if !a.Symbol? then Throw(s, "Attempt to set with non-symbol", [a, b])
      else (match Lookup(s.envs, s.tables, s.cur, a.name)
        case None => Throw(s, "Attempt to set undefined symbol", [a, b])
        case Some(t) =>
          if t < |s.tables| then Next(s.(tables := s.tables[t := s.tables[t][a.name := b]])) else Undefined)
    case Adopt =>
      if !a.Closure? then Throw(s, "Attempt to adopt with non-closure", [a])
      else if !b.Closure? then Throw(s, "Attempt to adopt non-closure", [b])
      else if a.env >= |s.envs| || b.env >= |s.envs| then Undefined
      else
        var child := s.envs[b.env].(table := s.envs[a.env].table, parent := s.envs[a.env].parent);
        Next(s.(envs := s.envs + [child], stack := On(Closure(|s.envs|), s.stack)))
    case _ =>  // Rot
      match s.stack
      case Bottom => Abort
      case On(c, rest) => Next(s.(stack := On(b, On(c, On(a, rest)))))
  }
}
