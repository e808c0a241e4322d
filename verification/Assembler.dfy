/** The assembler: sizes and addresses of labelled code, its bytes, and what decoding them gives. */
module Assembler {
  import opened Machine
  import opened Code
  import opened Bytes

  // ---------- opcodes ----------

  function OpCode(op: Op): (b: Byte) {
    match op
    case Cons => 9 case Car => 10 case Cdr => 11
    case Adopt => 23 case Ret => 27 case Jin => 28 case CallIn => 29 case TailCallIn => 30 case Restore => 32
    case Bind => 33 case Set => 34 case Read => 35
    case Swap => 36 case Rot => 37 case Dup => 38 case Drop => 39 case GetDepth => 40
    case Math(m) => MathCode(m)
    case Not => 49 case IsEmpty => 69
  }

  function MathCode(m: MathOp): (b: Byte) {
    match m
    case Add => 41 case Sub => 42 case Mul => 43 case Div => 44 case Mod => 45
    case NumEq => 46 case NumLt => 47 case NumGt => 48
  }

  function JumpCode(k: JumpKind): (b: Byte) {
    match k
    case Call => 22 case Proc => 24 case Jmp => 25 case Jnf => 26 case Continue => 31
  }

  const MATH_OPS: seq<MathOp> := [Add, Sub, Mul, Div, Mod, NumEq, NumLt, NumGt]

  /** The instruction table by opcode; instructions outside this model have no entry. */
  function OpOf(b: Byte): Option<Op> {
    if 41 <= b <= 48 then Some(Math(MATH_OPS[b - 41]))
    else match b
      case 9 => Some(Op.Cons) case 10 => Some(Car) case 11 => Some(Cdr)
      case 23 => Some(Adopt) case 27 => Some(Ret) case 28 => Some(Jin) case 29 => Some(CallIn)
      case 30 => Some(TailCallIn) case 32 => Some(Restore)
      case 33 => Some(Bind) case 34 => Some(Set) case 35 => Some(Read)
      case 36 => Some(Swap) case 37 => Some(Rot) case 38 => Some(Dup) case 39 => Some(Drop) case 40 => Some(GetDepth)
      case 49 => Some(Not) case 69 => Some(IsEmpty)
      case _ => None
  }

  function JumpOf(b: Byte): Option<JumpKind> {
    match b
    case 22 => Some(Call) case 24 => Some(Proc) case 25 => Some(Jmp) case 26 => Some(Jnf) case 31 => Some(Continue)
    case _ => None
  }

  lemma OpCodes(op: Op)
    ensures OpOf(OpCode(op)) == Some(op) && JumpOf(OpCode(op)).None? && OpCode(op) > 7
  {
  }

  // ---------- sizes and addresses ----------

  function Size(it: Item): nat {
    match it
    case Mark(_) => 0
    case Ins(Plain(_)) => 1
    case Ins(Jump(_, _)) => 9
    case Ins(Literal(LitFixnum(_))) => 9
    case Ins(Literal(LitChar(_))) => 5
    case Ins(Literal(LitString(s))) => 9 + |s|
    case Ins(Literal(LitSymbol(s))) => 9 + |s|
    case Ins(Literal(_)) => 1
  }

  /** The address of item i, the end of the code for any index past it. */
  function Addr(code: seq<Item>, i: int): nat
    decreases i
  {
    if i <= 0 || code == [] then 0
    else if i > |code| then Addr(code, |code|)
    else Addr(code, i - 1) + Size(code[i - 1])
  }

  lemma {:induction false} AddrMono(code: seq<Item>, i: int, j: int)
    requires i <= j
    ensures Addr(code, i) <= Addr(code, j)
    decreases j
  {
    if i < j && 0 < j {
      if j > |code| {
        if i <= |code| { AddrMono(code, i, |code|); } else { assert Addr(code, i) == Addr(code, |code|) || code == []; }
      }
      else { AddrMono(code, i, j - 1); }
    }
  }

  // ---------- encoding ----------

  /** What the assembler can write: 64-bit integers, 32-bit characters, C strings. */
  ghost predicate Encodable(it: Item) {
    match it
    case Ins(Literal(LitFixnum(i))) => INT_MIN <= i <= INT_MAX
    case Ins(Literal(LitChar(c))) => 0 <= c < TWO_32
    case Ins(Literal(LitString(s))) => IsText(s) && |s| <= INT_MAX
    case Ins(Literal(LitSymbol(s))) => IsText(s) && |s| <= INT_MAX
    case _ => true
  }

  function EncodeLit(l: Lit): (bs: seq<Byte>)
    requires Encodable(Ins(Literal(l)))
    ensures |bs| == Size(Ins(Literal(l)))
  {
    match l
    case LitEmpty => [1]
    case LitFixnum(i) => [2] + Int64(i)
    case LitChar(c) => [3] + CharBytes(c)
    case LitTrue => [4]
    case LitFalse => [5]
    case LitString(s) => [6] + Int64(|s|) + TextBytes(s)
    case LitSymbol(s) => [7] + Int64(|s|) + TextBytes(s)
  }

  /** The bytes of item i when its jump operand, if any, holds rel. */
  function EncodeItem(it: Item, rel: int): (bs: seq<Byte>)
    requires Encodable(it)
    ensures |bs| == Size(it)
  {
    match it
    case Mark(_) => []
    case Ins(Literal(l)) => EncodeLit(l)
    case Ins(Plain(op)) => [OpCode(op)]
    case Ins(Jump(k, _)) => [JumpCode(k)] + Int64(rel)
  }

  /** The distance rewrite_jumps stores: from the end of the operand to the label. */
  function Rel(code: seq<Item>, i: int): int
    requires 0 <= i < |code|
  {
    match code[i]
    case Ins(Jump(_, l)) => Addr(code, LabelPos(code, l)) - Addr(code, i + 1)
    case _ => 0
  }

  ghost predicate AllEncodable(code: seq<Item>) { forall i :: 0 <= i < |code| ==> Encodable(code[i]) }

  ghost predicate AllDefined(code: seq<Item>) {
    forall i :: 0 <= i < |code| && code[i].Ins? && code[i].i.Jump? ==> Mark(code[i].i.target) in code
  }

  /** Bytes of the first n items with operands filled in from item m on, zero before it. */
  ghost function Partial(code: seq<Item>, n: nat, m: nat): (bs: seq<Byte>)
    requires AllEncodable(code) && n <= |code|
    ensures |bs| == Addr(code, n)
  {
    if n == 0 then [] else Partial(code, n - 1, m) + EncodeItem(code[n - 1], if n - 1 >= m then Rel(code, n - 1) else 0)
  }

  /** The assembled program. */
  ghost function Assembled(code: seq<Item>): (bs: seq<Byte>)
    requires AllEncodable(code)
    ensures |bs| == Addr(code, |code|)
  {
    Partial(code, |code|, 0)
  }

  lemma SliceBefore(p: seq<Byte>, e: seq<Byte>, a: nat, b: nat)
    requires a <= b <= |p|
    ensures (p + e)[a..b] == p[a..b]
  {
  }

  lemma {:induction false} PartialSlice(code: seq<Item>, n: nat, m: nat, i: nat)
    requires AllEncodable(code) && i < n <= |code|
    ensures Addr(code, i + 1) <= Addr(code, n)
    ensures Addr(code, i + 1) == Addr(code, i) + Size(code[i])
    ensures Partial(code, n, m)[Addr(code, i)..Addr(code, i + 1)]
      == EncodeItem(code[i], if i >= m then Rel(code, i) else 0)
    decreases n
  {
    hide EncodeItem, Rel, Size;
    assert Addr(code, i + 1) == Addr(code, i) + Size(code[i]);
    var e := EncodeItem(code[n - 1], if n - 1 >= m then Rel(code, n - 1) else 0);
    if i == n - 1 {
      assert Partial(code, n, m) == Partial(code, i, m) + e;
      assert (Partial(code, i, m) + e)[Addr(code, i)..Addr(code, n)] == e;
    } else {
      PartialSlice(code, n - 1, m, i);
      AddrMono(code, i + 1, n - 1);
      var p := Partial(code, n - 1, m);
      SliceBefore(p, e, Addr(code, i), Addr(code, i + 1));
    }
  }

  // ---------- decoding ----------

  function ByteAt(bs: seq<Byte>, i: int): Byte { if 0 <= i < |bs| then bs[i] else 0 }

  function Window(bs: seq<Byte>, i: int, n: nat): (w: seq<Byte>)
    ensures |w| == n && forall j :: 0 <= j < n ==> w[j] == ByteAt(bs, i + j)
    decreases n
  {
    if n == 0 then [] else [ByteAt(bs, i)] + Window(bs, i + 1, n - 1)
  }

  datatype Decoded = Decoded(i: Instr<int>, next: int) | Illegal

  /** One fetch: the opcode at ip, its operand, and the address past it. */
  function Decode(bs: seq<Byte>, ip: int): Decoded {
    var b := ByteAt(bs, ip);
    if b == 1 then Decoded(Literal(LitEmpty), ip + 1)
    else if b == 4 then Decoded(Literal(LitTrue), ip + 1)
    else if b == 5 then Decoded(Literal(LitFalse), ip + 1)
    else if b == 2 then Decoded(Literal(LitFixnum(ParseInt(Window(bs, ip + 1, 8)))), ip + 9)
    else if b == 3 then Decoded(Literal(LitChar(ParseChar(Window(bs, ip + 1, 5)))), ip + 5)
    else if b == 6 || b == 7 then
      var n := ParseInt(Window(bs, ip + 1, 8));
      if n < 0 then Illegal
      else
        var s := TextFrom(Window(bs, ip + 9, n));
        Decoded(Literal(if b == 6 then LitString(s) else LitSymbol(s)), ip + 9 + n)
    else if JumpOf(b).Some? then
      Decoded(Jump(JumpOf(b).value, ip + 9 + ParseInt(Window(bs, ip + 1, 8))), ip + 9)
    else match OpOf(b)
      case Some(op) => Decoded(Plain(op), ip + 1)
      case None => Illegal
  }

  lemma WindowSlice(bs: seq<Byte>, a: nat, b: nat, off: nat, n: nat)
    requires a <= b <= |bs| && off + n <= b - a
    ensures Window(bs, a + off, n) == bs[a..b][off..off + n]
  {
  }

  lemma LitDecodes(bs: seq<Byte>, a: nat, l: Lit)
    requires Encodable(Ins(Literal(l))) && a + Size(Ins(Literal(l))) <= |bs|
    requires bs[a..a + Size(Ins(Literal(l)))] == EncodeLit(l)
    ensures Decode(bs, a) == Decoded(Literal(l), a + Size(Ins(Literal(l))))
  {
    hide Int64, CharBytes, ParseInt, ParseChar, TextBytes, TextFrom, IsText;
    var e := EncodeLit(l);
    var z := a + Size(Ins(Literal(l)));
    assert bs[a] == bs[a..z][0] == e[0];
    match l
    case LitFixnum(i) => FixnumDecodes(bs, a, i);
    case LitChar(c) => CharDecodes(bs, a, c);
    case LitString(s) => TextDecodes(bs, a, 6, s);
    case LitSymbol(s) => TextDecodes(bs, a, 7, s);
    case _ =>
  }

  lemma FixnumDecodes(bs: seq<Byte>, a: nat, i: int)
    requires INT_MIN <= i <= INT_MAX && a + 9 <= |bs| && bs[a..a + 9] == [2] + Int64(i)
    ensures ParseInt(Window(bs, a + 1, 8)) == i
  {
    hide Int64, ParseInt;
    WindowSlice(bs, a, a + 9, 1, 8);
    assert ([2] + Int64(i))[1..9] == Int64(i);
    IntRoundTrip(i);
  }

  lemma CharDecodes(bs: seq<Byte>, a: nat, c: int)
    requires 0 <= c < TWO_32 && a + 5 <= |bs| && bs[a..a + 5] == [3] + CharBytes(c)
    ensures ParseChar(Window(bs, a + 1, 5)) == c
  {
    hide CharBytes, ParseChar;
    WindowSlice(bs, a, a + 5, 1, 4);
    var w := Window(bs, a + 1, 5);
    assert w[..4] == Window(bs, a + 1, 4);
    assert ([3] + CharBytes(c))[1..5] == CharBytes(c);
    assert w == CharBytes(c) + [w[4]];
    CharRoundTrip(c, w[4]);
  }

  lemma TextDecodes(bs: seq<Byte>, a: nat, tag: Byte, s: string)
    requires IsText(s) && |s| <= INT_MAX && a + 9 + |s| <= |bs|
    requires bs[a..a + 9 + |s|] == [tag] + Int64(|s|) + TextBytes(s)
    ensures ParseInt(Window(bs, a + 1, 8)) == |s| && TextFrom(Window(bs, a + 9, |s|)) == s
  {
    hide Int64, ParseInt, TextBytes, TextFrom, IsText;
    assert |Int64(|s|)| == 8 && |TextBytes(s)| == |s|;
    TextParts(bs, a, tag, Int64(|s|), TextBytes(s));
    IntRoundTrip(|s|);
    TextRoundTrip(s);
  }

  lemma TextParts(bs: seq<Byte>, a: nat, tag: Byte, length: seq<Byte>, text: seq<Byte>)
    requires |length| == 8 && a + 9 + |text| <= |bs| && bs[a..a + 9 + |text|] == [tag] + length + text
    ensures Window(bs, a + 1, 8) == length && Window(bs, a + 9, |text|) == text
  {
    hide Window;
    var e := [tag] + length + text;
    WindowSlice(bs, a, a + 9 + |text|, 1, 8);
    WindowSlice(bs, a, a + 9 + |text|, 9, |text|);
    assert e[1..9] == length;
    assert e[9..9 + |text|] == text;
  }

  /** An instruction with its targets as addresses. */
  function Placed(code: seq<Item>, i: Instr<int>): Instr<int> {
    match i
    case Jump(k, t) => Jump(k, Addr(code, t))
    case Literal(l) => Literal(l)
    case Plain(op) => Plain(op)
  }

  /** Programs the assembler accepts: every literal representable, every label defined, and the
      whole program addressable by signed 64-bit distances. */
  ghost predicate Assemblable(code: seq<Item>) {
    AllEncodable(code) && AllDefined(code) && Addr(code, |code|) <= INT_MAX
  }

  lemma RelFits(code: seq<Item>, i: int)
    requires Assemblable(code) && 0 <= i < |code|
    ensures INT_MIN <= Rel(code, i) <= INT_MAX
  {
    if code[i].Ins? && code[i].i.Jump? {
      var l := code[i].i.target;
      LabelPosLast(code, l);
      AddrMono(code, LabelPos(code, l), |code|);
      AddrMono(code, i + 1, |code|);
    }
  }

  lemma DecodeJump(bs: seq<Byte>, a: nat, k: JumpKind)
    requires a < |bs| && bs[a] == JumpCode(k)
    ensures Decode(bs, a) == Decoded(Jump(k, a + 9 + ParseInt(Window(bs, a + 1, 8))), a + 9)
  {
    hide ParseInt, ParseChar, Window, TextFrom, OpOf;
  }

  lemma JumpDecodes(bs: seq<Byte>, a: nat, k: JumpKind, rel: int)
    requires a + 9 <= |bs| && bs[a..a + 9] == [JumpCode(k)] + Int64(rel) && INT_MIN <= rel <= INT_MAX
    ensures Decode(bs, a) == Decoded(Jump(k, a + 9 + rel), a + 9)
  {
    hide ParseInt, Int64, Decode, JumpCode;
    var e := [JumpCode(k)] + Int64(rel);
    assert bs[a] == bs[a..a + 9][0] == e[0];
    DecodeJump(bs, a, k);
    WindowSlice(bs, a, a + 9, 1, 8);
    assert e[1..9] == Int64(rel);
    IntRoundTrip(rel);
  }

  lemma OpDecodes(bs: seq<Byte>, a: nat, op: Op)
    requires a < |bs| && bs[a] == OpCode(op)
    ensures Decode(bs, a) == Decoded(Plain(op), a + 1)
  {
    OpCodes(op);
  }

  /** Decoding the assembled program at the address of any instruction gives back that
      instruction, its jump target the address of the last definition of its label. */
  lemma DecodeAssembled(code: seq<Item>, i: nat, ins: Instr<Label>)
    requires Assemblable(code) && i < |code| && code[i] == Ins(ins)
    ensures Decode(Assembled(code), Addr(code, i)) == Decoded(Placed(code, Resolve(code, ins)), Addr(code, i + 1))
    ensures Addr(code, i) < |Assembled(code)|
  {
    hide Decode, Partial, EncodeItem, Encodable, LabelPos;
    PartialSlice(code, |code|, 0, i);
    RelFits(code, i);
    ItemDecodes(Assembled(code), Addr(code, i), ins, Rel(code, i));
  }

  lemma ItemDecodes(bs: seq<Byte>, a: nat, ins: Instr<Label>, rel: int)
    requires Encodable(Ins(ins)) && INT_MIN <= rel <= INT_MAX && a + Size(Ins(ins)) <= |bs|
    requires bs[a..a + Size(Ins(ins))] == EncodeItem(Ins(ins), rel)
    ensures a < |bs|
    ensures Decode(bs, a) == Decoded((match ins
      case Jump(k, _) => Jump(k, a + 9 + rel)
      case Literal(l) => Literal(l)
      case Plain(op) => Plain(op)), a + Size(Ins(ins)))
  {
    hide Decode, OpCode, JumpCode, EncodeLit;
    var z := a + Size(Ins(ins));
    match ins
    case Literal(l) => LitDecodes(bs, a, l);
    case Plain(op) =>
      assert bs[a] == bs[a..z][0];
      OpDecodes(bs, a, op);
    case Jump(k, l) => JumpDecodes(bs, a, k, rel);
  }
}
