/** The assembler's two passes: a loop over the tokens that fills a buffer, a label table and a
    list of jumps, and a loop over that list that patches the operands in place. */
module AsmString {
  import opened Machine
  import opened Code
  import opened Bytes
  import opened Assembler

  /** The jump list, last jump first. */
  datatype JumpList = NoJump | JumpAt(addr: nat, name: Label, next: JumpList)

  ghost function JumpsOf(code: seq<Item>, n: nat): JumpList
    requires n <= |code|
  {
    if n == 0 then NoJump
    else match code[n - 1]
      case Ins(Jump(_, l)) => JumpAt(Addr(code, n - 1) + 1, l, JumpsOf(code, n - 1))
      case _ => JumpsOf(code, n - 1)
  }

  /** The label table after the first n tokens: the last definition of each label. */
  ghost predicate LabelsOf(code: seq<Item>, n: nat, labels: map<Label, int>)
    requires n <= |code|
  {
    forall l :: (l in labels <==> Mark(l) in code[..n])
      && (l in labels ==> labels[l] == Addr(code, LabelPos(code[..n], l)))
  }

  lemma LabelsStep(code: seq<Item>, n: nat, labels: map<Label, int>)
    requires n < |code| && LabelsOf(code, n, labels)
    ensures LabelsOf(code, n + 1, if code[n].Mark? then labels[code[n].l := Addr(code, n)] else labels)
  {
    var c, d := code[..n], code[..n + 1];
    assert d == c + [code[n]] && d[..n] == c;
    forall l
      ensures (Mark(l) in d <==> Mark(l) in c || code[n] == Mark(l))
      ensures code[n] != Mark(l) ==> LabelPos(d, l) == LabelPos(c, l)
      ensures code[n] == Mark(l) ==> LabelPos(d, l) == n
    {
    }
  }

  /** Filling in the operand of one more jump touches its eight bytes only. */
  lemma {:induction false} PartialPatch(code: seq<Item>, n: nat, j: nat)
    requires AllEncodable(code) && j < n <= |code|
    ensures Addr(code, j) <= Addr(code, j + 1) <= Addr(code, n)
    ensures var p := Partial(code, n, j + 1);
      Partial(code, n, j) == p[..Addr(code, j)] + EncodeItem(code[j], Rel(code, j)) + p[Addr(code, j + 1)..]
    decreases n
  {
    hide EncodeItem, Rel;
    AddrMono(code, j, j + 1);
    AddrMono(code, j + 1, n);
    var p := Partial(code, n, j + 1);
    if n == j + 1 {
      PartialSame(code, j, j, j + 1);
      assert p[..Addr(code, j)] == Partial(code, j, j + 1);
      assert p[Addr(code, n)..] == [];
    } else {
      PartialPatch(code, n - 1, j);
      AddrMono(code, j + 1, n - 1);
      var q := Partial(code, n - 1, j + 1);
      hide Addr;
      PatchAhead(q, EncodeItem(code[n - 1], Rel(code, n - 1)), Addr(code, j), Addr(code, j + 1),
                 EncodeItem(code[j], Rel(code, j)));
    }
  }

  lemma PatchAhead(q: seq<Byte>, last: seq<Byte>, a: nat, b: nat, x: seq<Byte>)
    requires a <= b <= |q|
    ensures q[..a] + x + q[b..] + last == (q + last)[..a] + x + (q + last)[b..]
  {
    assert (q + last)[..a] == q[..a] && (q + last)[b..] == q[b..] + last;
  }

  lemma {:induction false} PartialSame(code: seq<Item>, n: nat, a: nat, b: nat)
    requires AllEncodable(code) && n <= |code| && n <= a && n <= b
    ensures Partial(code, n, a) == Partial(code, n, b)
    decreases n
  {
    if n > 0 { PartialSame(code, n - 1, a, b); }
  }

  /** Items that are no jumps have the same bytes before and after patching. */
  lemma {:induction false} LastJump(code: seq<Item>, m: nat) returns (j: nat)
    requires AllEncodable(code) && m <= |code| && JumpsOf(code, m).JumpAt?
    ensures j < m && code[j].Ins? && code[j].i.Jump? && JumpsOf(code, m) == JumpsOf(code, j + 1)
    ensures Partial(code, |code|, m) == Partial(code, |code|, j + 1)
    decreases m
  {
    if code[m - 1].Ins? && code[m - 1].i.Jump? {
      j := m - 1;
    } else {
      PlainPatch(code, m - 1);
      j := LastJump(code, m - 1);
    }
  }

  lemma PlainBytes(it: Item, rel: int)
    requires Encodable(it) && !(it.Ins? && it.i.Jump?)
    ensures EncodeItem(it, rel) == EncodeItem(it, 0)
  {
  }

  lemma JumpBytes(it: Item, rel: int)
    requires it.Ins? && it.i.Jump?
    ensures EncodeItem(it, rel) == [JumpCode(it.i.kind)] + Int64(rel)
  {
    hide Int64;
  }

  lemma PlainPatch(code: seq<Item>, j: nat)
    requires AllEncodable(code) && j < |code| && !(code[j].Ins? && code[j].i.Jump?)
    ensures Partial(code, |code|, j) == Partial(code, |code|, j + 1)
  {
    hide EncodeItem, Rel, Partial;
    var p := Partial(code, |code|, j + 1);
    PartialPatch(code, |code|, j);
    PartialSlice(code, |code|, j + 1, j);
    PlainBytes(code[j], Rel(code, j));
    assert p == p[..Addr(code, j)] + p[Addr(code, j)..Addr(code, j + 1)] + p[Addr(code, j + 1)..];
  }

  lemma {:induction false} NoJumpLeft(code: seq<Item>, m: nat)
    requires AllEncodable(code) && m <= |code| && JumpsOf(code, m).NoJump?
    ensures Partial(code, |code|, m) == Partial(code, |code|, 0)
    decreases m
  {
    if m > 0 {
      PlainPatch(code, m - 1);
      NoJumpLeft(code, m - 1);
    }
  }

  /** The relative target rewrite_jumps stores for jump j. */
  lemma TargetIsRel(code: seq<Item>, j: nat, labels: map<Label, int>)
    requires j < |code| && code[j].Ins? && code[j].i.Jump? && LabelsOf(code, |code|, labels)
      && code[j].i.target in labels
    ensures labels[code[j].i.target] - (Addr(code, j) + 1) - 8 == Rel(code, j)
  {
    assert code[..|code|] == code;
  }

  lemma LabelKnown(code: seq<Item>, labels: map<Label, int>, l: Label)
    requires LabelsOf(code, |code|, labels)
    ensures l in labels <==> Mark(l) in code
  {
    assert code[..|code|] == code;
  }

  /** Patch every operand.  A jump to a label that is never defined stops the assembler. */
  method RewriteJumps(code: array<Byte>, jumps: JumpList, labels: map<Label, int>, ghost tokens: seq<Item>)
    returns (ok: bool)
    requires AllEncodable(tokens) && LabelsOf(tokens, |tokens|, labels)
    requires jumps == JumpsOf(tokens, |tokens|) && code[..] == Partial(tokens, |tokens|, |tokens|)
    modifies code
    ensures ok <==> AllDefined(tokens)
    ensures ok ==> code[..] == Assembled(tokens)
  {
    hide EncodeItem, Rel, Partial, Int64, LabelPos, AllEncodable, LabelsOf;
    var list := jumps;
    ghost var m: nat := |tokens|;
    while list.JumpAt?
      invariant m <= |tokens| && list == JumpsOf(tokens, m)
      invariant code[..] == Partial(tokens, |tokens|, m)
      invariant forall i :: m <= i < |tokens| && tokens[i].Ins? && tokens[i].i.Jump? ==>
        Mark(tokens[i].i.target) in tokens
      decreases list
    {
      ghost var j := LastJump(tokens, m);
      LabelKnown(tokens, labels, list.name);
      if list.name !in labels {
        assert Mark(tokens[j].i.target) !in tokens;
        return false;
      }
      var target := labels[list.name] - list.addr;
      target := target - 8;
      TargetIsRel(tokens, j, labels);
      NoJumpBetween(tokens, m, j);
      PartialSlice(tokens, |tokens|, j + 1, j);
      PartialPatch(tokens, |tokens|, j);
      WriteOperand(code, list.addr, target);
      PatchedOperand(tokens, j, code[..]);
      m := j;
      list := list.next;
    }
    NoJumpLeft(tokens, m);
    NoJumpBefore(tokens, m);
    ok := true;
  }

  lemma {:induction false} NoJumpBetween(code: seq<Item>, m: nat, j: nat)
    requires m <= |code| && j < m && code[j].Ins? && code[j].i.Jump? && JumpsOf(code, m) == JumpsOf(code, j + 1)
    ensures forall i :: j < i < m ==> !(code[i].Ins? && code[i].i.Jump?)
    decreases m
  {
    if m > j + 1 {
      JumpsAddr(code, m - 1);
      JumpsAddr(code, j + 1);
      AddrMono(code, j + 1, m - 1);
      if !(code[m - 1].Ins? && code[m - 1].i.Jump?) { NoJumpBetween(code, m - 1, j); }
    }
  }

  lemma {:induction false} JumpsAddr(code: seq<Item>, n: nat)
    requires n <= |code|
    ensures JumpsOf(code, n).JumpAt? ==> JumpsOf(code, n).addr < Addr(code, n) || n == 0
    decreases n
  {
    if n > 0 {
      AddrMono(code, n - 1, n);
      if !(code[n - 1].Ins? && code[n - 1].i.Jump?) { JumpsAddr(code, n - 1); }
    }
  }

  lemma {:induction false} NoJumpBefore(code: seq<Item>, m: nat)
    requires m <= |code| && JumpsOf(code, m).NoJump?
    ensures forall i :: 0 <= i < m ==> !(code[i].Ins? && code[i].i.Jump?)
    decreases m
  {
    if m > 0 { NoJumpBefore(code, m - 1); }
  }

  lemma PatchedOperand(code: seq<Item>, j: nat, bs: seq<Byte>)
    requires AllEncodable(code) && j < |code| && code[j].Ins? && code[j].i.Jump?
    requires |bs| == Addr(code, |code|) && Addr(code, j + 1) <= |bs| && Addr(code, j + 1) == Addr(code, j) + 9
    requires var p := Partial(code, |code|, j + 1); var a := Addr(code, j) + 1;
      bs == p[..a] + Int64(Rel(code, j)) + p[a + 8..]
    ensures bs == Partial(code, |code|, j)
  {
    hide EncodeItem, Rel, Partial, Int64;
    var p := Partial(code, |code|, j + 1);
    var a := Addr(code, j);
    PartialPatch(code, |code|, j);
    PartialSlice(code, |code|, j + 1, j);
    JumpBytes(code[j], 0);
    JumpBytes(code[j], Rel(code, j));
    var op := JumpCode(code[j].i.kind);
    assert p[a] == p[a..a + 9][0] == op;
    assert p[..a + 1] == p[..a] + [op];
    assert bs == p[..a] + ([op] + Int64(Rel(code, j))) + p[a + 9..];
  }

  /** Store the eight bytes of a jump operand. */
  method WriteOperand(code: array<Byte>, addr: nat, target: int)
    requires addr + 8 <= code.Length
    modifies code
    ensures code[..] == old(code[..])[..addr] + Int64(target) + old(code[..])[addr + 8..]
  {
    hide Int64;
    var bytes := Int64(target);
    ghost var was := code[..];
    for i := 0 to 8
      invariant code[..] == was[..addr] + bytes[..i] + was[addr + i..]
    {
      ghost var before := code[..];
      code[addr + i] := bytes[i];
      assert code[..] == before[addr + i := bytes[i]];
      assert bytes[..i + 1] == bytes[..i] + [bytes[i]];
      assert was[addr + i..] == [was[addr + i]] + was[addr + i + 1..];
    }
    assert bytes[..8] == bytes;
  }

  lemma PartialStep(code: seq<Item>, i: nat)
    requires AllEncodable(code) && i < |code|
    ensures Encodable(code[i]) && Partial(code, i + 1, |code|) == Partial(code, i, |code|) + EncodeItem(code[i], 0)
  {
    hide EncodeItem, Rel;
  }

  /** The token loop: bytes with empty operands, the label table and the list of jumps. */
  method FirstPass(tokens: seq<Item>) returns (buf: seq<Byte>, labels: map<Label, int>, jumps: JumpList)
    requires AllEncodable(tokens)
    ensures buf == Partial(tokens, |tokens|, |tokens|) && LabelsOf(tokens, |tokens|, labels)
      && jumps == JumpsOf(tokens, |tokens|)
  {
    buf, labels, jumps := [], map[], NoJump;
    for i := 0 to |tokens|
      invariant buf == Partial(tokens, i, |tokens|)
      invariant LabelsOf(tokens, i, labels)
      invariant jumps == JumpsOf(tokens, i)
    {
      LabelsStep(tokens, i, labels);
      PartialStep(tokens, i);
      JumpsStep(tokens, i);
      hide Partial, LabelsOf, JumpsOf, AllEncodable, Addr, EncodeItem;
      buf, labels, jumps := Token(tokens[i], buf, labels, jumps);
    }
  }

  lemma JumpsStep(code: seq<Item>, n: nat)
    requires n < |code|
    ensures JumpsOf(code, n + 1)
      == if code[n].Ins? && code[n].i.Jump? then JumpAt(Addr(code, n) + 1, code[n].i.target, JumpsOf(code, n))
         else JumpsOf(code, n)
  {
  }

  /** asm_label, asm_jump and the literal and instruction emitters. */
  method Token(it: Item, buf: seq<Byte>, labels: map<Label, int>, jumps: JumpList)
    returns (buf': seq<Byte>, labels': map<Label, int>, jumps': JumpList)
    requires Encodable(it)
    ensures buf' == buf + EncodeItem(it, 0)
    ensures labels' == if it.Mark? then labels[it.l := |buf|] else labels
    ensures jumps' == if it.Ins? && it.i.Jump? then JumpAt(|buf| + 1, it.i.target, jumps) else jumps
  {
    hide Int64, EncodeLit;
    buf', labels', jumps' := buf, labels, jumps;
    match it
    case Mark(l) => labels' := labels[l := |buf|];
    case Ins(Jump(k, l)) =>
      buf' := buf + [JumpCode(k)];
      jumps' := JumpAt(|buf'|, l, jumps);
      buf' := buf' + Int64(0);
    case Ins(Literal(v)) => buf' := buf + EncodeLit(v);
    case Ins(Plain(op)) => buf' := buf + [OpCode(op)];
  }

  /** Both passes.  The result is the assembled program, or none when a label is missing. */
  method Assemble(tokens: seq<Item>) returns (code: array<Byte>, ok: bool)
    requires AllEncodable(tokens)
    ensures ok <==> AllDefined(tokens)
    ensures ok ==> code[..] == Assembled(tokens)
  {
    hide Partial, LabelsOf, JumpsOf, AllEncodable, AllDefined, Assembled;
    var buf, labels, jumps := FirstPass(tokens);
    code := new Byte[|buf|](i requires 0 <= i < |buf| => buf[i]);
    assert code[..] == buf;
    ok := RewriteJumps(code, jumps, labels, tokens);
  }
}
