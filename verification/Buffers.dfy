/** The elastic buffer: a chain of fixed-size blocks that stands for one flat byte sequence. */
module Buffers {
  import opened Bytes
  import opened Machine

  const BLOCK_SIZE: nat := 4096

  class Block {
    const data: array<Byte>
    var next: Block?

    constructor ()
      ensures fresh(data) && data.Length == BLOCK_SIZE && next == null
    {
      data := new Byte[BLOCK_SIZE](_ => 0);
      next := null;
    }
  }

  /** The bytes of whole blocks in order. */
  ghost function Full(bs: seq<Block>): seq<Byte>
    reads set i | 0 <= i < |bs| :: bs[i].data
  {
    if bs == [] then [] else Full(bs[..|bs| - 1]) + bs[|bs| - 1].data[..]
  }

  ghost predicate Sized(bs: seq<Block>) { forall i :: 0 <= i < |bs| ==> bs[i].data.Length == BLOCK_SIZE }

  lemma {:induction false} FullLength(bs: seq<Block>)
    requires Sized(bs)
    ensures |Full(bs)| == BLOCK_SIZE * |bs|
    decreases |bs|
  {
    if bs != [] { FullLength(bs[..|bs| - 1]); }
  }

  lemma {:induction false} FullPlus(a: seq<Block>, b: seq<Block>)
    ensures Full(a + b) == Full(a) + Full(b)
    decreases |b|
  {
    if b == [] {
      assert a + b == a;
    } else {
      FullPlus(a, b[..|b| - 1]);
      assert (a + b)[..|a + b| - 1] == a + b[..|b| - 1];
    }
  }

  lemma FullOne(b: Block)
    ensures Full([b]) == b.data[..]
  {
    assert [b][..0] == [];
    assert Full([b][..0]) == [];
  }

  /** memcpy into a block. */
  method CopyInto(a: array<Byte>, off: nat, bytes: seq<Byte>)
    requires off + |bytes| <= a.Length
    modifies a
    ensures a[..] == old(a[..off]) + bytes + old(a[off + |bytes|..])
  {
    for i := 0 to |bytes|
      invariant a[..off + i] == old(a[..off]) + bytes[..i]
      invariant a[off + i..] == old(a[off + i..])
    {
      assert old(a[off + i..])[1..] == old(a[off + i + 1..]);
      a[off + i] := bytes[i];
    }
  }

  /** After a chunk that fills its block the next one starts a block. */
  lemma ChunkEnds(used: nat, chunk: nat)
    requires used % BLOCK_SIZE + chunk <= BLOCK_SIZE
    ensures used % BLOCK_SIZE + chunk == BLOCK_SIZE ==> (used + chunk) % BLOCK_SIZE == 0
  {
  }

  class Buffer {
    var head: Block
    var tail: Block
    var used: nat
    ghost var blocks: seq<Block>

    /** The chain from head through the next pointers is `blocks`, it ends at tail, and it has one
        block more than are full. */
    ghost predicate Valid()
      reads this, blocks
    {
      && |blocks| == used / BLOCK_SIZE + 1 && Chain()
    }

    ghost predicate Chain()
      reads this, blocks
    {
      && |blocks| > 0 && head == blocks[0] && tail == blocks[|blocks| - 1]
      && Sized(blocks) && tail.next == null
      && (forall i :: 0 <= i < |blocks| - 1 ==> blocks[i].next == blocks[i + 1])
      && (forall i, j :: 0 <= i < j < |blocks| ==> blocks[i] != blocks[j] && blocks[i].data != blocks[j].data)
    }

    /** What has been written since the last reset. */
    ghost function Contents(): seq<Byte>
      reads this, blocks, (set i | 0 <= i < |blocks| :: blocks[i].data)
      requires Valid()
    {
      Full(blocks[..|blocks| - 1]) + tail.data[..used % BLOCK_SIZE]
    }

    constructor ()
      ensures Valid() && fresh(head) && fresh(head.data) && tail == head && blocks == [head] && Contents() == []
    {
      var b := new Block();
      head, tail, used := b, b, 0;
      blocks := [b];
    }

    lemma Length()
      requires Valid()
      ensures |Contents()| == used && |Full(blocks)| == BLOCK_SIZE * |blocks| && used < BLOCK_SIZE * |blocks|
      ensures Full(blocks)[..used] == Contents()
    {
      FullLength(blocks[..|blocks| - 1]);
      FullLength(blocks);
      assert Full(blocks) == Full(blocks[..|blocks| - 1]) + tail.data[..];
    }

    lemma Links()
      requires Valid()
      ensures |blocks| > 0 && head == blocks[0]
      ensures forall i :: 0 <= i < |blocks| ==> blocks[i].next == if i + 1 < |blocks| then blocks[i + 1] else null
    {
    }

    /** buffer_reset keeps the last block and drops the others. */
    method Reset()
      requires Valid()
      modifies this, tail
      ensures Valid() && Contents() == [] && used == 0 && tail == old(tail) && blocks == [tail]
    {
      used := 0;
      head := tail;
      head.next := null;
      blocks := [tail];
    }

    /** buffer_push: a new block at the end. */
    method Push()
      requires Chain()
      modifies this`tail, this`blocks, tail
      ensures Chain() && fresh(tail) && fresh(tail.data) && blocks == old(blocks) + [tail]
    {
      var b := new Block();
      tail.next := b;
      tail := b;
      blocks := blocks + [b];
    }

    /** The copy itself; the new bytes follow the old ones in the last block. */
    method FillTail(bytes: seq<Byte>)
      requires Valid() && used % BLOCK_SIZE + |bytes| <= BLOCK_SIZE
      modifies this`used, tail.data
      ensures Chain() && used == old(used) + |bytes|
      ensures Full(blocks[..|blocks| - 1]) + tail.data[..old(used) % BLOCK_SIZE + |bytes|] == old(Contents()) + bytes
    {
      ghost var init, off := blocks[..|blocks| - 1], used % BLOCK_SIZE;
      ghost var before, last := Full(init), tail.data[..off];
      CopyInto(tail.data, used % BLOCK_SIZE, bytes);
      assert tail.data[..off + |bytes|] == last + bytes;
      assert Full(init) == before;
      used := used + |bytes|;
      assert before + (last + bytes) == before + last + bytes;
    }

    /** One turn of the copy loop: the bytes fit in the last block. */
    method WriteChunk(bytes: seq<Byte>)
      requires Valid() && used % BLOCK_SIZE + |bytes| <= BLOCK_SIZE && |bytes| > 0
      modifies this, tail, tail.data
      ensures Valid() && Contents() == old(Contents()) + bytes && used == old(used) + |bytes|
      ensures old(blocks) <= blocks
        && (forall i :: |old(blocks)| <= i < |blocks| ==> fresh(blocks[i]) && fresh(blocks[i].data))
      ensures tail == old(tail) || (fresh(tail) && fresh(tail.data))
      ensures blocks == old(blocks) || used % BLOCK_SIZE == 0
    {
      FillTail(bytes);
      if used % BLOCK_SIZE == 0 {
        ghost var all := blocks;
        assert tail.data[..BLOCK_SIZE] == tail.data[..];
        assert Full(all) == Full(all[..|all| - 1]) + tail.data[..];
        Push();
        assert blocks[..|blocks| - 1] == all;
      }
    }

    /** buffer_write. */
    method Write(bytes: seq<Byte>)
      requires Valid()
      modifies this, tail, tail.data
      ensures Valid() && Contents() == old(Contents()) + bytes && used == old(used) + |bytes|
      ensures old(blocks) <= blocks
        && (forall i :: |old(blocks)| <= i < |blocks| ==> fresh(blocks[i]) && fresh(blocks[i].data))
      ensures tail == old(tail) || (fresh(tail) && fresh(tail.data))
    {
      hide Full, Buffer.Chain, Buffer.Contents, Buffer.Valid;
      var offset, length := 0, |bytes|;
      var remaining := BLOCK_SIZE - used % BLOCK_SIZE;
      if length < remaining { remaining := length; }
      while length > 0
        invariant Valid() && 0 <= offset && 0 <= length && offset + length == |bytes|
          && (tail == old(tail) || (fresh(tail) && fresh(tail.data)))
        invariant Contents() == old(Contents()) + bytes[..offset] && used == old(used) + offset
        invariant old(blocks) <= blocks
          && (forall i :: |old(blocks)| <= i < |blocks| ==> fresh(blocks[i]) && fresh(blocks[i].data))
        invariant length > 0 ==> 0 < remaining <= length && used % BLOCK_SIZE + remaining <= BLOCK_SIZE
        invariant length > 0 ==> remaining == length || used % BLOCK_SIZE + remaining == BLOCK_SIZE
        decreases length
      {
        ChunkEnds(used, remaining);
        WriteChunk(bytes[offset..offset + remaining]);
        assert bytes[..offset] + bytes[offset..offset + remaining] == bytes[..offset + remaining];
        offset := offset + remaining;
        length := length - remaining;
        remaining := if length >= BLOCK_SIZE then BLOCK_SIZE else length;
      }
    }

    /** buffer_read: whole blocks, then a part of one, until `length` bytes or the end of the chain.
        It does not look at `used`. */
    method Read(dest: array<Byte>, length: nat) returns (count: nat)
      requires Valid() && length <= dest.Length && forall i :: 0 <= i < |blocks| ==> blocks[i].data != dest
      modifies dest
      ensures Valid() && count == Min(length, BLOCK_SIZE * |blocks|)
      ensures |Full(blocks)| == BLOCK_SIZE * |blocks| && dest[..count] == Full(blocks)[..count]
      ensures dest[count..] == old(dest[count..])
      ensures length == used ==> count == used && dest[..used] == Contents()
    {
      hide Full, Buffer.Contents, Buffer.Chain, Buffer.Valid;
      Length();
      Links();
      var block: Block? := head;
      ghost var k: nat := 0;
      count := 0;
      ghost var all := Full(blocks);
      while block != null && count < length
        invariant k <= |blocks| && block == (if k < |blocks| then blocks[k] else null)
        invariant Valid() && Full(blocks) == all && |all| == BLOCK_SIZE * |blocks|
        invariant count == Min(length, BLOCK_SIZE * k) && dest[..count] == all[..count]
          && dest[count..] == old(dest[count..])
        decreases |blocks| - k
      {
        var amount := length - count;
        if amount >= BLOCK_SIZE { amount := BLOCK_SIZE; }
        ghost var here := count;
        count := ReadBlock(dest, block, k, count, amount, all);
        assert old(dest[here..])[amount..] == old(dest[count..]);
        block := block.next;
        k := k + 1;
      }
    }

    /** One block of a read. */
    method ReadBlock(dest: array<Byte>, block: Block, ghost k: nat, count: nat, amount: nat, ghost all: seq<Byte>)
      returns (next: nat)
      requires Valid() && k < |blocks| && block == blocks[k] && amount <= BLOCK_SIZE && count + amount <= dest.Length
      requires forall i :: 0 <= i < |blocks| ==> blocks[i].data != dest
      requires all == Full(blocks) && |all| == BLOCK_SIZE * |blocks| && count == BLOCK_SIZE * k
        && dest[..count] == all[..count]
      modifies dest
      ensures Valid() && Full(blocks) == all && next == count + amount <= |all| && Contents() == old(Contents())
      ensures dest[..next] == all[..next] && dest[next..] == old(dest[count..])[amount..]
      ensures block.next == if k + 1 < |blocks| then blocks[k + 1] else null
    {
      hide Full;
      BlockOf(blocks, k);
      ghost var was := dest[..];
      CopyInto(dest, count, block.data[..amount]);
      next := count + amount;
      assert all[..next] == all[..count] + all[count..next];
      assert dest[next..] == was[next..];
    }

    /** buffer_append from another buffer; no length means all of it. */
    method Append(src: Buffer, limit: Option<nat>) returns (count: nat)
      requires Valid() && src != this && src.Valid() && Apart(src)
      modifies this, tail, tail.data
      ensures Valid() && src.Valid() && src.Contents() == old(src.Contents()) && Apart(src)
      ensures count == Min(if limit.Some? then limit.value else src.used, BLOCK_SIZE * |src.blocks|)
      ensures |Full(src.blocks)| == BLOCK_SIZE * |src.blocks|
        && Contents() == old(Contents()) + Full(src.blocks)[..count]
      ensures limit.None? ==> count == src.used && Contents() == old(Contents()) + src.Contents()
      ensures tail == old(tail) || (fresh(tail) && fresh(tail.data))
    {
      hide Full, Buffer.Chain, Buffer.Contents, Buffer.Valid, Buffer.Apart;
      src.Length();
      src.Links();
      var block: Block? := src.head;
      var length := if limit.Some? then limit.value else src.used;
      ghost var k: nat := 0;
      count := 0;
      ghost var all := Full(src.blocks);
      while block != null && count < length
        invariant k <= |src.blocks| && block == (if k < |src.blocks| then src.blocks[k] else null)
        invariant Valid() && src.Valid() && Apart(src) && Full(src.blocks) == all && |all| == BLOCK_SIZE * |src.blocks|
        invariant src.Contents() == old(src.Contents()) && (tail == old(tail) || (fresh(tail) && fresh(tail.data)))
        invariant count == Min(length, BLOCK_SIZE * k) && Contents() == old(Contents()) + all[..count]
        decreases |src.blocks| - k
      {
        var amount := length - count;
        if amount >= BLOCK_SIZE { amount := BLOCK_SIZE; }
        ghost var here := count;
        count := AppendBlock(src, block, k, count, amount, all);
        assert all[..here] + all[here..count] == all[..count];
        block := block.next;
        k := k + 1;
      }
    }

    /** One block of an append. */
    method AppendBlock(ghost src: Buffer, block: Block, ghost k: nat, count: nat, amount: nat, ghost all: seq<Byte>)
      returns (next: nat)
      requires Valid() && src != this && src.Valid() && Apart(src) && k < |src.blocks| && block == src.blocks[k]
        && amount <= BLOCK_SIZE
      requires all == Full(src.blocks) && |all| == BLOCK_SIZE * |src.blocks| && count == BLOCK_SIZE * k
      modifies this, tail, tail.data
      ensures Valid() && src.Valid() && Apart(src) && src.Contents() == old(src.Contents()) && Full(src.blocks) == all
      ensures tail == old(tail) || (fresh(tail) && fresh(tail.data))
      ensures next == count + amount <= |all|
      ensures Contents() == old(Contents()) + all[count..next]
      ensures block.next == if k + 1 < |src.blocks| then src.blocks[k + 1] else null
    {
      hide Full;
      BlockOf(src.blocks, k);
      ghost var was := blocks;
      assert block.data[..amount] == all[count..count + amount];
      assert tail == was[|was| - 1];
      Write(block.data[..amount]);
      next := count + amount;
      assert forall i :: 0 <= i < |was| ==> blocks[i] == was[i];
    }

    /** buffer_append from the buffer to itself, of no more than it holds: every block is read
        before it is written to, or only in the part that was full already. */
    method AppendSelf(limit: Option<nat>) returns (count: nat)
      requires Valid() && (limit.Some? ==> limit.value <= used)
      modifies this, tail, tail.data
      ensures Valid() && count == (if limit.Some? then limit.value else old(used))
      ensures count <= |old(Contents())| && Contents() == old(Contents()) + old(Contents())[..count]
      ensures tail == old(tail) || (fresh(tail) && fresh(tail.data))
    {
      hide Full, Buffer.Chain, Buffer.Contents, Buffer.Valid;
      Length();
      Links();
      var block: Block? := head;
      var length := if limit.Some? then limit.value else used;
      ghost var k: nat := 0;
      count := 0;
      ghost var was := Contents();
      while block != null && count < length
        invariant Valid() && length <= |was| && used >= length
        invariant k <= |blocks| && block == (if k < |blocks| then blocks[k] else null)
        invariant tail == old(tail) || (fresh(tail) && fresh(tail.data))
        invariant length <= BLOCK_SIZE * |blocks| && count == Min(length, BLOCK_SIZE * k)
          && Contents() == was + was[..count]
        decreases length - count
      {
        var amount := length - count;
        if amount >= BLOCK_SIZE { amount := BLOCK_SIZE; }
        ghost var here := count;
        assert was <= Contents();
        count := AppendOwn(block, k, count, amount, was);
        assert was[..here] + was[here..count] == was[..count];
        block := block.next;
        k := k + 1;
      }
    }

    method AppendOwn(block: Block, ghost k: nat, count: nat, amount: nat, ghost was: seq<Byte>) returns (next: nat)
      requires Valid() && k < |blocks| && block == blocks[k] && 0 < amount <= BLOCK_SIZE && count == BLOCK_SIZE * k
      requires count + amount <= |was| && was <= Contents()
      modifies this, tail, tail.data
      ensures Valid() && next == count + amount && Contents() == old(Contents()) + was[count..next]
      ensures tail == old(tail) || (fresh(tail) && fresh(tail.data))
      ensures used >= old(used) && old(blocks) <= blocks
      ensures block.next == if k + 1 < |blocks| then blocks[k + 1] else null
    {
      hide Full;
      Length();
      BlockOf(blocks, k);
      next := count + amount;
      assert Full(blocks)[count..next] == Full(blocks)[..used][count..next];
      assert Contents()[count..next] == was[count..next];
      ghost var ds := blocks;
      Write(block.data[..amount]);
      assert blocks[k] == ds[k];
    }

    /** No block in common. */
    ghost predicate Apart(other: Buffer)
      reads this, other
    {
      forall i, j :: 0 <= i < |blocks| && 0 <= j < |other.blocks| ==>
        blocks[i] != other.blocks[j] && blocks[i].data != other.blocks[j].data
    }
  }

  function Min(a: nat, b: nat): nat { if a < b then a else b }

  /** Block k holds bytes 4096 k up to 4096 (k + 1). */
  lemma {:induction false} BlockOf(bs: seq<Block>, k: nat)
    requires Sized(bs) && k < |bs|
    ensures |Full(bs)| == BLOCK_SIZE * |bs|
    ensures forall n :: 0 <= n <= BLOCK_SIZE ==> bs[k].data[..n] == Full(bs)[BLOCK_SIZE * k..BLOCK_SIZE * k + n]
  {
    var a, b := bs[..k], bs[k + 1..];
    assert bs == a + ([bs[k]] + b);
    FullPlus(a, [bs[k]] + b);
    FullPlus([bs[k]], b);
    FullOne(bs[k]);
    FullLength(a);
    FullLength(bs);
    hide Full;
    Middle(Full(a), bs[k].data[..], Full(b));
  }

  lemma Middle(a: seq<Byte>, m: seq<Byte>, b: seq<Byte>)
    ensures forall n :: 0 <= n <= |m| ==> m[..n] == (a + (m + b))[|a|..|a| + n]
  {
    forall n | 0 <= n <= |m| ensures m[..n] == (a + (m + b))[|a|..|a| + n] {
      assert (a + (m + b))[|a|..|a| + n] == (m + b)[..n];
    }
  }

  // ---------- whole runs ----------

  /** `Copy` appends the first bytes of another buffer that holds the given ones; `Again` appends
      the buffer's own first bytes, as far as there are that many. */
  datatype Command = Put(bytes: seq<Byte>) | Clear | Copy(bytes: seq<Byte>) | Again(count: nat)

  function Outcome(cmds: seq<Command>): seq<Byte> {
    if cmds == [] then []
    else
      var r := Outcome(cmds[..|cmds| - 1]);
      match cmds[|cmds| - 1]
      case Put(bytes) => r + bytes
      case Clear => []
      case Copy(bytes) => r + bytes
      case Again(n) => r + r[..Min(n, |r|)]
  }

  method AppendCopy(buf: Buffer, bytes: seq<Byte>)
    requires buf.Valid()
    modifies buf, buf.tail, buf.tail.data
    ensures buf.Valid() && buf.Contents() == old(buf.Contents()) + bytes
    ensures buf.tail == old(buf.tail) || (fresh(buf.tail) && fresh(buf.tail.data))
  {
    hide Full, Buffer.Contents;
    var src := new Buffer();
    src.Write(bytes);
    assert src.Contents() == bytes;
    var count := buf.Append(src, None);
  }

  /** Any run of writes, resets and appends: reading back `used` bytes gives what was written since
      the last reset, and the chain has one block more than are full. */
  method RunAll(cmds: seq<Command>) returns (buf: Buffer, bytes: array<Byte>)
    ensures fresh(buf) && buf.Valid() && buf.Contents() == Outcome(cmds) && bytes[..] == Outcome(cmds)
    ensures buf.used == |Outcome(cmds)| && |buf.blocks| == buf.used / 4096 + 1
  {
    hide Full, Buffer.Chain, Buffer.Contents;
    buf := new Buffer();
    for i := 0 to |cmds|
      invariant fresh(buf) && fresh(buf.tail) && fresh(buf.tail.data) && buf.Valid()
        && buf.Contents() == Outcome(cmds[..i])
    {
      assert cmds[..i + 1][..i] == cmds[..i];
      match cmds[i]
      case Put(bs) => buf.Write(bs);
      case Clear => buf.Reset();
      case Copy(bs) => AppendCopy(buf, bs);
      case Again(n) =>
        buf.Length();
        var count := buf.AppendSelf(Some(Min(n, buf.used)));
    }
    assert cmds[..|cmds|] == cmds;
    buf.Length();
    bytes := new Byte[buf.used](_ => 0);
    var n := buf.Read(bytes, buf.used);
    assert bytes[..] == bytes[..buf.used];
  }
}
