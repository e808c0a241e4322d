/** The hash table object: find, resize and their mutual recursion, and copy-on-write clones.

    `inserts` counts new keys set, `recent` those since the last load resize, `moves` the turns of
    the re-insertion loop in load resizes, and `erased` the keys erased since the buckets were last
    rebuilt.  The load limits 0.9 and 0.6 are read as exact rationals. */
module HashTables {
  import opened Hashing
  import opened Buckets

  datatype Action = Read | Delete | Create

  const HASH_SIZE: nat := 4

  /** floor(entries / 0.6) + 1. */
  function TargetSize(entries: nat): nat { 5 * entries / 3 + 1 }

  ghost function After(a: Action, key: Key, m: map<Key, Ptr>): map<Key, Ptr> {
    match a
    case Read => m
    case Delete => m - {key}
    case Create => if key in m then m else m[key := 0]
  }

  class HashTable {
    var table: array<Chain>
    var size: nat
    var entries: nat
    var cow: bool
    ghost var inserts: nat
    ghost var recent: nat
    ghost var moves: nat
    ghost var erased: nat

    ghost predicate Shape()
      reads this, table
    {
      table.Length == size && size > 0 && Formed(table[..])
    }

    ghost function Map(): map<Key, Ptr>
      reads this, table
      requires Shape()
    {
      Contents(table[..])
    }

    /** The books: the entry count is too high by exactly the keys erased since the last rebuild,
        and there are enough inserts to pay for the moves so far and for the next resize. */
    ghost predicate Valid()
      reads this, table
    {
      && Shape() && entries == |Map()| + erased
      && recent <= inserts && 5 * (entries - recent) < 3 * size && moves <= 3 * (inserts - recent)
    }

    /** hash_create. */
    constructor ()
      ensures Valid() && fresh(table) && Map() == map[] && !cow && inserts == 0 && moves == 0 && erased == 0
      ensures size == 4 && entries == 0
    {
      table := new Chain[HASH_SIZE](_ => []);
      size, entries, cow := HASH_SIZE, 0, false;
      inserts, recent, moves, erased := 0, 0, 0, 0;
      new;
      EmptyContents(table[..]);
    }

    /** hash_cow: the copy shares the source's buckets until it is written. */
    constructor Cow(src: HashTable)
      requires src.Valid()
      ensures Valid() && table == src.table && cow && Map() == src.Map()
      ensures inserts == src.inserts && moves == src.moves && recent == src.recent && erased == src.erased
        && entries == src.entries && size == src.size
    {
      table, size, entries, cow := src.table, src.size, src.entries, true;
      inserts, recent, moves, erased := src.inserts, src.recent, src.moves, src.erased;
    }

    /** hash_find.  The bucket index is computed before a copy-on-write table is rebuilt; it stays
        right because the rebuilt table has the same size. */
    method HashFind(key: Key, action: Action) returns (hit: bool, index: nat, p: nat)
      requires Shape()
      modifies this`table, this`size, this`entries, this`cow, table
      ensures Shape() && size == old(size) && Map() == After(action, key, old(Map()))
      ensures old(cow) && action != Read ==> fresh(table) && !cow && old(table)[..] == old(table[..])
      ensures !(old(cow) && action != Read) ==> table == old(table) && cow == old(cow)
      ensures action == Read ==> table[..] == old(table[..])
      ensures hit <==> action == Create || key in old(Map())
      ensures hit && action != Delete ==> index == Slot(key, size) && p < |table[index]| && p == Pos(table[index], key)
      ensures entries == (if old(cow) && action != Read then |old(Map())| else old(entries))
        + (if action == Create && key !in old(Map()) then 1 else 0)
      decreases if cow then 1 else 0, |Map()|, 1
    {
      hide Slot, Formed, Pos, Contents;
      index := Slot(key, size);
      if cow && action != Read {
        ghost var moved := HashResize(size);
        cow := false;
      }
      hit, p := FindHere(key, action, index);
    }

    /** The rest of hash_find, on a table that may be written if it has to be. */
    method FindHere(key: Key, action: Action, index: nat) returns (hit: bool, p: nat)
      requires Shape() && index == Slot(key, size) && (action == Read || !cow)
      modifies this`entries, table
      ensures Shape() && Map() == After(action, key, old(Map()))
      ensures action == Read ==> table[..] == old(table[..])
      ensures hit <==> action == Create || key in old(Map())
      ensures hit && action != Delete ==> p < |table[index]| && p == Pos(table[index], key)
      ensures entries == old(entries) + (if action == Create && key !in old(Map()) then 1 else 0)
    {
      hide Slot, Formed, Pos, Contents;
      ghost var m := Map();
      p := Search(index, key);
      if p < |table[index]| {
        hit := true;
        if action == Delete { Unlink(index, p, key); }
      } else if action == Create {
        entries := entries + 1;
        Attach(index, key);
        hit, p := true, 0;
      } else {
        hit := false;
        assert m - {key} == m;
      }
    }

    /** The walk along a chain. */
    method Search(index: nat, key: Key) returns (p: nat)
      requires Shape() && index == Slot(key, size)
      ensures p == Pos(table[index], key) && (p < |table[index]| <==> key in Map())
    {
      var chain := table[index];
      p := 0;
      while p < |chain| && chain[p].key != key
        invariant p <= Pos(chain, key)
      {
        p := p + 1;
      }
      ContentsHas(table[..], key);
    }

    method Unlink(index: nat, p: nat, key: Key)
      requires Shape() && index == Slot(key, size) && p == Pos(table[index], key) && p < |table[index]|
      modifies table
      ensures Shape() && Map() == old(Map()) - {key}
    {
      hide Slot, Formed, Pos, Contents;
      ghost var b := table[..];
      assert Has(b, key);
      DeleteContents(b, key);
      table[index] := table[index][..p] + table[index][p + 1..];
      assert table[..] == b[index := b[index][..p] + b[index][p + 1..]];
    }

    method Attach(index: nat, key: Key)
      requires Shape() && index == Slot(key, size) && key !in Map()
      modifies table
      ensures Shape() && Map() == old(Map())[key := 0]
      ensures 0 < |table[index]| && Pos(table[index], key) == 0
    {
      hide Slot, Formed, Pos, Contents;
      ghost var b := table[..];
      ContentsHas(b, key);
      InsertContents(b, key);
      PosHead(key, b[index]);
      table[index] := [Entry(key, 0)] + table[index];
      assert table[..] == b[index := [Entry(key, 0)] + b[index]];
    }

    /** kv->value = value, for the entry hash_find returned. */
    method SetValue(index: nat, p: nat, key: Key, v: Ptr)
      requires Shape() && index == Slot(key, size) && p == Pos(table[index], key) && p < |table[index]|
      modifies table
      ensures Shape() && key in old(Map()) && Map() == old(Map())[key := v]
    {
      ghost var b := table[..];
      hide Slot, Formed, Pos, Contents;
      assert Has(b, key);
      WriteContents(b, key, v);
      table[index] := table[index][p := Entry(key, v)];
      assert table[..] == b[index := b[index][p := Entry(key, v)]];
    }

    /** hash_resize: a new array, every old entry inserted again; the old array is not touched.
        `moved` counts the turns of the inner loop. */
    method HashResize(newSize: nat) returns (ghost moved: nat)
      requires Shape() && newSize > 0
      modifies this`table, this`size, this`entries, this`cow
      ensures Shape() && fresh(table) && size == newSize && Map() == old(Map()) && entries == |Map()|
      ensures moved == |old(Map())|
      ensures cow <==> old(cow) && old(Map()) == map[]
      ensures old(table)[..] == old(table[..])
      decreases if cow then 1 else 0, |Map()|, 0
    {
      hide Formed, Contents, Part, Slot, Pos;
      var oldTable, oldSize := table, size;
      ghost var b, c := table[..], cow;
      table := new Chain[newSize](_ => []);
      size, entries := newSize, 0;
      moved := 0;
      EmptyContents(table[..]);
      PartStart(b);
      for i := 0 to oldSize
        invariant Shape() && fresh(table) && size == newSize && Map() == Part(b, i, 0) && entries == |Map()|
          && moved == |Part(b, i, 0)|
        invariant (cow <==> c && Map() == map[]) && oldTable[..] == b
      {
        var chain := oldTable[i];
        for j := 0 to |chain|
          invariant Shape() && fresh(table) && size == newSize && Map() == Part(b, i, j) && entries == |Map()|
            && moved == |Part(b, i, j)|
          invariant (cow <==> c && Map() == map[]) && oldTable[..] == b
        {
          PartSize(b, i, j);
          PartStep(b, i, j);
          ghost var m := Map();
          var hit, x, p := HashFind(chain[j].key, Create);
          moved := moved + 1;
          SetValue(x, p, chain[j].key, chain[j].value);
          GrowMap(m, chain[j].key, chain[j].value);
        }
        PartNext(b, i);
      }
    }

    /** How many entries are counted once key is bound, before the load is looked at. */
    ghost function CountWith(key: Key): nat
      reads this, table
      requires Shape()
    {
      (if cow then |Map()| else entries) + (if key in Map() then 0 else 1)
    }

    /** hash_set: the buckets are rebuilt if and only if the load is above nine tenths, in a size
        that brings it to three fifths. */
    method HashSet(key: Key, v: Ptr)
      requires Valid()
      modifies this, table
      ensures Valid() && Map() == old(Map())[key := v] && 10 * entries <= 9 * size && !cow
      ensures var e := old(CountWith(key));
        if 10 * e > 9 * old(size) then entries == |Map()| && 3 * (size - 1) <= 5 * e < 3 * size
        else entries == e && size == old(size)
      ensures fresh(table) <==> (10 * old(CountWith(key)) > 9 * old(size) || old(cow))
      ensures inserts == old(inserts) + (if key in old(Map()) then 0 else 1) && moves <= 3 * inserts
      ensures table == old(table) || fresh(table)
      ensures erased == if fresh(table) then 0 else old(erased)
      ensures old(cow) ==> fresh(table) && old(table)[..] == old(table[..])
      ensures !old(cow) ==> Formed(old(table)[..]) && Contents(old(table)[..]) == Map()
    {
      hide Formed, Contents, TargetSize;
      Bind(key, v);
      ghost var e, n, d := entries, size, recent;
      if 10 * entries > 9 * size {
        PaidFor(e, n, d, |Map()|);
        var newSize := TargetSize(entries);
        ghost var moved := HashResize(newSize);
        moves, recent, erased := moves + moved, 0, 0;
      }
    }

    /** The part of hash_set before the load is looked at. */
    method Bind(key: Key, v: Ptr)
      requires Valid()
      modifies this, table
      ensures Valid() && Map() == old(Map())[key := v] && !cow
      ensures entries == old(CountWith(key)) && size == old(size)
      ensures inserts == old(inserts) + (if key in old(Map()) then 0 else 1)
      ensures erased == if old(cow) then 0 else old(erased)
      ensures old(cow) ==> fresh(table) && old(table)[..] == old(table[..])
      ensures !old(cow) ==> table == old(table)
    {
      hide Formed, Contents, Slot, Pos;
      ghost var m := Map();
      ghost var was := cow;
      var hit, i, p := HashFind(key, Create);
      SetValue(i, p, key, v);
      GrowMap(m, key, v);
      if was { erased := 0; }
      if key !in m {
        inserts, recent := inserts + 1, recent + 1;
      }
    }

    /** hash_get. */
    method HashGet(key: Key) returns (found: bool, v: Ptr)
      requires Valid()
      modifies this`table, this`size, this`entries, this`cow, table
      ensures unchanged(this`size) && unchanged(this`entries) && unchanged(this`cow) && table == old(table)
        && table[..] == old(table[..])
      ensures Valid() && Map() == old(Map())
      ensures found == (key in Map()) && (found ==> v == Map()[key])
    {
      hide Formed, Slot;
      var i, p;
      found, i, p := HashFind(key, Read);
      v := 0;
      if found {
        v := table[i][p].value;
        FoundValue(table[..], key);
      }
    }

    /** hash_erase; the entry count is not lowered, so it is exact only while nothing has been
        erased since the last rebuild. */
    method HashErase(key: Key)
      requires Valid()
      modifies this, table
      ensures Valid() && Map() == old(Map()) - {key} && inserts == old(inserts) && moves == old(moves)
      ensures erased == (if old(cow) then 0 else old(erased)) + (if key in old(Map()) then 1 else 0)
      ensures entries == |Map()| <==> erased == 0
      ensures old(cow) ==> fresh(table) && old(table)[..] == old(table[..])
      ensures !old(cow) ==> table == old(table) && entries == old(entries)
      ensures size == old(size) && (10 * old(entries) <= 9 * old(size) ==> 10 * entries <= 9 * size)
    {
      hide Formed, Contents, Slot, Pos;
      ShrinkMap(Map(), key);
      erased := (if cow then 0 else erased) + (if key in Map() then 1 else 0);
      var hit, i, p := HashFind(key, Delete);
    }

    /** One command of a run. */
    method RunOne(cmd: Command) returns (answers: seq<Answer>)
      requires Valid() && 10 * entries <= 9 * size && moves <= 3 * inserts
      modifies this, table
      ensures Valid() && 10 * entries <= 9 * size && moves <= 3 * inserts && (table == old(table) || fresh(table))
      ensures inserts <= old(inserts) + 1 && Map() == Changed(cmd, old(Map())) && answers == Replies(cmd, old(Map()))
    {
      hide Formed, Contents;
      answers := [];
      match cmd
      case SetKey(k, v) => HashSet(k, v);
      case EraseKey(k) => HashErase(k);
      case GetKey(k) =>
        var found, v := HashGet(k);
        answers := [if found then Found(v) else Missing];
    }
  }

  lemma PosHead(key: Key, c: Chain)
    ensures Pos([Entry(key, 0)] + c, key) == 0
  {
  }

  lemma FoundValue(b: seq<Chain>, key: Key)
    requires |b| > 0 && key in Contents(b)
    ensures var c := b[Slot(key, |b|)]; Pos(c, key) < |c| && Contents(b)[key] == c[Pos(c, key)].value
  {
    ContentsHas(b, key);
    ContentsAt(b, key);
  }

  lemma GrowMap(m: map<Key, Ptr>, k: Key, v: Ptr)
    ensures k !in m ==> |m[k := v]| == |m| + 1
    ensures k in m ==> |m[k := v]| == |m|
    ensures k !in m ==> m[k := 0][k := v] == m[k := v]
  {
    var n := m[k := v];
    assert n.Keys == m.Keys + {k};
    assert |n.Keys| == |n| && |m.Keys| == |m|;
  }

  lemma ShrinkMap(m: map<Key, Ptr>, k: Key)
    ensures |m - {k}| == |m| - (if k in m then 1 else 0)
  {
    assert (m - {k}).Keys == m.Keys - {k};
    assert |(m - {k}).Keys| == |m - {k}| && |m.Keys| == |m|;
  }

  /** A load resize is paid for: the d inserts since the last one are more than a third of the
      entries, and the new size leaves room for as many again. */
  lemma PaidFor(e: nat, n: nat, d: nat, kept: nat)
    requires 10 * e > 9 * n && 5 * (e - d) < 3 * n && kept <= e
    ensures TargetSize(e) > 0 && kept <= 3 * d && 5 * kept < 3 * TargetSize(e) && 10 * kept <= 9 * TargetSize(e)
    ensures 3 * (TargetSize(e) - 1) <= 5 * e < 3 * TargetSize(e)
  {
  }

  // ---------- copies ----------

  /** The first write to a copy: the copy gets the source's contents and that write, the source
      keeps its own. */
  method WriteCopy(src: HashTable, key: Key, v: Ptr) returns (copy: HashTable)
    requires src.Valid()
    modifies src.table
    ensures src.Valid() && src.Map() == old(src.Map()) && src.table[..] == old(src.table[..])
    ensures fresh(copy) && fresh(copy.table) && copy.Valid() && copy.Map() == old(src.Map())[key := v]
  {
    hide Formed, Contents;
    copy := new HashTable.Cow(src);
    copy.HashSet(key, v);
    assert src.table[..] == old(src.table[..]);
  }

  /** Only the copy is flagged.  A table that shares its buckets with a source keeps its contents
      through a write to the source if and only if the source is itself an unwritten copy, the
      buckets are in fact not shared, or the write binds the key to the value it has. */
  method WriteSource(src: HashTable, copy: HashTable, key: Key, v: Ptr)
    requires src != copy && src.Valid() && copy.Shape()
    modifies src, src.table
    ensures src.Valid() && src.Map() == old(src.Map())[key := v] && copy.Shape()
    ensures copy.Map() == old(copy.Map()) <==>
      old(src.cow) || old(copy.table) != old(src.table) || (key in old(src.Map()) && old(src.Map())[key] == v)
    ensures !old(src.cow) && old(copy.table) == old(src.table) ==> copy.Map() == src.Map()
  {
    hide Formed, Contents;
    SameUpdate(src.Map(), key, v);
    src.HashSet(key, v);
  }

  /** The same for erasing: it shows exactly when the key is there in shared buckets. */
  method EraseSource(src: HashTable, copy: HashTable, key: Key)
    requires src != copy && src.Valid() && copy.Shape()
    modifies src, src.table
    ensures src.Valid() && src.Map() == old(src.Map()) - {key} && copy.Shape()
    ensures copy.Map() == old(copy.Map()) <==>
      old(src.cow) || old(copy.table) != old(src.table) || key !in old(src.Map())
  {
    hide Formed, Contents;
    ghost var m := src.Map();
    assert (m - {key} == m) <==> key !in m;
    src.HashErase(key);
  }

  lemma SameUpdate(m: map<Key, Ptr>, k: Key, v: Ptr)
    ensures m[k := v] == m <==> k in m && m[k] == v
  {
    if m[k := v] == m { assert k in m[k := v]; }
  }

  /** A copy of an empty table finds no key; after one write to its source it finds that one. */
  method CopyChanged(key: Key, v: Ptr) returns (copy: HashTable, before: bool, after: bool)
    ensures fresh(copy) && copy.Shape() && copy.Map() == map[key := v] && !before && after
  {
    hide Formed, Contents, Slot, Pos;
    var src := new HashTable();
    copy := new HashTable.Cow(src);
    var i, p;
    before, i, p := copy.HashFind(key, Read);
    WriteSource(src, copy, key, v);
    after, i, p := copy.HashFind(key, Read);
  }

  /** One key set and erased: nothing is left, and one entry is counted. */
  method CountLeft(key: Key, v: Ptr) returns (t: HashTable)
    ensures fresh(t) && t.Valid() && t.Map() == map[] && t.entries == 1
  {
    hide Formed, Contents, Slot, Pos;
    t := new HashTable();
    t.HashSet(key, v);
    t.HashErase(key);
  }

  // ---------- whole runs ----------

  datatype Command = SetKey(key: Key, v: Ptr) | EraseKey(key: Key) | GetKey(key: Key)

  datatype Answer = Missing | Found(v: Ptr)

  /** What a run does to a finite map. */
  function Outcome(cmds: seq<Command>, m: map<Key, Ptr>): map<Key, Ptr> {
    if cmds == [] then m
    else
      Changed(cmds[|cmds| - 1], Outcome(cmds[..|cmds| - 1], m))
  }

  function Changed(cmd: Command, m: map<Key, Ptr>): map<Key, Ptr> {
    match cmd
    case SetKey(k, v) => m[k := v]
    case EraseKey(k) => m - {k}
    case GetKey(_) => m
  }

  /** What the gets of a run answer, in order. */
  function Answers(cmds: seq<Command>, m: map<Key, Ptr>): seq<Answer> {
    if cmds == [] then []
    else
      var init := cmds[..|cmds| - 1];
      Answers(init, m) + Replies(cmds[|cmds| - 1], Outcome(init, m))
  }

  function Replies(cmd: Command, m: map<Key, Ptr>): seq<Answer> {
    match cmd
    case GetKey(k) => [if k in m then Found(m[k]) else Missing]
    case _ => []
  }

  /** Any run from a new table: the answers and the contents of a finite map, a load of at most
      0.9, and at most three re-insertions by load resizes for every command. */
  method RunAll(cmds: seq<Command>) returns (t: HashTable, answers: seq<Answer>)
    ensures fresh(t) && fresh(t.table) && t.Valid() && t.Map() == Outcome(cmds, map[])
      && answers == Answers(cmds, map[])
    ensures 10 * t.entries <= 9 * t.size && t.moves <= 3 * t.inserts <= 3 * |cmds|
  {
    hide Formed, Contents;
    t := new HashTable();
    answers := [];
    for i := 0 to |cmds|
      invariant fresh(t) && fresh(t.table) && t.Valid() && t.Map() == Outcome(cmds[..i], map[])
        && answers == Answers(cmds[..i], map[])
      invariant 10 * t.entries <= 9 * t.size && t.inserts <= i
    {
      OneMore(cmds, i);
      hide Outcome, Answers;
      var more := t.RunOne(cmds[i]);
      answers := answers + more;
    }
    assert cmds[..|cmds|] == cmds;
  }

  lemma OneMore(cmds: seq<Command>, i: nat)
    requires i < |cmds|
    ensures Outcome(cmds[..i + 1], map[]) == Changed(cmds[i], Outcome(cmds[..i], map[]))
    ensures Answers(cmds[..i + 1], map[]) == Answers(cmds[..i], map[]) + Replies(cmds[i], Outcome(cmds[..i], map[]))
  {
    assert cmds[..i + 1][..i] == cmds[..i];
  }
}
