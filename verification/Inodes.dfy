/** Disk blocks of inodes (kernel/fs.c): the bitmap, the block map, truncation, reading and writing.

`used` is the free map by block number, `blk` the contents of the disk as the buffer cache shows
them, `ino` the inodes. */
module Inodes {
  import opened Options
  import opened Sets
  import Blocks
  import LogAdmission

  const MAXOPBLOCKS := Blocks.MAXOPBLOCKS

  const BSIZE := 1024
  const NDIRECT := 12
  const NINDIRECT := 256
  const MAXFILE := NDIRECT + NINDIRECT
  const UINT := 0x1_0000_0000
  const INT := 0x8000_0000

  type byte = x: int | 0 <= x < 256

  type Block = b: seq<byte> | |b| == BSIZE witness seq(BSIZE, _ => 0)

  datatype Inode = Inode(addrs: seq<nat>, size: nat)

  // ---------------------------------------------------------------------------
  // Words in a block

  function Word(b: Block, j: nat): nat
    requires j < NINDIRECT
  {
    b[4 * j] as int + 0x100 * (b[4 * j + 1] as int) + 0x1_0000 * (b[4 * j + 2] as int) + 0x100_0000 * (b[4 * j + 3] as int)
  }

  function SetWord(b: Block, j: nat, x: nat): Block
    requires j < NINDIRECT
  {
    b[4 * j := x % 0x100][4 * j + 1 := x / 0x100 % 0x100][4 * j + 2 := x / 0x1_0000 % 0x100][4 * j + 3 := x / 0x100_0000 % 0x100]
  }

  function StoreWord(blk: seq<Block>, b: nat, j: nat, x: nat): seq<Block>
    requires b < |blk| && j < NINDIRECT
  {
    blk[b := SetWord(blk[b], j, x)]
  }

  function Zeros(): Block { seq(BSIZE, _ => 0) }

  lemma {:induction false} FourBytes(x: nat)
    requires x < UINT
    ensures x % 0x100 + 0x100 * (x / 0x100 % 0x100) + 0x1_0000 * (x / 0x1_0000 % 0x100) + 0x100_0000 * (x / 0x100_0000 % 0x100) == x
  {
  }

  lemma {:induction false} WordSetWord(b: Block, j: nat, x: nat, k: nat)
    requires j < NINDIRECT && k < NINDIRECT && x < UINT
    ensures Word(SetWord(b, j, x), k) == if k == j then x else Word(b, k)
    ensures Word(Zeros(), k) == 0
  {
    FourBytes(x);
    var c := SetWord(b, j, x);
    if k == j {
      assert c[4 * k] == x % 0x100 && c[4 * k + 1] == x / 0x100 % 0x100;
      assert c[4 * k + 2] == x / 0x1_0000 % 0x100 && c[4 * k + 3] == x / 0x100_0000 % 0x100;
    } else {
      assert c[4 * k] == b[4 * k] && c[4 * k + 1] == b[4 * k + 1] && c[4 * k + 2] == b[4 * k + 2] && c[4 * k + 3] == b[4 * k + 3];
    }
  }

  // ---------------------------------------------------------------------------
  // Slots: where an inode keeps block numbers

  /** The block numbers an inode holds: direct, the indirect block, then the entries of the latter. */
  const SLOTS := NDIRECT + 1 + NINDIRECT

  datatype Ref = Ref(f: nat, k: nat)

  datatype State = State(used: seq<bool>, blk: seq<Block>, ino: seq<Inode>, own: map<nat, Ref>)

  function Slot(s: State, f: nat, k: nat): nat
    requires f < |s.ino| && |s.ino[f].addrs| == NDIRECT + 1 && k < SLOTS
  {
    if k <= NDIRECT then s.ino[f].addrs[k]
    else if 0 < s.ino[f].addrs[NDIRECT] < |s.blk| then Word(s.blk[s.ino[f].addrs[NDIRECT]], k - NDIRECT - 1)
    else 0
  }

  /** The slot of the `bn`-th block of a file. */
  function SlotOf(bn: nat): (k: nat)
    requires bn < MAXFILE
    ensures k < SLOTS && k != NDIRECT
  {
    if bn < NDIRECT then bn else bn + 1
  }

  ghost predicate Shape(s: State, first: nat) {
    && |s.used| == |s.blk| < UINT && 0 < first <= |s.used|
    && (forall f :: 0 <= f < |s.ino| ==> |s.ino[f].addrs| == NDIRECT + 1)
  }

  ghost predicate SlotOwned(s: State, f: nat, k: nat)
    requires f < |s.ino| && |s.ino[f].addrs| == NDIRECT + 1 && k < SLOTS
  {
    var b := Slot(s, f, k);
    b != 0 ==> b in s.own && s.own[b] == Ref(f, k)
  }

  ghost predicate OwnerHolds(s: State, first: nat, b: nat)
    requires Shape(s, first) && b in s.own
  {
    var r := s.own[b];
    r.f < |s.ino| && r.k < SLOTS && first <= b < |s.used| && Slot(s, r.f, r.k) == b
  }

  /** Exclusive ownership: each block number stored in an inode or an indirect block is stored
      nowhere else, and the free map marks exactly these blocks and those below `first` as used. */
  ghost predicate Owned(s: State, first: nat) {
    && Shape(s, first)
    && (forall f, k {:trigger SlotOwned(s, f, k)} :: 0 <= f < |s.ino| && 0 <= k < SLOTS ==> SlotOwned(s, f, k))
    && (forall b {:trigger OwnerHolds(s, first, b)} :: b in s.own ==> OwnerHolds(s, first, b))
    && (forall b :: 0 <= b < |s.used| ==> (s.used[b] <==> b < first || b in s.own))
  }

  /** Byte `i` of file `f`, 0 where no block is mapped. */
  function Raw(s: State, f: nat, i: nat): byte
    requires f < |s.ino| && |s.ino[f].addrs| == NDIRECT + 1 && i < MAXFILE * BSIZE
  {
    var b := Slot(s, f, SlotOf(i / BSIZE));
    if 0 < b < |s.blk| then s.blk[b][i % BSIZE] else 0
  }

  // ---------------------------------------------------------------------------
  // Binding a free block to a slot

  ghost function BindDirect(s: State, f: nat, k: nat, b: nat): State
    requires f < |s.ino| && |s.ino[f].addrs| == NDIRECT + 1 && k <= NDIRECT && b < |s.used| == |s.blk|
  {
    s.(used := s.used[b := true], blk := s.blk[b := Zeros()],
    ino := s.ino[f := s.ino[f].(addrs := s.ino[f].addrs[k := b])], own := s.own[b := Ref(f, k)])
  }

  ghost function BindIndirect(s: State, f: nat, j: nat, b: nat): State
    requires f < |s.ino| && |s.ino[f].addrs| == NDIRECT + 1 && j < NINDIRECT && b < |s.used| == |s.blk|
    requires s.ino[f].addrs[NDIRECT] < |s.blk|
  {
    s.(used := s.used[b := true], blk := StoreWord(s.blk[b := Zeros()], s.ino[f].addrs[NDIRECT], j, b),
    own := s.own[b := Ref(f, NDIRECT + 1 + j)])
  }

  lemma {:induction false} BindDirectSlots(s: State, first: nat, f: nat, k: nat, b: nat, g: nat, l: nat)
    requires Owned(s, first) && f < |s.ino| && k <= NDIRECT && b < |s.used| && !s.used[b] && Slot(s, f, k) == 0
    requires g < |s.ino| && l < SLOTS
    ensures Slot(BindDirect(s, f, k, b), g, l) == if g == f && l == k then b else Slot(s, g, l)
  {
    var ind := Slot(s, g, NDIRECT);
    assert SlotOwned(s, g, NDIRECT);
    if l > NDIRECT {
      WordSetWord(Zeros(), 0, 0, l - NDIRECT - 1);
    }
  }

  lemma {:induction false} BindIndirectSlots(s: State, first: nat, f: nat, j: nat, b: nat, g: nat, l: nat)
    requires Owned(s, first) && f < |s.ino| && j < NINDIRECT && b < |s.used| && !s.used[b]
    requires Slot(s, f, NDIRECT) != 0 && Slot(s, f, NDIRECT + 1 + j) == 0
    requires g < |s.ino| && l < SLOTS
    ensures s.ino[f].addrs[NDIRECT] < |s.blk|
    ensures Slot(BindIndirect(s, f, j, b), g, l) == if g == f && l == NDIRECT + 1 + j then b else Slot(s, g, l)
  {
    assert SlotOwned(s, f, NDIRECT) && SlotOwned(s, g, NDIRECT);
    var ind := Slot(s, f, NDIRECT);
    assert OwnerHolds(s, first, ind);
    if l > NDIRECT {
      WordSetWord(s.blk[ind], j, b, l - NDIRECT - 1);
    }
  }

  /** `s'` is `s` with the free block `b`, zeroed, put into the empty slot `k` of inode `f`. */
  ghost predicate Binds(s: State, first: nat, f: nat, k: nat, b: nat, s': State) {
    && Owned(s, first) && Shape(s', first) && |s'.used| == |s.used| && |s'.ino| == |s.ino|
    && f < |s.ino| && k < SLOTS && b < |s.used| && !s.used[b] && Slot(s, f, k) == 0
    && s'.used == s.used[b := true] && s'.own == s.own[b := Ref(f, k)] && s'.blk[b] == Zeros()
    && (forall g :: 0 <= g < |s.ino| ==> s'.ino[g].size == s.ino[g].size)
    && (forall g, l :: 0 <= g < |s.ino| && 0 <= l < SLOTS ==> Slot(s', g, l) == if g == f && l == k then b else Slot(s, g, l))
    && (forall x :: 0 <= x < |s.blk| && x != b && (x == 0 || x != Slot(s, f, NDIRECT)) ==> s'.blk[x] == s.blk[x])
  }

  lemma {:induction false} BindDirectBinds(s: State, first: nat, f: nat, k: nat, b: nat)
    requires Owned(s, first) && f < |s.ino| && k <= NDIRECT && b < |s.used| && !s.used[b] && Slot(s, f, k) == 0
    ensures Binds(s, first, f, k, b, BindDirect(s, f, k, b))
  {
    var s' := BindDirect(s, f, k, b);
    forall g, l | 0 <= g < |s.ino| && 0 <= l < SLOTS ensures Slot(s', g, l) == if g == f && l == k then b else Slot(s, g, l) {
      BindDirectSlots(s, first, f, k, b, g, l);
    }
  }

  lemma {:induction false} BindIndirectBinds(s: State, first: nat, f: nat, j: nat, b: nat)
    requires Owned(s, first) && f < |s.ino| && j < NINDIRECT && b < |s.used| && !s.used[b]
    requires Slot(s, f, NDIRECT) != 0 && Slot(s, f, NDIRECT + 1 + j) == 0
    ensures s.ino[f].addrs[NDIRECT] < |s.blk|
    ensures Binds(s, first, f, NDIRECT + 1 + j, b, BindIndirect(s, f, j, b))
  {
    BindIndirectSlots(s, first, f, j, b, f, NDIRECT);
    var s' := BindIndirect(s, f, j, b);
    forall g, l | 0 <= g < |s.ino| && 0 <= l < SLOTS
      ensures Slot(s', g, l) == if g == f && l == NDIRECT + 1 + j then b else Slot(s, g, l)
    {
      BindIndirectSlots(s, first, f, j, b, g, l);
    }
    assert SlotOwned(s, f, NDIRECT);
  }

  lemma {:induction false} BindsOwned(s: State, first: nat, f: nat, k: nat, b: nat, s': State)
    requires Binds(s, first, f, k, b, s')
    ensures Owned(s', first)
  {
    forall g, l | 0 <= g < |s'.ino| && 0 <= l < SLOTS ensures SlotOwned(s', g, l) {
      assert SlotOwned(s, g, l);
    }
    forall x | x in s'.own ensures OwnerHolds(s', first, x) {
      if x != b { assert OwnerHolds(s, first, x); }
    }
  }

  /** The new block is zeroed, so no file changes. */
  lemma {:induction false} BindsRaw(s: State, first: nat, f: nat, k: nat, b: nat, s': State, g: nat, i: nat)
    requires Binds(s, first, f, k, b, s') && g < |s.ino| && i < MAXFILE * BSIZE
    ensures Raw(s', g, i) == Raw(s, g, i)
  {
    var l := SlotOf(i / BSIZE);
    assert Slot(s', g, l) == if g == f && l == k then b else Slot(s, g, l);
    assert SlotOwned(s, g, l) && SlotOwned(s, f, NDIRECT);
  }

  // ---------------------------------------------------------------------------
  // Storing bytes in a mapped block

  function Splice(b: Block, o: nat, bytes: seq<byte>): Block
    requires o + |bytes| <= BSIZE
  {
    b[..o] + bytes + b[o + |bytes|..]
  }

  ghost function Stored(s: State, a: nat, o: nat, bytes: seq<byte>): State
    requires a < |s.blk| && o + |bytes| <= BSIZE
  {
    s.(blk := s.blk[a := Splice(s.blk[a], o, bytes)])
  }

  /** `a` is the mapped block number `bn` of file `f`. */
  ghost predicate Maps(s: State, first: nat, f: nat, bn: nat, a: nat) {
    Owned(s, first) && f < |s.ino| && bn < MAXFILE && a != 0 && Slot(s, f, SlotOf(bn)) == a
  }

  lemma {:induction false} MappedInRange(s: State, first: nat, f: nat, bn: nat, a: nat)
    requires Maps(s, first, f, bn, a)
    ensures first <= a < |s.blk| && a in s.own && s.own[a] == Ref(f, SlotOf(bn))
  {
    assert SlotOwned(s, f, SlotOf(bn));
    assert OwnerHolds(s, first, a);
  }

  lemma {:induction false} StoredSlots(s: State, first: nat, f: nat, bn: nat, a: nat, o: nat, bytes: seq<byte>, g: nat, l: nat)
    requires Maps(s, first, f, bn, a) && o + |bytes| <= BSIZE && a < |s.blk| && g < |s.ino| && l < SLOTS
    ensures Slot(Stored(s, a, o, bytes), g, l) == Slot(s, g, l)
  {
    MappedInRange(s, first, f, bn, a);
    assert SlotOwned(s, g, NDIRECT);
  }

  /** Writing a data block cannot corrupt a block map. */
  lemma {:induction false} StoredOwned(s: State, first: nat, f: nat, bn: nat, a: nat, o: nat, bytes: seq<byte>)
    requires Maps(s, first, f, bn, a) && o + |bytes| <= BSIZE && a < |s.blk|
    ensures Owned(Stored(s, a, o, bytes), first)
  {
    var s' := Stored(s, a, o, bytes);
    forall g, l | 0 <= g < |s'.ino| && 0 <= l < SLOTS ensures SlotOwned(s', g, l) {
      StoredSlots(s, first, f, bn, a, o, bytes, g, l);
      assert SlotOwned(s, g, l);
    }
    forall x | x in s'.own ensures OwnerHolds(s', first, x) {
      assert OwnerHolds(s, first, x);
      StoredSlots(s, first, f, bn, a, o, bytes, s.own[x].f, s.own[x].k);
    }
  }

  /** Nor can it reach another file or another place of the same file. */
  lemma {:induction false} StoredRaw(s: State, first: nat, f: nat, bn: nat, a: nat, o: nat, bytes: seq<byte>, g: nat, i: nat)
    requires Maps(s, first, f, bn, a) && o + |bytes| <= BSIZE && a < |s.blk| && g < |s.ino| && i < MAXFILE * BSIZE
    ensures var pos := bn * BSIZE + o;
            Raw(Stored(s, a, o, bytes), g, i) == if g == f && pos <= i < pos + |bytes| then bytes[i - pos] else Raw(s, g, i)
  {
    MappedInRange(s, first, f, bn, a);
    var l := SlotOf(i / BSIZE);
    StoredSlots(s, first, f, bn, a, o, bytes, g, l);
    assert SlotOwned(s, g, l);
    assert i == i / BSIZE * BSIZE + i % BSIZE;
  }

  // ---------------------------------------------------------------------------
  // Truncation

  ghost predicate OwnedBy(s: State, f: nat, b: nat) {
    b in s.own && s.own[b].f == f
  }

  function EmptyInode(): Inode { Inode(seq(NDIRECT + 1, _ => 0), 0) }

  /** `s'` is `s` after inode `f` gave back exactly its own blocks. */
  ghost predicate Truncates(s: State, f: nat, s': State) {
    && f < |s.ino| && |s'.used| == |s.used| && s'.blk == s.blk && s'.ino == s.ino[f := EmptyInode()]
    && (forall b :: 0 <= b < |s.used| ==> s'.used[b] == (s.used[b] && !OwnedBy(s, f, b)))
    && s'.own == (map b | b in s.own && s.own[b].f != f :: s.own[b])
  }

  lemma {:induction false} TruncatesSlots(s: State, first: nat, f: nat, s': State, g: nat, l: nat)
    requires Owned(s, first) && Truncates(s, f, s') && g < |s.ino| && l < SLOTS
    ensures |s'.ino[g].addrs| == NDIRECT + 1 && Slot(s', g, l) == if g == f then 0 else Slot(s, g, l)
  {
  }

  lemma {:induction false} TruncatesOwned(s: State, first: nat, f: nat, s': State)
    requires Owned(s, first) && Truncates(s, f, s')
    ensures Owned(s', first)
  {
    forall g | 0 <= g < |s'.ino| ensures |s'.ino[g].addrs| == NDIRECT + 1 { TruncatesSlots(s, first, f, s', g, 0); }
    forall g, l | 0 <= g < |s'.ino| && 0 <= l < SLOTS ensures SlotOwned(s', g, l) {
      TruncatesSlots(s, first, f, s', g, l);
      assert SlotOwned(s, g, l);
    }
    forall x | x in s'.own ensures OwnerHolds(s', first, x) {
      assert OwnerHolds(s, first, x);
      TruncatesSlots(s, first, f, s', s.own[x].f, s.own[x].k);
    }
    forall b | 0 <= b < |s.used| ensures s'.used[b] <==> b < first || b in s'.own {
      assert b in s.own ==> OwnerHolds(s, first, b);
    }
  }

  /** `used` is the free map of `s` after the slots `done` of inode `f` were freed. */
  ghost predicate Freed(s: State, f: nat, used: seq<bool>, done: set<nat>) {
    |used| == |s.used| && forall b :: 0 <= b < |used| ==> used[b] == (s.used[b] && !(OwnedBy(s, f, b) && s.own[b].k in done))
  }

  /** A slot not freed yet holds nothing or a block that is still marked used. */
  lemma {:induction false} FreeSlot(s: State, first: nat, f: nat, used: seq<bool>, done: set<nat>, k: nat)
    requires Owned(s, first) && f < |s.ino| && Freed(s, f, used, done) && k < SLOTS && k !in done
    ensures var b := Slot(s, f, k);
            if b == 0 then Freed(s, f, used, done + {k}) else b < |used| && used[b] && Freed(s, f, used[b := false], done + {k})
  {
    var b := Slot(s, f, k);
    assert SlotOwned(s, f, k);
    if b == 0 {
      forall c | 0 <= c < |used| && OwnedBy(s, f, c) ensures s.own[c].k != k { assert OwnerHolds(s, first, c); }
    } else {
      assert OwnerHolds(s, first, b);
      forall c | 0 <= c < |used| && OwnedBy(s, f, c) && s.own[c].k == k ensures c == b { assert OwnerHolds(s, first, c); }
    }
  }

  lemma {:induction false} FreedAll(s: State, first: nat, f: nat, used: seq<bool>, done: set<nat>)
    requires Owned(s, first) && f < |s.ino| && Freed(s, f, used, done)
    requires forall k :: 0 <= k < SLOTS ==> k in done || Slot(s, f, k) == 0
    ensures Truncates(s, f, State(used, s.blk, s.ino[f := EmptyInode()], map b | b in s.own && s.own[b].f != f :: s.own[b]))
  {
    forall b | 0 <= b < |used| ensures used[b] == (s.used[b] && !OwnedBy(s, f, b)) {
      if OwnedBy(s, f, b) { assert OwnerHolds(s, first, b); }
    }
  }

  // ---------------------------------------------------------------------------
  // The file system in memory

  const BPB := BSIZE * 8

  /** Later states keep every mapped block and the bytes and size of every file. */
  ghost predicate Extends(s: State, s': State, first: nat) {
    && Owned(s, first) && Owned(s', first) && |s'.used| == |s.used| && |s'.ino| == |s.ino|
    && (forall g :: 0 <= g < |s.ino| ==> s'.ino[g].size == s.ino[g].size)
    && (forall g, l :: 0 <= g < |s.ino| && 0 <= l < SLOTS && Slot(s, g, l) != 0 ==> Slot(s', g, l) == Slot(s, g, l))
    && (forall g, i :: 0 <= g < |s.ino| && 0 <= i < MAXFILE * BSIZE ==> Raw(s', g, i) == Raw(s, g, i))
  }

  lemma {:induction false} BindsExtends(s: State, first: nat, f: nat, k: nat, b: nat, s': State)
    requires Binds(s, first, f, k, b, s')
    ensures Extends(s, s', first)
  {
    BindsOwned(s, first, f, k, b, s');
    forall g, i | 0 <= g < |s.ino| && 0 <= i < MAXFILE * BSIZE ensures Raw(s', g, i) == Raw(s, g, i) {
      BindsRaw(s, first, f, k, b, s', g, i);
    }
  }

  lemma {:induction false} ExtendsTwice(s: State, s': State, s'': State, first: nat)
    requires Extends(s, s', first) && Extends(s', s'', first)
    ensures Extends(s, s'', first)
  {
    forall g, l | 0 <= g < |s.ino| && 0 <= l < SLOTS && Slot(s, g, l) != 0 ensures Slot(s'', g, l) == Slot(s, g, l) {
      assert Slot(s', g, l) == Slot(s, g, l);
    }
    forall g, i | 0 <= g < |s.ino| && 0 <= i < MAXFILE * BSIZE ensures Raw(s'', g, i) == Raw(s, g, i) {
      assert Raw(s', g, i) == Raw(s, g, i);
    }
  }

  // ---------------------------------------------------------------------------
  // Files as byte sequences

  ghost predicate NoHoles(s: State, f: nat, size: nat)
    requires f < |s.ino| && |s.ino[f].addrs| == NDIRECT + 1 && size <= MAXFILE * BSIZE
  {
    forall bn :: 0 <= bn < MAXFILE && bn * BSIZE < size ==> Slot(s, f, SlotOf(bn)) != 0
  }

  /** Sizes are possible and every block below a size is mapped. */
  ghost predicate FilesOk(s: State, first: nat) {
    Owned(s, first) && forall f :: 0 <= f < |s.ino| ==> s.ino[f].size <= MAXFILE * BSIZE && NoHoles(s, f, s.ino[f].size)
  }

  ghost function File(s: State, f: nat): seq<byte>
    requires f < |s.ino| && |s.ino[f].addrs| == NDIRECT + 1 && s.ino[f].size <= MAXFILE * BSIZE
  {
    seq(s.ino[f].size, i requires 0 <= i < s.ino[f].size => Raw(s, f, i))
  }

  /** `file` with `src` written at `off`. */
  ghost function Written(file: seq<byte>, off: nat, src: seq<byte>): seq<byte>
    requires off <= |file|
  {
    file[..off] + src + if off + |src| < |file| then file[off + |src|..] else []
  }

  /** `s'` is `s` after the bytes `src` went to position `off` of file `f`, sizes not yet changed. */
  ghost predicate Wrote(s: State, s': State, first: nat, f: nat, off: nat, src: seq<byte>) {
    && Owned(s, first) && Owned(s', first) && |s'.used| == |s.used| && |s'.ino| == |s.ino| && f < |s.ino|
    && off + |src| <= MAXFILE * BSIZE
    && (forall g :: 0 <= g < |s.ino| ==> s'.ino[g].size == s.ino[g].size)
    && (forall g, l :: 0 <= g < |s.ino| && 0 <= l < SLOTS && Slot(s, g, l) != 0 ==> Slot(s', g, l) == Slot(s, g, l))
    && (forall bn :: off / BSIZE <= bn < MAXFILE && bn * BSIZE < off + |src| && 0 < |src| ==> Slot(s', f, SlotOf(bn)) != 0)
    && (forall g, i :: 0 <= g < |s.ino| && 0 <= i < MAXFILE * BSIZE ==>
          Raw(s', g, i) == if g == f && off <= i < off + |src| then src[i - off] else Raw(s, g, i))
  }

  lemma {:induction false} WroteExtends(s: State, s': State, s'': State, first: nat, f: nat, off: nat, src: seq<byte>)
    requires Wrote(s, s', first, f, off, src) && Extends(s', s'', first)
    ensures Wrote(s, s'', first, f, off, src)
  {
    forall g, l | 0 <= g < |s.ino| && 0 <= l < SLOTS && Slot(s, g, l) != 0 ensures Slot(s'', g, l) == Slot(s, g, l) {
      assert Slot(s', g, l) == Slot(s, g, l);
    }
    forall bn | off / BSIZE <= bn < MAXFILE && bn * BSIZE < off + |src| && 0 < |src| ensures Slot(s'', f, SlotOf(bn)) != 0 {
      assert Slot(s', f, SlotOf(bn)) != 0;
    }
    forall g, i | 0 <= g < |s.ino| && 0 <= i < MAXFILE * BSIZE
      ensures Raw(s'', g, i) == if g == f && off <= i < off + |src| then src[i - off] else Raw(s, g, i)
    {
      assert Raw(s'', g, i) == Raw(s', g, i);
    }
  }

  /** The next chunk, which lies within one block. */
  lemma {:induction false} WroteMore(s: State, s': State, first: nat, f: nat, off: nat, src: seq<byte>, more: seq<byte>, a: nat)
    requires Wrote(s, s', first, f, off, src)
    requires var pos := off + |src|; pos % BSIZE + |more| <= BSIZE && 0 < |more| && pos + |more| <= MAXFILE * BSIZE
    requires Maps(s', first, f, (off + |src|) / BSIZE, a)
    ensures a < |s'.blk| && Wrote(s, Stored(s', a, (off + |src|) % BSIZE, more), first, f, off, src + more)
  {
    var pos := off + |src|;
    var bn, o := pos / BSIZE, pos % BSIZE;
    MappedInRange(s', first, f, bn, a);
    StoredOwned(s', first, f, bn, a, o, more);
    var s'' := Stored(s', a, o, more);
    forall g, l | 0 <= g < |s.ino| && 0 <= l < SLOTS ensures Slot(s'', g, l) == Slot(s', g, l) {
      StoredSlots(s', first, f, bn, a, o, more, g, l);
    }
    forall c | off / BSIZE <= c < MAXFILE && c * BSIZE < pos + |more| ensures Slot(s'', f, SlotOf(c)) != 0 {
      assert Slot(s'', f, SlotOf(c)) == Slot(s', f, SlotOf(c));
      if c * BSIZE >= pos || src == [] { assert c == bn; }
    }
    forall g, i | 0 <= g < |s.ino| && 0 <= i < MAXFILE * BSIZE
      ensures Raw(s'', g, i) == if g == f && off <= i < pos + |more| then (src + more)[i - off] else Raw(s, g, i)
    {
      StoredRaw(s', first, f, bn, a, o, more, g, i);
      assert Raw(s', g, i) == if g == f && off <= i < pos then src[i - off] else Raw(s, g, i);
    }
  }

  ghost function Resized(s: State, f: nat, size: nat): State
    requires f < |s.ino|
  {
    s.(ino := s.ino[f := s.ino[f].(size := size)])
  }

  lemma {:induction false} ResizedSlots(s: State, first: nat, f: nat, size: nat, g: nat, l: nat)
    requires Shape(s, first) && f < |s.ino| && g < |s.ino| && l < SLOTS
    ensures Slot(Resized(s, f, size), g, l) == Slot(s, g, l)
  {
  }

  lemma {:induction false} ResizedOwned(s: State, first: nat, f: nat, size: nat)
    requires Owned(s, first) && f < |s.ino|
    ensures Owned(Resized(s, f, size), first)
  {
    var s' := Resized(s, f, size);
    forall g, l | 0 <= g < |s'.ino| && 0 <= l < SLOTS ensures SlotOwned(s', g, l) {
      ResizedSlots(s, first, f, size, g, l);
      assert SlotOwned(s, g, l);
    }
    forall x | x in s'.own ensures OwnerHolds(s', first, x) {
      assert OwnerHolds(s, first, x);
      ResizedSlots(s, first, f, size, s.own[x].f, s.own[x].k);
    }
  }

  /** The size `writei` leaves behind. */
  function SizeAfter(size: nat, off: nat, n: nat): nat {
    if off + n > size then off + n else size
  }

  /** `writei` may leave the last `|src| - n` bytes that it stored outside the size. */
  lemma {:induction false} WroteOk(s: State, s': State, first: nat, f: nat, off: nat, src: seq<byte>, n: nat)
    requires FilesOk(s, first) && Wrote(s, s', first, f, off, src) && off <= s.ino[f].size && n <= |src|
    ensures FilesOk(Resized(s', f, SizeAfter(s.ino[f].size, off, n)), first)
  {
    var size := SizeAfter(s.ino[f].size, off, n);
    var s'' := Resized(s', f, size);
    ResizedOwned(s', first, f, size);
    forall g | 0 <= g < |s.ino| ensures s''.ino[g].size <= MAXFILE * BSIZE && NoHoles(s'', g, s''.ino[g].size) {
      forall bn | 0 <= bn < MAXFILE && bn * BSIZE < s''.ino[g].size ensures Slot(s'', g, SlotOf(bn)) != 0 {
        ResizedSlots(s', first, f, size, g, SlotOf(bn));
        if bn * BSIZE < s.ino[g].size {
          assert NoHoles(s, g, s.ino[g].size) && Slot(s, g, SlotOf(bn)) != 0;
          assert Slot(s', g, SlotOf(bn)) == Slot(s, g, SlotOf(bn));
        } else {
          assert Slot(s', f, SlotOf(bn)) != 0;
        }
      }
    }
  }

  lemma {:induction false} WrittenAt(file: seq<byte>, off: nat, src: seq<byte>)
    requires off <= |file|
    ensures |Written(file, off, src)| == SizeAfter(|file|, off, |src|)
    ensures forall i :: 0 <= i < |Written(file, off, src)| ==>
              Written(file, off, src)[i] == if off <= i < off + |src| then src[i - off] else file[i]
  {
  }

  lemma {:induction false} ResizedRaw(s: State, first: nat, f: nat, size: nat, g: nat, i: nat)
    requires Shape(s, first) && f < |s.ino| && g < |s.ino| && i < MAXFILE * BSIZE
    ensures Raw(Resized(s, f, size), g, i) == Raw(s, g, i)
  {
    ResizedSlots(s, first, f, size, g, SlotOf(i / BSIZE));
  }

  /** All files, by inode number. */
  ghost function Files(s: State, first: nat): (files: seq<seq<byte>>)
    requires FilesOk(s, first)
    ensures |files| == |s.ino| && forall g :: 0 <= g < |files| ==> |files[g]| == s.ino[g].size
  {
    seq(|s.ino|, g requires 0 <= g < |s.ino| => File(s, g))
  }

  /** `writei` splices the bytes into its file and changes no other file. */
  lemma {:induction false} WroteFile(s: State, s': State, first: nat, f: nat, off: nat, src: seq<byte>, n: nat, g: nat)
    requires FilesOk(s, first) && Wrote(s, s', first, f, off, src) && off <= s.ino[f].size && n <= |src| && g < |s.ino|
    ensures var size := SizeAfter(s.ino[f].size, off, n);
            && Resized(s', f, size).ino[g].size <= MAXFILE * BSIZE && size <= |Written(File(s, f), off, src)|
            && File(Resized(s', f, size), g) == if g == f then Written(File(s, f), off, src)[..size] else File(s, g)
  {
    WrittenAt(File(s, f), off, src);
    var size := SizeAfter(s.ino[f].size, off, n);
    var s'', file := Resized(s', f, size), if g == f then Written(File(s, f), off, src)[..size] else File(s, g);
    forall i | 0 <= i < |file| ensures File(s'', g)[i] == file[i] {
      ResizedRaw(s', first, f, size, g, i);
      WroteByte(s, s', first, f, off, src, g, i);
    }
  }

  lemma {:induction false} WroteFiles(s: State, s': State, first: nat, f: nat, off: nat, src: seq<byte>, n: nat)
    requires FilesOk(s, first) && Wrote(s, s', first, f, off, src) && off <= s.ino[f].size && n <= |src|
    ensures var size := SizeAfter(s.ino[f].size, off, n);
            var s'' := Resized(s', f, size);
            && FilesOk(s'', first) && size <= |Written(Files(s, first)[f], off, src)|
            && Files(s'', first) == Files(s, first)[f := Written(Files(s, first)[f], off, src)[..size]]
  {
    WroteOk(s, s', first, f, off, src, n);
    WrittenAt(File(s, f), off, src);
    forall g | 0 <= g < |s.ino|
      ensures File(Resized(s', f, SizeAfter(s.ino[f].size, off, n)), g)
              == if g == f then Written(File(s, f), off, src)[..SizeAfter(s.ino[f].size, off, n)] else File(s, g)
    {
      WroteFile(s, s', first, f, off, src, n, g);
    }
  }

  lemma {:induction false} WroteByte(s: State, s': State, first: nat, f: nat, off: nat, src: seq<byte>, g: nat, i: nat)
    requires Wrote(s, s', first, f, off, src) && g < |s.ino| && i < MAXFILE * BSIZE
    ensures Raw(s', g, i) == if g == f && off <= i < off + |src| then src[i - off] else Raw(s, g, i)
  {
  }

  // ---------------------------------------------------------------------------
  // What an operation logs

  const IPB := BSIZE / 64

  /** The bitmap block that holds the bit of block `b`. */
  function Bblock(bmapstart: nat, b: nat): nat { bmapstart + b / BPB }

  /** The block that holds inode `i`. */
  function Iblock(inodestart: nat, i: nat): nat { inodestart + i / IPB }

  /** The number of bitmap blocks of a disk of `n` blocks. */
  function BitmapBlocks(n: nat): nat { (n + BPB - 1) / BPB }

  ghost predicate InBitmap(bmapstart: nat, n: nat, x: nat) {
    bmapstart <= x < bmapstart + BitmapBlocks(n)
  }

  ghost predicate InSlots(s: State, f: nat, ks: set<nat>, x: nat) {
    x in s.own && s.own[x].f == f && s.own[x].k in ks
  }

  /** From `s` to `s'` blocks keep their owners, and the blocks logged on the way, which took the set of
      logged blocks from `was` to `now`, are bitmap blocks and blocks in the slots `ks` of inode `f`. */
  ghost predicate Logs(s: State, s': State, bmapstart: nat, was: set<nat>, now: set<nat>, f: nat, ks: set<nat>) {
    && was <= now && |s'.used| == |s.used|
    && (forall x :: x in s.own ==> x in s'.own && s'.own[x] == s.own[x])
    && (forall x :: x in now ==> x in was || InBitmap(bmapstart, |s.used|, x) || InSlots(s', f, ks, x))
  }

  /** Whatever differs between `s` and `s'` is in a logged block, or in a block of `torn`. */
  ghost predicate Covered(s: State, s': State, bmapstart: nat, now: set<nat>, torn: set<nat>) {
    && |s'.blk| == |s.blk| && |s'.used| == |s.used|
    && (forall x: nat :: x < |s.blk| && s'.blk[x] != s.blk[x] ==> x in now || x in torn)
    && (forall b: nat :: b < |s.used| && s'.used[b] != s.used[b] ==> Bblock(bmapstart, b) in now)
  }

  /** All of the changes from `s` to `s'`, in the slots `ks` of `f`, are logged. */
  ghost predicate Records(s: State, s': State, bmapstart: nat, was: set<nat>, now: set<nat>, f: nat, ks: set<nat>) {
    Logs(s, s', bmapstart, was, now, f, ks) && Covered(s, s', bmapstart, now, {})
  }

  lemma {:induction false} LogsTwice(s: State, s': State, s'': State, bmapstart: nat, was: set<nat>, mid: set<nat>, now: set<nat>,
                                     f: nat, ks: set<nat>, ks': set<nat>)
    requires Logs(s, s', bmapstart, was, mid, f, ks) && Logs(s', s'', bmapstart, mid, now, f, ks')
    ensures Logs(s, s'', bmapstart, was, now, f, ks + ks')
  {
    forall x | x in now ensures x in was || InBitmap(bmapstart, |s.used|, x) || InSlots(s'', f, ks + ks', x) {
      if x in mid && x !in was && !InBitmap(bmapstart, |s.used|, x) { assert InSlots(s', f, ks, x); }
    }
  }

  lemma {:induction false} CoveredTwice(s: State, s': State, s'': State, bmapstart: nat, mid: set<nat>, now: set<nat>, torn: set<nat>)
    requires Covered(s, s', bmapstart, mid, {}) && Covered(s', s'', bmapstart, now, torn) && mid <= now
    ensures Covered(s, s'', bmapstart, now, torn)
  {
  }

  lemma {:induction false} LogsSlots(s: State, s': State, bmapstart: nat, was: set<nat>, now: set<nat>, f: nat, ks: set<nat>, ks': set<nat>)
    requires Logs(s, s', bmapstart, was, now, f, ks) && ks <= ks'
    ensures Logs(s, s', bmapstart, was, now, f, ks')
  {
    forall x | x in now ensures x in was || InBitmap(bmapstart, |s.used|, x) || InSlots(s', f, ks', x) {
      assert InSlots(s', f, ks, x) ==> InSlots(s', f, ks', x);
    }
  }

  lemma {:induction false} BitOfBlock(bmapstart: nat, n: nat, b: nat)
    requires b < n
    ensures InBitmap(bmapstart, n, Bblock(bmapstart, b))
  {
  }

  /** `balloc` logs the bitmap block and the new block, and `bmap` the indirect block if it stores into it. */
  lemma {:induction false} BindsRecords(s: State, first: nat, bmapstart: nat, f: nat, k: nat, b: nat, s': State,
                                        was: set<nat>, now: set<nat>)
    requires Binds(s, first, f, k, b, s')
    requires var ind, both := Slot(s, f, NDIRECT), {Bblock(bmapstart, b), b};
             && (now == was + both || (ind != 0 && now == was + both + {ind}))
             && (0 < ind < |s.blk| && s'.blk[ind] != s.blk[ind] ==> ind in now)
    ensures Records(s, s', bmapstart, was, now, f, {k, NDIRECT})
  {
    assert b !in s.own;
    assert SlotOwned(s, f, NDIRECT);
    BitOfBlock(bmapstart, |s.used|, b);
    forall x | x in now ensures x in was || InBitmap(bmapstart, |s.used|, x) || InSlots(s', f, {k, NDIRECT}, x) {
      assert x == b ==> InSlots(s', f, {k, NDIRECT}, x);
      assert x != b && x == Slot(s, f, NDIRECT) && x != 0 ==> InSlots(s', f, {k, NDIRECT}, x);
    }
    forall x: nat | x < |s.blk| && s'.blk[x] != s.blk[x] ensures x in now {
      assert x == b || (x != 0 && x == Slot(s, f, NDIRECT));
    }
  }

  lemma {:induction false} StoredCovered(s: State, bmapstart: nat, a: nat, o: nat, bytes: seq<byte>, now: set<nat>)
    requires a < |s.blk| && o + |bytes| <= BSIZE
    ensures Covered(s, Stored(s, a, o, bytes), bmapstart, now, {a})
    ensures a in now ==> Covered(s, Stored(s, a, o, bytes), bmapstart, now, {})
  {
  }

  lemma {:induction false} StoredLogs(s: State, first: nat, bmapstart: nat, f: nat, bn: nat, a: nat, o: nat, bytes: seq<byte>, was: set<nat>)
    requires Maps(s, first, f, bn, a) && o + |bytes| <= BSIZE && a < |s.blk|
    ensures Logs(s, Stored(s, a, o, bytes), bmapstart, was, was + {a}, f, {SlotOf(bn), NDIRECT})
    ensures Logs(s, Stored(s, a, o, bytes), bmapstart, was, was, f, {SlotOf(bn), NDIRECT})
  {
    MappedInRange(s, first, f, bn, a);
    assert InSlots(Stored(s, a, o, bytes), f, {SlotOf(bn), NDIRECT}, a);
  }

  /** The slots `writei` may use for `n` bytes at `off`. */
  ghost function WriteSlots(off: nat, n: nat): set<nat> {
    set k: nat | k < SLOTS && InWriteSlots(off, n, k)
  }

  ghost predicate InWriteSlots(off: nat, n: nat, k: nat) {
    k == NDIRECT || (0 < n && off / BSIZE <= (if k < NDIRECT then k else k - 1) <= (off + n - 1) / BSIZE)
  }

  lemma {:induction false} WriteSlotsGrow(off: nat, n: nat, m: nat)
    requires off + n + m <= MAXFILE * BSIZE
    ensures WriteSlots(off, n) <= WriteSlots(off, n + m)
    ensures 0 < m ==> {SlotOf((off + n) / BSIZE), NDIRECT} <= WriteSlots(off, n + m)
  {
    forall k | k in WriteSlots(off, n) ensures k in WriteSlots(off, n + m) { assert InWriteSlots(off, n, k) && InWriteSlots(off, n + m, k); }
    if 0 < m {
      assert InWriteSlots(off, n + m, SlotOf((off + n) / BSIZE)) && InWriteSlots(off, n + m, NDIRECT);
    }
  }

  ghost predicate ChunkMapped(before: State, mapped: State, first: nat, f: nat, pos: nat, n: nat, a: nat) {
    && pos % BSIZE + n <= BSIZE && 0 < n && pos + n <= MAXFILE * BSIZE
    && Extends(before, mapped, first) && Maps(mapped, first, f, pos / BSIZE, a)
  }

  /** One turn of the loop of `writei` in which `copied` arrives in the buffer, all or a part of a chunk. */
  lemma {:induction false} ChunkWrote(s: State, before: State, mapped: State, first: nat, f: nat, off: nat,
                                      sofar: seq<byte>, n: nat, copied: seq<byte>, a: nat)
    requires Wrote(s, before, first, f, off, sofar) && ChunkMapped(before, mapped, first, f, off + |sofar|, n, a) && |copied| <= n
    ensures a < |mapped.blk|
    ensures Wrote(s, Stored(mapped, a, (off + |sofar|) % BSIZE, copied), first, f, off, sofar + copied)
  {
    WroteExtends(s, before, mapped, first, f, off, sofar);
    MappedInRange(mapped, first, f, (off + |sofar|) / BSIZE, a);
    if copied == [] {
      assert sofar + copied == sofar;
      StoredNothing(mapped, a, (off + |sofar|) % BSIZE);
    } else {
      WroteMore(s, mapped, first, f, off, sofar, copied, a);
    }
  }

  lemma {:induction false} StoredNothing(s: State, a: nat, o: nat)
    requires a < |s.blk| && o <= BSIZE
    ensures Stored(s, a, o, []) == s
  {
    assert Splice(s.blk[a], o, []) == s.blk[a];
  }

  lemma {:induction false} ChunkLogs(s: State, before: State, mapped: State, first: nat, bmapstart: nat, f: nat, off: nat, n: nat, m: nat,
                                     copied: seq<byte>, a: nat, was: set<nat>, mid: set<nat>, mid': set<nat>, now: set<nat>)
    requires Logs(s, before, bmapstart, was, mid, f, WriteSlots(off, n)) && ChunkMapped(before, mapped, first, f, off + n, m, a)
    requires Logs(before, mapped, bmapstart, mid, mid', f, {SlotOf((off + n) / BSIZE), NDIRECT})
    requires a < |mapped.blk| && |copied| <= m && (now == mid' || now == mid' + {a})
    ensures Logs(s, Stored(mapped, a, (off + n) % BSIZE, copied), bmapstart, was, now, f, WriteSlots(off, n + m))
  {
    var ks, bn := {SlotOf((off + n) / BSIZE), NDIRECT}, (off + n) / BSIZE;
    var s'' := Stored(mapped, a, (off + n) % BSIZE, copied);
    StoredLogs(mapped, first, bmapstart, f, bn, a, (off + n) % BSIZE, copied, mid');
    LogsTwice(before, mapped, s'', bmapstart, mid, mid', now, f, ks, ks);
    LogsTwice(s, before, s'', bmapstart, was, mid, now, f, WriteSlots(off, n), ks + ks);
    WriteSlotsGrow(off, n, m);
    LogsSlots(s, s'', bmapstart, was, now, f, WriteSlots(off, n) + (ks + ks), WriteSlots(off, n + m));
  }

  lemma {:induction false} ChunkCovered(s: State, before: State, mapped: State, bmapstart: nat, o: nat, copied: seq<byte>, a: nat,
                                        mid: set<nat>, mid': set<nat>, now: set<nat>)
    requires Covered(s, before, bmapstart, mid, {}) && Covered(before, mapped, bmapstart, mid', {}) && mid <= mid'
    requires a < |mapped.blk| && o + |copied| <= BSIZE && (now == mid' || now == mid' + {a})
    ensures Covered(s, Stored(mapped, a, o, copied), bmapstart, now, if a in now then {} else {a})
  {
    var torn: set<nat> := if a in now then {} else {a};
    CoveredTwice(s, before, mapped, bmapstart, mid, mid', {});
    StoredCovered(mapped, bmapstart, a, o, copied, now);
    CoveredTwice(s, mapped, Stored(mapped, a, o, copied), bmapstart, mid', now, torn);
  }

  /** From `s` to `s'`, and from the logged blocks `was` to `now`: the first `reach` bytes of `src` have arrived at
      `off`, the blocks logged are those of the first `span` bytes, and all changes are logged but those in `torn`. */
  ghost predicate Progress(s: State, s': State, first: nat, bmapstart: nat, was: set<nat>, now: set<nat>, f: nat, off: nat, src: seq<byte>,
                           reach: nat, span: nat, torn: set<nat>)
  {
    && Owned(s', first) && f < |s'.ino|
    && forall k {:trigger Unfolded(k, s, s')} :: Unfolded(k, s, s') ==>
         && reach <= |src| && Wrote(s, s', first, f, off, src[..reach])
         && Logs(s, s', bmapstart, was, now, f, WriteSlots(off, span)) && Covered(s, s', bmapstart, now, torn)
  }

  /** Keeps `Progress`, `ChunksDone` and `WriteiResult` closed; an assertion of `Unfolded` opens them. */
  ghost predicate Unfolded(k: int, s: State, s': State) { true }

  /** The block that the bytes after the first `tot` go to was not mapped at the beginning if it is not now. */
  lemma {:induction false} StillUnmapped(s: State, s': State, first: nat, bmapstart: nat, was: set<nat>, now: set<nat>, f: nat, off: nat,
                                         src: seq<byte>, tot: nat)
    requires Progress(s, s', first, bmapstart, was, now, f, off, src, tot, tot, {}) && off + tot < MAXFILE * BSIZE
    requires Slot(s', f, SlotOf((off + tot) / BSIZE)) == 0
    ensures f < |s.ino| && |s.ino[f].addrs| == NDIRECT + 1 && Slot(s, f, SlotOf((off + tot) / BSIZE)) == 0
  {
    assert Unfolded(0, s, s');
  }

  /** One turn of the loop of `writei`. */
  lemma {:induction false} ChunkWritten(s: State, before: State, mapped: State, s': State, first: nat, bmapstart: nat,
                                        f: nat, off: nat, src: seq<byte>, tot: nat, m: nat, bytes: seq<byte>, a: nat,
                                        was: set<nat>, mid: set<nat>, mid': set<nat>, now: set<nat>)
    requires tot + m <= |src| && |bytes| <= m && bytes == src[tot..tot + |bytes|]
    requires Progress(s, before, first, bmapstart, was, mid, f, off, src, tot, tot, {})
    requires ChunkMapped(before, mapped, first, f, off + tot, m, a) && a < |mapped.blk|
    requires Records(before, mapped, bmapstart, mid, mid', f, {SlotOf((off + tot) / BSIZE), NDIRECT})
    requires s' == Stored(mapped, a, (off + tot) % BSIZE, bytes) && now == if |bytes| == m then mid' + {a} else mid'
    ensures Progress(s, s', first, bmapstart, was, now, f, off, src, tot + |bytes|, tot + m, if |bytes| == m then {} else {a})
    ensures Slot(s', f, SlotOf((off + tot) / BSIZE)) == a
  {
    assert Unfolded(0, s, before);
    ChunkOf(src, tot, |bytes|);
    ChunkWrote(s, before, mapped, first, f, off, src[..tot], m, bytes, a);
    ChunkLogs(s, before, mapped, first, bmapstart, f, off, tot, m, bytes, a, was, mid, mid', now);
    ChunkCovered(s, before, mapped, bmapstart, (off + tot) % BSIZE, bytes, a, mid, mid', now);
    StoredSlots(mapped, first, f, (off + tot) / BSIZE, a, (off + tot) % BSIZE, bytes, f, SlotOf((off + tot) / BSIZE));
    CoveredMore(s, s', bmapstart, now, if a in now then {} else {a}, if |bytes| == m then {} else {a});
  }

  lemma {:induction false} CoveredMore(s: State, s': State, bmapstart: nat, now: set<nat>, torn: set<nat>, torn': set<nat>)
    requires Covered(s, s', bmapstart, now, torn) && torn <= torn'
    ensures Covered(s, s', bmapstart, now, torn')
  {
  }

  /** The bytes `filewrite` puts into one transaction. */
  const CHUNK := (MAXOPBLOCKS - 1 - 1 - 2) / 2 * BSIZE

  ghost function SlotOrZero(s: State, f: nat, k: nat): nat
    requires f < |s.ino| && |s.ino[f].addrs| == NDIRECT + 1
  {
    if k < SLOTS then Slot(s, f, k) else 0
  }

  ghost function DataSlot(bn: nat): nat {
    if bn < NDIRECT then bn else bn + 1
  }

  /** The blocks in at most four data slots and the indirect slot. */
  lemma {:induction false} FewSlots(s: State, first: nat, f: nat, off: nat, n: nat, xs: set<nat>)
    requires Owned(s, first) && f < |s.ino| && n <= CHUNK
    requires forall x :: x in xs ==> InSlots(s, f, WriteSlots(off, n), x)
    ensures |xs| <= 5
  {
    var b0 := off / BSIZE;
    var few := {Slot(s, f, NDIRECT), SlotOrZero(s, f, DataSlot(b0)), SlotOrZero(s, f, DataSlot(b0 + 1)),
                SlotOrZero(s, f, DataSlot(b0 + 2)), SlotOrZero(s, f, DataSlot(b0 + 3))};
    forall x | x in xs ensures x in few {
      assert InSlots(s, f, WriteSlots(off, n), x);
      assert OwnerHolds(s, first, x);
      assert InWriteSlots(off, n, s.own[x].k);
    }
    SubsetSize(xs, few);
  }

  ghost function Interval(lo: nat, n: nat): (r: set<nat>)
    ensures |r| == n && forall x :: x in r <==> lo <= x < lo + n
  {
    if n == 0 then {} else Interval(lo, n - 1) + {lo + n - 1}
  }

  /** What `writei` of `n` bytes at `off` may add to the logged blocks `was`. */
  ghost predicate MayLog(s: State, bmapstart: nat, was: set<nat>, now: set<nat>, iblock: nat, f: nat, off: nat, n: nat) {
    forall x :: x in now ==>
      x in was || x == iblock || InBitmap(bmapstart, |s.used|, x) || InSlots(s, f, WriteSlots(off, n), x)
  }

  /** A chunk of `filewrite` logs at most four data blocks, the indirect block, the inode's block and the
      bitmap blocks of the disk. */
  lemma {:induction false} ChunkLogsFewBlocks(s: State, first: nat, bmapstart: nat, logged: set<nat>, iblock: nat, f: nat, off: nat, n: nat)
    requires Owned(s, first) && f < |s.ino| && n <= CHUNK && MayLog(s, bmapstart, {}, logged, iblock, f, off, n)
    ensures |logged| <= 6 + BitmapBlocks(|s.used|)
  {
    var bits := Interval(bmapstart, BitmapBlocks(|s.used|));
    var slots := set x | x in logged && InSlots(s, f, WriteSlots(off, n), x);
    FewSlots(s, first, f, off, n, slots);
    assert logged <= bits + slots + {iblock};
    SubsetSize(logged, bits + slots + {iblock});
  }

  /** Hence no `log_write` of such a chunk can find the log full, on a disk of at most two bitmap blocks and
      with the log that mkfs makes, whatever other operations run: `k` is the operation of the chunk in a run of
      the log, and it has appended no more blocks than the chunk logs. */
  lemma {:induction false} ChunkFitsLog(s: State, first: nat, bmapstart: nat, logged: set<nat>, iblock: nat, f: nat, off: nat, n: nat,
                                        states: seq<LogAdmission.State>, steps: seq<LogAdmission.Step>, i: nat, k: nat)
    requires Owned(s, first) && f < |s.ino| && n <= CHUNK && MayLog(s, bmapstart, {}, logged, iblock, f, off, n)
    requires |s.used| <= 2 * BPB
    requires LogAdmission.Run(states, steps) && i < |states| && k < |states[i].ops| && states[i].ops[k] <= |logged|
    ensures !LogAdmission.TooBig(states[i].n, LogAdmission.MKFS_NLOG)
  {
    ChunkLogsFewBlocks(s, first, bmapstart, logged, iblock, f, off, n);
    LogAdmission.SmallOperationsFit(states, steps, i, k);
  }

  // ---------------------------------------------------------------------------
  // Copies that fail

  function Min(a: nat, b: nat): nat { if a < b then a else b }

  /** `writei` and `readi` go block by block.  This is how many of `n` bytes from position `off` are in blocks
      that were copied whole, if a copy fails at the byte with index `limit`. */
  function Whole(off: nat, n: nat, limit: nat): (tot: nat)
    ensures tot <= n && tot <= limit && (tot == n <==> limit >= n)
  {
    var start := (off + limit) / BSIZE * BSIZE;
    if limit >= n then n else if start <= off then 0 else start - off
  }

  /** A turn of the loops of `readi` and `writei` begins with `tot` bytes done. */
  ghost predicate AtBlock(off: nat, n: nat, limit: nat, tot: nat) {
    tot <= n && tot <= limit && (tot == 0 || tot == n || (off + tot) % BSIZE == 0)
  }

  /** The bytes of the next turn. */
  function ChunkLen(off: nat, n: nat, tot: nat): nat
    requires tot <= n
  {
    Min(n - tot, BSIZE - (off + tot) % BSIZE)
  }

  lemma {:induction false} Turn(off: nat, n: nat, limit: nat, tot: nat)
    requires AtBlock(off, n, limit, tot) && tot < n
    ensures var m := ChunkLen(off, n, tot);
            && 0 < m && tot + m <= n && (off + tot) % BSIZE + m <= BSIZE
            && (limit >= tot + m ==> AtBlock(off, n, limit, tot + m))
            && (limit < tot + m ==> Whole(off, n, limit) == tot && Min(limit, n) == limit)
  {
    var pos := off + tot;
    assert pos == pos / BSIZE * BSIZE + pos % BSIZE;
    if limit >= tot + ChunkLen(off, n, tot) {
      assert pos + (BSIZE - pos % BSIZE) == (pos / BSIZE + 1) * BSIZE;
    } else {
      assert (off + limit) / BSIZE == pos / BSIZE;
    }
  }

  /** `file` after the first `reach` bytes of `src` arrived at `off`, `tot` of which count towards the size. */
  ghost function Reached(file: seq<byte>, off: nat, src: seq<byte>, reach: nat, tot: nat): (r: seq<byte>)
    requires off <= |file| && tot <= reach <= |src|
    ensures |r| == SizeAfter(|file|, off, tot)
    ensures tot == |src| ==> r == Written(file, off, src)
  {
    WrittenAt(file, off, src[..reach]);
    assert tot == |src| ==> src[..reach] == src;
    Written(file, off, src[..reach])[..SizeAfter(|file|, off, tot)]
  }

  /** `file` after `writei` of `src` at `off`, of which only `limit` bytes can be read: every readable byte has
      arrived in a buffer, but the size grows only over the blocks that were copied whole. */
  ghost function Arrived(file: seq<byte>, off: nat, src: seq<byte>, limit: nat): seq<byte>
    requires off <= |file|
  {
    Reached(file, off, src, Min(limit, |src|), Whole(off, |src|, limit))
  }

  /** `writei` returns the number of bytes it was asked to write even if the copy fails.  It has written them for
      every content exactly if all of them can be read. */
  lemma {:induction false} ReportedIsWritten(file: seq<byte>, off: nat, n: nat, limit: nat)
    requires off <= |file|
    ensures (forall src {:trigger Arrived(file, off, src, limit)} :: |src| == n ==> Arrived(file, off, src, limit) == Written(file, off, src)) <==> limit >= n
  {
    if limit < n {
      var other: byte := if off + limit < |file| && file[off + limit] == 0 then 1 else 0;
      var src: seq<byte> := seq(n, _ => other);
      WrittenAt(file, off, src);
      WrittenAt(file, off, src[..limit]);
      if off + limit < |file| {
        assert Arrived(file, off, src, limit)[off + limit] == file[off + limit];
        assert Written(file, off, src)[off + limit] == other;
      }
      assert Arrived(file, off, src, limit) != Written(file, off, src);
    }
  }

  ghost predicate Full(used: seq<bool>) { forall c :: 0 <= c < |used| ==> used[c] }

  class FileSystem {
    const first: nat
    const inodestart: nat
    const bmapstart: nat
    var used: seq<bool>
    var blk: seq<Block>
    var ino: seq<Inode>
    ghost var own: map<nat, Ref>
    /** The blocks given to `log_write`. */
    ghost var logged: set<nat>

    /** A disk of `size` blocks whose first `first` blocks are not for files, with `n` empty inodes. */
    constructor (inodestart: nat, bmapstart: nat, first: nat, size: nat, n: nat)
      requires 0 < first <= size < UINT
      ensures this.first == first && this.inodestart == inodestart && this.bmapstart == bmapstart
      ensures FilesOk(S(), first) && Files(S(), first) == seq(n, _ => []) && |used| == size && logged == {}
    {
      this.first, this.inodestart, this.bmapstart := first, inodestart, bmapstart;
      used, blk := seq(size, b => b < first), seq(size, _ => Zeros());
      ino, own, logged := seq(n, _ => EmptyInode()), map[], {};
      new;
      EmptyFilesOk(S(), first);
    }

    ghost function S(): State
      reads this
    {
      State(used, blk, ino, own)
    }

    /** `balloc`; `None` is its panic. */
    method Balloc() returns (r: Option<nat>)
      requires |used| == |blk|
      modifies this`used, this`blk, this`logged
      ensures r.Some? ==> logged == old(logged) + {Bblock(bmapstart, r.value), r.value}
      ensures r.Some? ==> r.value < |old(used)| && !old(used)[r.value] && (forall c :: 0 <= c < r.value ==> old(used)[c])
      ensures r.Some? ==> used == old(used)[r.value := true] && blk == old(blk)[r.value := Zeros()]
      ensures r.None? ==> used == old(used) && blk == old(blk) && logged == old(logged) && Full(used)
    {
      var b := 0;
      while b < |used|
        invariant used == old(used) && blk == old(blk) && logged == old(logged) && b % BPB == 0
        invariant forall c :: 0 <= c < b && c < |used| ==> used[c]
      {
        var bi := 0;
        while bi < BPB && b + bi < |used|
          invariant used == old(used) && blk == old(blk) && logged == old(logged) && 0 <= bi <= BPB
          invariant forall c :: 0 <= c < b + bi && c < |used| ==> used[c]
        {
          if !used[b + bi] {
            assert (b + bi) / BPB == b / BPB;
            used := used[b + bi := true];
            logged := logged + {Bblock(bmapstart, b)};
            blk := blk[b + bi := Zeros()];
            logged := logged + {b + bi};
            return Some(b + bi);
          }
          bi := bi + 1;
        }
        b := b + BPB;
      }
      r := None;
    }

    /** `bfree`. */
    method Bfree(b: nat) returns (panicked: bool)
      requires b < |used|
      modifies this`used, this`logged
      ensures panicked == !old(used)[b] && used == if panicked then old(used) else old(used)[b := false]
      ensures logged == if panicked then old(logged) else old(logged) + {Bblock(bmapstart, b)}
    {
      if !used[b] {
        return true;
      }
      used := used[b := false];
      logged := logged + {Bblock(bmapstart, b)};
      panicked := false;
    }

    /** `balloc` for slot `k <= NDIRECT` of inode `f`. */
    method AllocDirect(f: nat, k: nat) returns (r: Option<nat>)
      requires Owned(S(), first) && f < |ino| && k <= NDIRECT && ino[f].addrs[k] == 0
      modifies this
      ensures Extends(old(S()), S(), first) && Records(old(S()), S(), bmapstart, old(logged), logged, f, {k, NDIRECT})
      ensures r.Some? ==> r.value != 0 && Slot(S(), f, k) == r.value
      ensures r.None? ==> S() == old(S()) && logged == old(logged) && Full(used)
    {
      ghost var s := S();
      r := Balloc();
      if r.Some? {
        BindDirectBinds(s, first, f, k, r.value);
        BindsExtends(s, first, f, k, r.value, BindDirect(s, f, k, r.value));
        BindsRecords(s, first, bmapstart, f, k, r.value, BindDirect(s, f, k, r.value), old(logged), logged);
        ino := ino[f := ino[f].(addrs := ino[f].addrs[k := r.value])];
        own := own[r.value := Ref(f, k)];
        assert S() == BindDirect(s, f, k, r.value);
      }
    }

    /** `balloc` for entry `j` of the indirect block of inode `f`. */
    method AllocIndirect(f: nat, j: nat) returns (r: Option<nat>)
      requires Owned(S(), first) && f < |ino| && j < NINDIRECT && ino[f].addrs[NDIRECT] != 0
      requires Slot(S(), f, NDIRECT + 1 + j) == 0
      modifies this
      ensures Extends(old(S()), S(), first) && Records(old(S()), S(), bmapstart, old(logged), logged, f, {NDIRECT + 1 + j, NDIRECT})
      ensures r.Some? ==> r.value != 0 && Slot(S(), f, NDIRECT + 1 + j) == r.value
      ensures r.None? ==> S() == old(S()) && logged == old(logged) && Full(used)
    {
      ghost var s := S();
      r := Balloc();
      if r.Some? {
        BindIndirectBinds(s, first, f, j, r.value);
        BindsExtends(s, first, f, NDIRECT + 1 + j, r.value, BindIndirect(s, f, j, r.value));
        blk := StoreWord(blk, ino[f].addrs[NDIRECT], j, r.value);
        logged := logged + {ino[f].addrs[NDIRECT]};
        BindsRecords(s, first, bmapstart, f, NDIRECT + 1 + j, r.value, BindIndirect(s, f, j, r.value), old(logged), logged);
        own := own[r.value := Ref(f, NDIRECT + 1 + j)];
        assert S() == BindIndirect(s, f, j, r.value);
      }
    }

    /** The indirect half of `bmap`. */
    method BmapIndirect(f: nat, bn: nat) returns (r: Option<nat>)
      requires Owned(S(), first) && f < |ino| && NDIRECT <= bn < MAXFILE
      modifies this
      ensures Extends(old(S()), S(), first) && Records(old(S()), S(), bmapstart, old(logged), logged, f, {SlotOf(bn), NDIRECT})
      ensures r.Some? ==> Maps(S(), first, f, bn, r.value)
      ensures r.None? ==> Full(used)
      ensures Slot(old(S()), f, SlotOf(bn)) != 0 ==> r.Some? && S() == old(S()) && logged == old(logged)
    {
      ghost var s := S();
      if ino[f].addrs[NDIRECT] == 0 {
        r := AllocDirect(f, NDIRECT);
        if r.None? {
          return;
        }
      }
      ghost var s', mid := S(), logged;
      r := BmapWord(f, bn);
      ExtendsTwice(s, s', S(), first);
      assert {NDIRECT, NDIRECT} + {SlotOf(bn), NDIRECT} == {SlotOf(bn), NDIRECT};
      LogsTwice(s, s', S(), bmapstart, old(logged), mid, logged, f, {NDIRECT, NDIRECT}, {SlotOf(bn), NDIRECT});
      CoveredTwice(s, s', S(), bmapstart, mid, logged, {});
    }

    /** `bmap` with the indirect block in place. */
    method BmapWord(f: nat, bn: nat) returns (r: Option<nat>)
      requires Owned(S(), first) && f < |ino| && NDIRECT <= bn < MAXFILE && ino[f].addrs[NDIRECT] != 0
      modifies this
      ensures Extends(old(S()), S(), first) && Records(old(S()), S(), bmapstart, old(logged), logged, f, {SlotOf(bn), NDIRECT})
      ensures r.Some? ==> Maps(S(), first, f, bn, r.value)
      ensures r.None? ==> Full(used)
      ensures Slot(old(S()), f, SlotOf(bn)) != 0 ==> r.Some? && S() == old(S()) && logged == old(logged)
    {
      ghost var s := S();
      var ind := ino[f].addrs[NDIRECT];
      assert ind < |blk| by { assert SlotOwned(s, f, NDIRECT) && OwnerHolds(s, first, ind); }
      var addr := Word(blk[ind], bn - NDIRECT);
      if addr == 0 {
        r := AllocIndirect(f, bn - NDIRECT);
      } else {
        r := Some(addr);
      }
    }

    /** `bmap`; `None` is one of its panics. */
    method Bmap(f: nat, bn: nat) returns (r: Option<nat>)
      requires Owned(S(), first) && f < |ino|
      modifies this
      ensures Extends(old(S()), S(), first)
      ensures bn < MAXFILE ==> Records(old(S()), S(), bmapstart, old(logged), logged, f, {SlotOf(bn), NDIRECT})
      ensures r.Some? ==> Maps(S(), first, f, bn, r.value)
      ensures r.None? ==> bn >= MAXFILE || Full(used)
      ensures bn < MAXFILE && Slot(old(S()), f, SlotOf(bn)) != 0 ==> r.Some? && S() == old(S()) && logged == old(logged)
    {
      if bn < NDIRECT {
        if ino[f].addrs[bn] == 0 {
          r := AllocDirect(f, bn);
        } else {
          r := Some(ino[f].addrs[bn]);
        }
      } else if bn - NDIRECT < NINDIRECT {
        r := BmapIndirect(f, bn);
      } else {
        r := None;
      }
    }

    /** The first loop of `itrunc`. */
    method FreeDirect(f: nat) returns (panicked: bool, ghost done: set<nat>)
      requires Owned(S(), first) && f < |ino|
      modifies this`used, this`ino, this`logged
      ensures !panicked && Freed(old(S()), f, used, done) && (forall k :: k in done <==> 0 <= k < NDIRECT)
      ensures |ino| == |old(ino)| && |ino[f].addrs| == NDIRECT + 1 && (forall k :: 0 <= k < NDIRECT ==> ino[f].addrs[k] == 0)
      ensures ino == old(ino)[f := ino[f]] && ino[f].addrs[NDIRECT] == old(ino[f].addrs[NDIRECT])
    {
      ghost var s := S();
      done := {};
      var i := 0;
      while i < NDIRECT
        invariant i <= NDIRECT && Freed(s, f, used, done) && (forall k :: k in done <==> 0 <= k < i)
        invariant |ino| == |s.ino| && ino == s.ino[f := ino[f]] && |ino[f].addrs| == NDIRECT + 1
        invariant forall k :: 0 <= k <= NDIRECT ==> ino[f].addrs[k] == if k < i then 0 else s.ino[f].addrs[k]
      {
        FreeSlot(s, first, f, used, done, i);
        if ino[f].addrs[i] != 0 {
          panicked := Bfree(ino[f].addrs[i]);
          if panicked {
            return;
          }
          ino := ino[f := ino[f].(addrs := ino[f].addrs[i := 0])];
        }
        done := done + {i};
        i := i + 1;
      }
      panicked := false;
    }

    /** The second loop of `itrunc`, over the entries of the indirect block `ind`. */
    method FreeIndirect(f: nat, ind: nat, ghost s: State, ghost before: set<nat>) returns (panicked: bool, ghost done: set<nat>)
      requires Owned(s, first) && f < |s.ino| && blk == s.blk && 0 < ind < |blk| && s.ino[f].addrs[NDIRECT] == ind
      requires Freed(s, f, used, before) && forall k :: k in before <==> 0 <= k < NDIRECT
      modifies this`used, this`logged
      ensures !panicked && Freed(s, f, used, done) && forall k :: k in done <==> 0 <= k < SLOTS && k != NDIRECT
    {
      done := before;
      var j := 0;
      while j < NINDIRECT
        invariant j <= NINDIRECT && Freed(s, f, used, done)
        invariant forall k :: k in done <==> 0 <= k < NDIRECT + 1 + j && k != NDIRECT
      {
        FreeSlot(s, first, f, used, done, NDIRECT + 1 + j);
        if Word(blk[ind], j) != 0 {
          panicked := Bfree(Word(blk[ind], j));
          if panicked {
            return;
          }
        }
        done := done + {NDIRECT + 1 + j};
        j := j + 1;
      }
      panicked := false;
    }
  
    /** `itrunc` frees exactly the blocks of `f` and never finds one of them free already. */
    method Itrunc(f: nat) returns (panicked: bool)
      requires Owned(S(), first) && f < |ino|
      modifies this
      ensures !panicked && Truncates(old(S()), f, S()) && Owned(S(), first)
    {
      ghost var s := S();
      ghost var done;
      panicked, done := FreeDirect(f);
      var ind := ino[f].addrs[NDIRECT];
      if ind != 0 {
        assert SlotOwned(s, f, NDIRECT) && OwnerHolds(s, first, ind);
        panicked, done := FreeIndirect(f, ind, s, done);
        FreeSlot(s, first, f, used, done, NDIRECT);
        panicked := Bfree(ind);
        done := done + {NDIRECT};
        ino := ino[f := ino[f].(addrs := ino[f].addrs[NDIRECT := 0])];
      }
      ino := ino[f := ino[f].(size := 0)];
      logged := logged + {Iblock(inodestart, f)};
      own := map b | b in own && own[b].f != f :: own[b];
      FreedAll(s, first, f, used, done);
      assert ino[f].addrs == EmptyInode().addrs;
      assert S() == State(used, s.blk, s.ino[f := EmptyInode()], map b | b in s.own && s.own[b].f != f :: s.own[b]);
      TruncatesOwned(s, first, f, S());
    }
  
    // -------------------------------------------------------------------------
    // Reading and writing

    /** `readi` into memory that can take `limit` bytes.  `data` is what arrives there. */
    method Readi(f: nat, off: nat, n: nat, limit: nat) returns (tot: nat, data: seq<byte>)
      requires FilesOk(S(), first) && f < |ino| && off < UINT && n < UINT
      modifies this
      ensures S() == old(S()) && logged == old(logged)
      ensures off > ino[f].size || off + n >= UINT ==> tot == 0 && data == []
      ensures off <= ino[f].size && off + n < UINT ==>
                var want := File(S(), f)[off..Min(ino[f].size, off + n)];
                tot == Whole(off, |want|, limit) && data == want[..Min(limit, |want|)]
    {
      tot, data := 0, [];
      if off > ino[f].size || off + n >= UINT {
        return;
      }
      ghost var s := S();
      var len := if off + n > ino[f].size then ino[f].size - off else n;
      ghost var want := File(s, f)[off..off + len];
      while tot < len
        invariant S() == s && logged == old(logged) && AtBlock(off, len, limit, tot) && data == want[..tot]
        decreases len - tot
      {
        Turn(off, len, limit, tot);
        var m := ChunkLen(off, len, tot);
        var q := Min(m, limit - tot);
        var bytes := ReadChunk(f, off, len, tot, q);
        data := data + bytes;
        if q < m {
          return;
        }
        tot := tot + m;
      }
      assert data == want;
    }

    /** One turn of the loop of `readi`. */
    method ReadChunk(f: nat, off: nat, len: nat, tot: nat, q: nat) returns (bytes: seq<byte>)
      requires FilesOk(S(), first) && f < |ino| && off + len <= ino[f].size && (off + tot) % BSIZE + q <= BSIZE && tot + q <= len && tot < len
      modifies this
      ensures S() == old(S()) && logged == old(logged)
      ensures var want := File(S(), f)[off..off + len]; want[..tot] + bytes == want[..tot + q]
    {
      ghost var s := S();
      var pos := off + tot;
      assert NoHoles(s, f, s.ino[f].size) && Slot(s, f, SlotOf(pos / BSIZE)) != 0;
      var a := Bmap(f, pos / BSIZE);
      MappedInRange(s, first, f, pos / BSIZE, a.value);
      bytes := blk[a.value][pos % BSIZE..pos % BSIZE + q];
      ReadsChunk(s, first, f, off, len, tot, q, a.value);
    }

    /** One turn of the loop of `writei`: map the block after the first `tot` bytes of `src`, then copy `q` of the
        `m` bytes that belong into it; the block is logged if these are all of them. */
    method WriteChunk(f: nat, off: nat, src: seq<byte>, tot: nat, m: nat, q: nat, ghost s: State, ghost was: set<nat>) returns (panicked: bool)
      requires tot + m <= |src| && q <= m && 0 < m && (off + tot) % BSIZE + m <= BSIZE && off + |src| <= MAXFILE * BSIZE
      requires Progress(s, S(), first, bmapstart, was, logged, f, off, src, tot, tot, {})
      modifies this
      ensures !panicked ==> Owned(S(), first) && f < |ino|
      ensures !panicked ==>
                Progress(s, S(), first, bmapstart, was, logged, f, off, src, tot + q, tot + m,
                         if q == m then {} else {Slot(S(), f, SlotOf((off + tot) / BSIZE))})
      ensures panicked ==> f < |s.ino| && |s.ino[f].addrs| == NDIRECT + 1 && Slot(s, f, SlotOf((off + tot) / BSIZE)) == 0
      ensures panicked ==> Full(used)
    {
      ghost var before, mid := S(), logged;
      var pos := off + tot;
      var a := MapFor(f, pos, m);
      if a.None? {
        StillUnmapped(s, before, first, bmapstart, was, mid, f, off, src, tot);
        return true;
      }
      var bytes := src[tot..tot + q];
      ghost var mapped, mid' := S(), logged;
      StoreIn(a.value, pos % BSIZE, bytes, q == m);
      ChunkWritten(s, before, mapped, S(), first, bmapstart, f, off, src, tot, m, bytes, a.value, was, mid, mid', logged);
      panicked := false;
    }

    /** `bmap` for `n` bytes at `pos`, which lie in one block. */
    method MapFor(f: nat, pos: nat, n: nat) returns (a: Option<nat>)
      requires Owned(S(), first) && f < |ino| && pos % BSIZE + n <= BSIZE && 0 < n && pos + n <= MAXFILE * BSIZE
      modifies this
      ensures a.Some? ==> ChunkMapped(old(S()), S(), first, f, pos, n, a.value) && a.value < |blk|
      ensures a.Some? ==> Records(old(S()), S(), bmapstart, old(logged), logged, f, {SlotOf(pos / BSIZE), NDIRECT})
      ensures a.None? ==> Slot(old(S()), f, SlotOf(pos / BSIZE)) == 0 && Full(used)
    {
      a := Bmap(f, pos / BSIZE);
      if a.Some? { MappedInRange(S(), first, f, pos / BSIZE, a.value); }
    }

    /** The copy into the buffer of block `a`, which is logged if the copy did not fail. */
    method StoreIn(a: nat, o: nat, bytes: seq<byte>, whole: bool)
      requires a < |blk| && o + |bytes| <= BSIZE
      modifies this`blk, this`logged
      ensures S() == Stored(old(S()), a, o, bytes) && logged == if whole then old(logged) + {a} else old(logged)
    {
      blk := blk[a := Splice(blk[a], o, bytes)];
      if whole {
        logged := logged + {a};
      }
    }

    /** The loop of `writei`. */
    method WriteLoop(f: nat, off: nat, src: seq<byte>, limit: nat) returns (tot: nat, panicked: bool)
      requires Owned(S(), first) && f < |ino| && off + |src| <= MAXFILE * BSIZE
      modifies this
      ensures !panicked ==>
                tot == Whole(off, |src|, limit) && LoopWrote(old(S()), S(), first, bmapstart, old(logged), logged, f, off, src, limit)
      ensures panicked ==> !NoHoles(old(S()), f, off + |src|) && Full(used)
    {
      tot, panicked := 0, false;
      ghost var s, was := S(), logged;
      LoopBegins(s, first, bmapstart, was, f, off, src, limit);
      while tot < |src|
        invariant !panicked && LoopAt(s, S(), first, bmapstart, was, logged, f, off, src, limit, tot)
        decreases |src| - tot
      {
        var m := ChunkLen(off, |src|, tot);
        panicked := WriteTurn(f, off, src, limit, tot, s, was);
        if panicked || limit < tot + m {
          return;
        }
        tot := tot + m;
      }
      assert Torn(S(), f, off, |src|, limit) == {};
    }

    /** The turn of the loop of `writei` after `tot` bytes. */
    method WriteTurn(f: nat, off: nat, src: seq<byte>, limit: nat, tot: nat, ghost s: State, ghost was: set<nat>) returns (panicked: bool)
      requires LoopAt(s, S(), first, bmapstart, was, logged, f, off, src, limit, tot) && tot < |src| && off + |src| <= MAXFILE * BSIZE
      modifies this
      ensures var m := ChunkLen(off, |src|, tot);
              && 0 < m && tot + m <= |src|
              && (!panicked && limit >= tot + m ==> LoopAt(s, S(), first, bmapstart, was, logged, f, off, src, limit, tot + m))
              && (!panicked && limit < tot + m ==>
                    tot == Whole(off, |src|, limit) && LoopWrote(s, S(), first, bmapstart, was, logged, f, off, src, limit))
      ensures panicked ==> f < |s.ino| && |s.ino[f].addrs| == NDIRECT + 1 && Slot(s, f, SlotOf((off + tot) / BSIZE)) == 0
      ensures panicked ==> Full(used)
    {
      Turn(off, |src|, limit, tot);
      var m := ChunkLen(off, |src|, tot);
      var q := Min(m, limit - tot);
      panicked := WriteChunk(f, off, src, tot, m, q, s, was);
      if !panicked && q < m {
        LoopStops(s, S(), first, bmapstart, was, logged, f, off, src, limit, tot, m);
      }
    }

    /** The inode branch of `filewrite`, with user memory of which `limit` bytes can be read.  In transactions of
        at most `CHUNK` bytes it writes what one `writei` of everything would write, or a prefix of it.  It stops
        where `writei` refuses to go on.  `ops` are the blocks logged by each transaction. */
    method FileWrite(f: nat, off: nat, src: seq<byte>, limit: nat)
      returns (ret: int, newOff: nat, panicked: bool, ghost ops: seq<set<nat>>)
      requires FilesOk(S(), first) && f < |ino| && off < UINT && |src| < INT
      modifies this
      ensures !panicked ==> off <= newOff <= off + |src| && ret == if newOff == off + |src| then |src| else -1
      ensures !panicked ==> ChunksDone(old(S()), S(), first, f, off, src, newOff - off, limit)
      ensures !panicked && newOff == off ==> S() == old(S())
      ensures !panicked && newOff < off + |src| ==>
                newOff > ino[f].size || newOff + Min(CHUNK, off + |src| - newOff) > MAXFILE * BSIZE
      ensures AllSmall(ops, |old(used)|)
      ensures panicked ==> Full(used)
    {
      var i;
      i, panicked, ops := FileWriteLoop(f, off, src, limit);
      newOff := off + i;
      ret := if i == |src| then |src| else -1;
    }

    /** The loop of `filewrite`, which writes the first `i` bytes. */
    method FileWriteLoop(f: nat, off: nat, src: seq<byte>, limit: nat) returns (i: nat, panicked: bool, ghost ops: seq<set<nat>>)
      requires FilesOk(S(), first) && f < |ino| && off < UINT && |src| < INT
      modifies this
      ensures i <= |src| && AllSmall(ops, |old(used)|)
      ensures !panicked ==> ChunksDone(old(S()), S(), first, f, off, src, i, limit) && (i == 0 ==> S() == old(S()))
      ensures !panicked && i < |src| ==> off + i > ino[f].size || off + i + Min(CHUNK, |src| - i) > MAXFILE * BSIZE
      ensures panicked ==> Full(used)
    {
      ghost var s, c := S(), 0;
      i, panicked, ops := 0, false, [];
      NoChunks(s, first, f, off, src, limit);
      while i < |src|
        invariant i <= |src| && off + i < UINT && (i == |src| || i == ChunkAt(c)) && (i == 0 ==> S() == s)
        invariant ChunksDone(s, S(), first, f, off, src, i, limit) && AllSmall(ops, |s.used|)
        decreases |src| - i
      {
        var r, op := FileWriteTurn(f, off, src, i, Min(CHUNK, |src| - i), limit, s, c);
        if r.None? {
          return i, true, ops;
        }
        OneMoreSmall(ops, op, |s.used|);
        ops := ops + [op];
        if r.value < 0 {
          return i, false, ops;
        }
        c := c + 1;
        i := i + r.value;
      }
    }

    /** One transaction of `filewrite`, from `begin_op` to `end_op`; `None` is a panic. */
    method FileWriteTurn(f: nat, off: nat, src: seq<byte>, i: nat, n1: nat, limit: nat, ghost s: State, ghost c: nat)
      returns (r: Option<int>, ghost op: set<nat>)
      requires ChunksDone(s, S(), first, f, off, src, i, limit) && 0 < n1 <= CHUNK && i + n1 <= |src| < INT && i == ChunkAt(c) && off + i < UINT
      modifies this
      ensures r.Some? ==> |op| <= 6 + BitmapBlocks(|s.used|)
      ensures r.Some? && r.value < 0 ==> S() == old(S()) && (off + i > ino[f].size || off + i + n1 > MAXFILE * BSIZE)
      ensures r.Some? && r.value >= 0 ==> r.value == n1 && off + i + n1 < UINT && ChunksDone(s, S(), first, f, off, src, i + n1, limit)
      ensures r.None? ==> Full(used)
    {
      logged := {};
      ghost var before := S();
      var count, panicked := Writei(f, off + i, src[i..i + n1], Left(limit, i));
      if panicked {
        return None, {};
      }
      if count >= 0 {
        ChunkDone(s, before, S(), first, bmapstart, logged, Iblock(inodestart, f), f, off, src, i, n1, limit, c);
      }
      r, op := Some(count), logged;
    }

    /** `writei` from memory of which `limit` bytes can be read. */
    method Writei(f: nat, off: nat, src: seq<byte>, limit: nat) returns (r: int, panicked: bool)
      requires FilesOk(S(), first) && f < |ino| && off < UINT && |src| < UINT
      modifies this
      ensures !panicked ==> (r == -1 <==> off > old(ino[f].size) || off + |src| > MAXFILE * BSIZE)
      ensures !panicked && r == -1 ==> S() == old(S()) && logged == old(logged)
      ensures !panicked && r != -1 ==> r == |src|
      ensures !panicked && r != -1 ==>
                WriteiResult(old(S()), S(), first, bmapstart, old(logged), logged, Iblock(inodestart, f), f, off, src, limit)
      ensures panicked ==> old(ino[f].size) < off + |src| && Full(used)
    {
      if off > ino[f].size || off + |src| >= UINT {
        return -1, false;
      }
      if off + |src| > MAXFILE * BSIZE {
        return -1, false;
      }
      ghost var s := S();
      var tot;
      tot, panicked := WriteLoop(f, off, src, limit);
      if panicked {
        return -1, true;
      }
      ghost var s', now := S(), logged;
      SizeKept(s, s', first, bmapstart, old(logged), now, f, off, src, limit);
      if |src| > 0 {
        Extend(f, off + tot);
      } else {
        assert S() == Resized(S(), f, ino[f].size);
      }
      WriteiDone(s, s', S(), first, bmapstart, old(logged), now, logged, Iblock(inodestart, f), f, off, src, limit);
      r := |src|;
    }

    /** The end of `writei`: the size grows to `end` if that is larger, and the inode is written back. */
    method Extend(f: nat, end: nat)
      requires f < |ino|
      modifies this`ino, this`logged
      ensures S() == Resized(old(S()), f, if end > old(ino[f].size) then end else old(ino[f].size))
      ensures logged == old(logged) + {Iblock(inodestart, f)}
    {
      if end > ino[f].size {
        ino := ino[f := ino[f].(size := end)];
      }
      logged := logged + {Iblock(inodestart, f)};
    }
  }

  /** The block that a failing copy leaves changed in the cache and not in the log. */
  ghost function Torn(s: State, f: nat, off: nat, n: nat, limit: nat): set<nat>
    requires f < |s.ino| && |s.ino[f].addrs| == NDIRECT + 1 && off + n <= MAXFILE * BSIZE
  {
    if limit >= n then {} else {Slot(s, f, SlotOf((off + Whole(off, n, limit)) / BSIZE))}
  }

  /** Truncation empties its file and leaves every other file alone. */
  lemma {:induction false} TruncatesFiles(s: State, first: nat, f: nat, s': State)
    requires FilesOk(s, first) && Truncates(s, f, s')
    ensures FilesOk(s', first) && Files(s', first) == Files(s, first)[f := []]
  {
    TruncatesOwned(s, first, f, s');
    forall g | 0 <= g < |s.ino| && g != f ensures NoHoles(s', g, s'.ino[g].size) && File(s', g) == File(s, g) {
      forall bn | 0 <= bn < MAXFILE ensures Slot(s', g, SlotOf(bn)) == Slot(s, g, SlotOf(bn)) {
        TruncatesSlots(s, first, f, s', g, SlotOf(bn));
      }
      assert NoHoles(s, g, s.ino[g].size);
      forall i | 0 <= i < s.ino[g].size ensures Raw(s', g, i) == Raw(s, g, i) {}
    }
  }

  /** Writing in two pieces is writing once. */
  lemma {:induction false} WrittenTwice(file: seq<byte>, off: nat, a: seq<byte>, b: seq<byte>)
    requires off <= |file|
    ensures off + |a| <= |Written(file, off, a)|
    ensures Written(Written(file, off, a), off + |a|, b) == Written(file, off, a + b)
  {
    WrittenAt(file, off, a);
    WrittenAt(Written(file, off, a), off + |a|, b);
    WrittenAt(file, off, a + b);
  }

  /** What the loop of `writei` did. */
  ghost predicate LoopWrote(s: State, s': State, first: nat, bmapstart: nat, was: set<nat>, now: set<nat>,
                            f: nat, off: nat, src: seq<byte>, limit: nat)
  {
    && off + |src| <= MAXFILE * BSIZE && Owned(s', first) && f < |s'.ino|
    && Progress(s, s', first, bmapstart, was, now, f, off, src, Min(limit, |src|), |src|, Torn(s', f, off, |src|, limit))
  }

  lemma {:induction false} SizeKept(s: State, s': State, first: nat, bmapstart: nat, was: set<nat>, now: set<nat>,
                                    f: nat, off: nat, src: seq<byte>, limit: nat)
    requires LoopWrote(s, s', first, bmapstart, was, now, f, off, src, limit)
    ensures |s.ino| == |s'.ino| && s'.ino[f].size == s.ino[f].size
  {
    assert Unfolded(0, s, s');
  }

  /** What it did in the turns that wrote the first `tot` bytes. */
  ghost predicate LoopAt(s: State, s': State, first: nat, bmapstart: nat, was: set<nat>, now: set<nat>,
                         f: nat, off: nat, src: seq<byte>, limit: nat, tot: nat)
  {
    AtBlock(off, |src|, limit, tot) && Progress(s, s', first, bmapstart, was, now, f, off, src, tot, tot, {})
  }

  lemma {:induction false} LoopBegins(s: State, first: nat, bmapstart: nat, was: set<nat>, f: nat, off: nat, src: seq<byte>, limit: nat)
    requires Owned(s, first) && f < |s.ino| && off + |src| <= MAXFILE * BSIZE
    ensures LoopAt(s, s, first, bmapstart, was, was, f, off, src, limit, 0)
  {
    assert Wrote(s, s, first, f, off, src[..0]) && Logs(s, s, bmapstart, was, was, f, WriteSlots(off, 0));
  }

  /** The turn in which the copy fails. */
  lemma {:induction false} LoopStops(s: State, s': State, first: nat, bmapstart: nat, was: set<nat>, now: set<nat>,
                                     f: nat, off: nat, src: seq<byte>, limit: nat, tot: nat, m: nat)
    requires off + |src| <= MAXFILE * BSIZE && Whole(off, |src|, limit) == tot < |src| && tot + m <= |src| && limit < |src|
    requires Owned(s', first) && f < |s'.ino|
    requires Progress(s, s', first, bmapstart, was, now, f, off, src, limit, tot + m, {Slot(s', f, SlotOf((off + tot) / BSIZE))})
    ensures LoopWrote(s, s', first, bmapstart, was, now, f, off, src, limit)
  {
    assert Unfolded(0, s, s');
    WriteSlotsGrow(off, tot + m, |src| - tot - m);
    LogsSlots(s, s', bmapstart, was, now, f, WriteSlots(off, tot + m), WriteSlots(off, |src|));
  }

  /** The file, the logged blocks and the changed blocks after `writei`. */
  ghost predicate WriteiResult(s: State, s': State, first: nat, bmapstart: nat, was: set<nat>, now: set<nat>, iblock: nat,
                               f: nat, off: nat, src: seq<byte>, limit: nat)
  {
    && FilesOk(s', first) && f < |s'.ino|
    && forall k {:trigger Unfolded(k, s, s')} :: Unfolded(k, s, s') ==>
         && FilesOk(s, first) && |s.ino| == |s'.ino| && |s'.used| == |s.used| && off <= s.ino[f].size && off + |src| <= MAXFILE * BSIZE
         && Files(s', first) == Files(s, first)[f := Arrived(Files(s, first)[f], off, src, limit)]
         && MayLog(s', bmapstart, was, now, iblock, f, off, |src|)
         && Covered(s, s', bmapstart, now, Torn(s', f, off, |src|, limit)) && (|src| > 0 ==> iblock in now)
  }

  lemma {:induction false} WriteiDone(s: State, s': State, s'': State, first: nat, bmapstart: nat, was: set<nat>, now: set<nat>, now': set<nat>,
                                      iblock: nat, f: nat, off: nat, src: seq<byte>, limit: nat)
    requires FilesOk(s, first) && f < |s.ino| && LoopWrote(s, s', first, bmapstart, was, now, f, off, src, limit) && off <= s.ino[f].size
    requires s'' == Resized(s', f, SizeAfter(s.ino[f].size, off, Whole(off, |src|, limit))) && (now' == now + {iblock} || (now' == now && src == []))
    ensures WriteiResult(s, s'', first, bmapstart, was, now', iblock, f, off, src, limit)
  {
    assert Unfolded(0, s, s');
    var size := SizeAfter(s.ino[f].size, off, Whole(off, |src|, limit));
    WroteFiles(s, s', first, f, off, src[..Min(limit, |src|)], Whole(off, |src|, limit));
    ResizedCovered(s, s', first, bmapstart, was, now, iblock, f, off, src, limit, size);
  }

  lemma {:induction false} ResizedCovered(s: State, s': State, first: nat, bmapstart: nat, was: set<nat>, now: set<nat>, iblock: nat,
                                          f: nat, off: nat, src: seq<byte>, limit: nat, size: nat)
    requires LoopWrote(s, s', first, bmapstart, was, now, f, off, src, limit)
    ensures var s'' := Resized(s', f, size);
            && MayLog(s'', bmapstart, was, now, iblock, f, off, |src|) && MayLog(s'', bmapstart, was, now + {iblock}, iblock, f, off, |src|)
            && Covered(s, s'', bmapstart, now, Torn(s'', f, off, |src|, limit))
            && Covered(s, s'', bmapstart, now + {iblock}, Torn(s'', f, off, |src|, limit))
  {
    assert Unfolded(0, s, s');
    var s'', ks := Resized(s', f, size), WriteSlots(off, |src|);
    forall x | x in now + {iblock} ensures x in was || x == iblock || InBitmap(bmapstart, |s''.used|, x) || InSlots(s'', f, ks, x) {
      assert InSlots(s', f, ks, x) ==> InSlots(s'', f, ks, x);
    }
    if limit < |src| { ResizedSlots(s', first, f, size, f, SlotOf((off + Whole(off, |src|, limit)) / BSIZE)); }
  }

  lemma {:induction false} ChunkOf(src: seq<byte>, tot: nat, q: nat)
    requires tot + q <= |src|
    ensures src[..tot] + src[tot..tot + q] == src[..tot + q]
  {
  }

  /** The bytes after the first `i` that can be read. */
  function Left(limit: nat, i: nat): nat { if limit > i then limit - i else 0 }

  /** `Whole` for `filewrite`, which starts afresh every `CHUNK` bytes. */
  function FileWhole(off: nat, n: nat, limit: nat): (tot: nat)
    ensures tot <= n && tot <= limit && (tot == n <==> limit >= n)
  {
    var i := limit / CHUNK * CHUNK;
    if limit >= n then n else i + Whole(off + i, CHUNK, limit - i)
  }

  ghost function FileArrived(file: seq<byte>, off: nat, src: seq<byte>, limit: nat): seq<byte>
    requires off <= |file|
  {
    Reached(file, off, src, Min(limit, |src|), FileWhole(off, |src|, limit))
  }

  /** The chunk after the first `i` bytes, if those could be read. */
  lemma {:induction false} ArrivedNext(file: seq<byte>, off: nat, src: seq<byte>, i: nat, n: nat, limit: nat, c: nat)
    requires off <= |file| && 0 < n <= CHUNK && i + n <= |src| && i == ChunkAt(c) && i <= limit
    requires off + i <= |FileArrived(file, off, src[..i], limit)|
    ensures Arrived(FileArrived(file, off, src[..i], limit), off + i, src[i..i + n], Left(limit, i)) == FileArrived(file, off, src[..i + n], limit)
  {
    ChunkWhole(off, i, n, limit, c);
    ReachedNext(file, off, src, i, n, Min(limit - i, n), Whole(off + i, n, limit - i));
  }

  lemma {:induction false} ReachedNext(file: seq<byte>, off: nat, src: seq<byte>, i: nat, n: nat, q: nat, w: nat)
    requires off <= |file| && i + n <= |src| && w <= q <= n
    ensures var cur := Reached(file, off, src[..i], i, i);
            off + i <= |cur| && Reached(cur, off + i, src[i..i + n], q, w) == Reached(file, off, src[..i + n], i + q, i + w)
  {
    ChunkOfChunk(src, i, n, q);
    CutTwice(file, off, src[..i], src[i..i + n][..q], w);
  }

  lemma {:induction false} ChunkOfChunk(src: seq<byte>, i: nat, n: nat, q: nat)
    requires i + n <= |src| && q <= n
    ensures src[..i] + src[i..i + n][..q] == src[..i + n][..i + q]
  {
  }

  lemma {:induction false} CutTwice(file: seq<byte>, off: nat, a: seq<byte>, b: seq<byte>, w: nat)
    requires off <= |file| && w <= |b|
    ensures var cur := Written(file, off, a);
            && off + |a| <= |cur| && SizeAfter(|cur|, off + |a|, w) <= |Written(cur, off + |a|, b)|
            && SizeAfter(|file|, off, |a| + w) <= |Written(file, off, a + b)|
            && Written(cur, off + |a|, b)[..SizeAfter(|cur|, off + |a|, w)] == Written(file, off, a + b)[..SizeAfter(|file|, off, |a| + w)]
  {
    WrittenAt(file, off, a);
    WrittenTwice(file, off, a, b);
    WrittenAt(file, off, a + b);
  }

  /** Where the transaction with index `c` of `filewrite` starts. */
  ghost function ChunkAt(c: nat): nat {
    if c == 0 then 0 else ChunkAt(c - 1) + CHUNK
  }

  lemma {:induction false} ChunkStart(c: nat, x: nat)
    requires ChunkAt(c) <= x < ChunkAt(c) + CHUNK
    ensures x / CHUNK * CHUNK == ChunkAt(c)
  {
    assert CHUNK == 3072;
    if c > 0 { ChunkStart(c - 1, x - CHUNK); }
  }

  lemma {:induction false} ChunkWhole(off: nat, i: nat, n: nat, limit: nat, c: nat)
    requires 0 < n <= CHUNK && i == ChunkAt(c)
    ensures i <= limit ==> FileWhole(off, i + n, limit) == i + Whole(off + i, n, limit - i)
    ensures limit < i ==> FileWhole(off, i + n, limit) == FileWhole(off, i, limit)
  {
    if i <= limit < i + n { ChunkStart(c, limit); }
  }

  /** Nothing arrives after a failed copy. */
  lemma {:induction false} ArrivedNoMore(file: seq<byte>, off: nat, src: seq<byte>, i: nat, n: nat, limit: nat, c: nat)
    requires off <= |file| && 0 < n <= CHUNK && i + n <= |src| && i == ChunkAt(c) && limit < i
    requires off + i <= |FileArrived(file, off, src[..i], limit)|
    ensures Arrived(FileArrived(file, off, src[..i], limit), off + i, src[i..i + n], Left(limit, i)) == FileArrived(file, off, src[..i + n], limit)
  {
    var cur := FileArrived(file, off, src[..i], limit);
    ChunkWhole(off, i, n, limit, c);
    assert Written(cur, off + i, src[i..i + n][..0]) == cur;
    assert src[..i][..limit] == src[..i + n][..limit];
  }

  /** Every transaction logs few blocks, on a disk of `n` blocks. */
  ghost predicate AllSmall(ops: seq<set<nat>>, n: nat) {
    forall op :: op in ops ==> |op| <= 6 + BitmapBlocks(n)
  }

  lemma {:induction false} OneMoreSmall(ops: seq<set<nat>>, op: set<nat>, n: nat)
    requires AllSmall(ops, n) && |op| <= 6 + BitmapBlocks(n)
    ensures AllSmall(ops + [op], n)
  {
  }

  /** The files after the first `i` bytes of `filewrite`. */
  ghost predicate ChunksDone(s: State, s': State, first: nat, f: nat, off: nat, src: seq<byte>, i: nat, limit: nat) {
    && FilesOk(s', first) && f < |s'.ino|
    && forall k {:trigger Unfolded(k, s, s')} :: Unfolded(k, s, s') ==>
         && FilesOk(s, first) && |s.ino| == |s'.ino| && |s'.used| == |s.used| && i <= |src|
         && (off > s.ino[f].size ==> i == 0 && Files(s', first) == Files(s, first))
         && (off <= s.ino[f].size ==> Files(s', first) == Files(s, first)[f := FileArrived(Files(s, first)[f], off, src[..i], limit)])
  }

  lemma {:induction false} NoChunks(s: State, first: nat, f: nat, off: nat, src: seq<byte>, limit: nat)
    requires FilesOk(s, first) && f < |s.ino|
    ensures ChunksDone(s, s, first, f, off, src, 0, limit)
  {
    var file := Files(s, first)[f];
    if off <= |file| {
      assert FileArrived(file, off, src[..0], limit) == file;
    }
  }

  lemma {:induction false} ChunkDone(s: State, s': State, s'': State, first: nat, bmapstart: nat, logged: set<nat>, iblock: nat,
                                     f: nat, off: nat, src: seq<byte>, i: nat, n: nat, limit: nat, c: nat)
    requires ChunksDone(s, s', first, f, off, src, i, limit) && 0 < n <= CHUNK && i + n <= |src| && i == ChunkAt(c)
    requires WriteiResult(s', s'', first, bmapstart, {}, logged, iblock, f, off + i, src[i..i + n], Left(limit, i))
    ensures ChunksDone(s, s'', first, f, off, src, i + n, limit) && |logged| <= 6 + BitmapBlocks(|s.used|)
  {
    assert Unfolded(0, s, s') && Unfolded(0, s', s'');
    ChunkLogsFewBlocks(s'', first, bmapstart, logged, iblock, f, off + i, n);
    var file := Files(s, first)[f];
    assert |Files(s', first)[f]| == s'.ino[f].size && |file| == s.ino[f].size;
    assert off <= |file|;
    if i <= limit { ArrivedNext(file, off, src, i, n, limit, c); } else { ArrivedNoMore(file, off, src, i, n, limit, c); }
  }

  lemma {:induction false} EmptyFilesOk(s: State, first: nat)
    requires |s.used| == |s.blk| < UINT && 0 < first <= |s.used| && s.own == map[]
    requires (forall b :: 0 <= b < |s.used| ==> s.used[b] == (b < first)) && (forall f :: 0 <= f < |s.ino| ==> s.ino[f] == EmptyInode())
    ensures FilesOk(s, first) && Files(s, first) == seq(|s.ino|, _ => [])
  {
    forall f, k | 0 <= f < |s.ino| && 0 <= k < SLOTS ensures SlotOwned(s, f, k) { assert s.ino[f] == EmptyInode(); }
  }

  lemma {:induction false} ReadsByte(s: State, first: nat, f: nat, pos: nat, a: nat, k: nat)
    requires Maps(s, first, f, pos / BSIZE, a) && a < |s.blk| && pos % BSIZE + k < BSIZE && pos + k < MAXFILE * BSIZE
    ensures Raw(s, f, pos + k) == s.blk[a][pos % BSIZE + k]
  {
    BlockOf(pos, k);
  }

  /** A chunk of a mapped block is a chunk of the file. */
  lemma {:induction false} ReadsChunk(s: State, first: nat, f: nat, off: nat, len: nat, tot: nat, q: nat, a: nat)
    requires FilesOk(s, first) && f < |s.ino| && off + len <= s.ino[f].size
    requires var pos := off + tot; pos % BSIZE + q <= BSIZE && tot + q <= len && tot < len && Maps(s, first, f, pos / BSIZE, a) && a < |s.blk|
    ensures var want, o := File(s, f)[off..off + len], (off + tot) % BSIZE; want[..tot] + s.blk[a][o..o + q] == want[..tot + q]
  {
    var pos, want, o := off + tot, File(s, f)[off..off + len], (off + tot) % BSIZE;
    var bytes := s.blk[a][o..o + q];
    forall k | 0 <= k < q ensures bytes[k] == want[tot + k] { ReadsByte(s, first, f, pos, a, k); }
    assert want[tot..tot + q] == bytes;
  }

  lemma {:induction false} BlockOf(pos: nat, k: nat)
    requires pos % BSIZE + k < BSIZE
    ensures (pos + k) / BSIZE == pos / BSIZE && (pos + k) % BSIZE == pos % BSIZE + k
  {
  }

  // ---------------------------------------------------------------------------
  // A failed copy that is reported as done

  /** A disk with one data block, which holds a file of two bytes. */
  ghost predicate TwoBytes(s: State) {
    && s.used == [true, true, true, true] && |s.blk| == 4 && s.blk[3] == Zeros() && s.own == map[3 := Ref(0, 0)]
    && s.ino == [Inode(EmptyInode().addrs[0 := 3], 2)]
  }

  lemma {:induction false} TwoBytesOk(s: State)
    requires TwoBytes(s)
    ensures FilesOk(s, 3) && Files(s, 3) == [[0, 0]]
  {
    assert s.ino[0].addrs[NDIRECT] == 0;
    forall f, k | 0 <= f < |s.ino| && 0 <= k < SLOTS ensures SlotOwned(s, f, k) { assert f == 0; }
    assert OwnerHolds(s, 3, 3);
    assert NoHoles(s, 0, 2);
    assert File(s, 0) == [Raw(s, 0, 0), Raw(s, 0, 1)];
  }

  lemma {:induction false} OneOfTwo()
    ensures Arrived([0, 0], 0, [7, 8], 1) == [7, 0]
  {
    assert Written([0, 0], 0, [7, 8][..1]) == [7, 0];
  }

  /** `writei` of 7 and 8 from memory of which only the first byte can be read: it returns 2, and then the file
      reads 7 and 0. */
  method FailedCopyIsReported() returns (r: int, data: seq<byte>)
    ensures r == 2 && data == [7, 0]
  {
    var fs := new FileSystem(1, 2, 3, 4, 1);
    fs.used, fs.ino := [true, true, true, true], [Inode(EmptyInode().addrs[0 := 3], 2)];
    fs.blk := [Zeros(), Zeros(), Zeros(), Zeros()];
    fs.own := map[3 := Ref(0, 0)];
    TwoBytesOk(fs.S());
    var panicked, tot;
    ghost var before := fs.S();
    r, panicked := fs.Writei(0, 0, [7, 8], 1);
    assert Unfolded(0, before, fs.S());
    OneOfTwo();
    tot, data := fs.Readi(0, 0, 2, 2);
  }
}
