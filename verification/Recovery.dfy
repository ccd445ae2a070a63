/** Recovery at boot, through the buffer cache (kernel/log.c, kernel/bio.c).

`install_trans` drops a pin of every block it installs.  At boot nobody has pinned anything, so the counts of
these buffers go below zero. */
module Recovery {
  import opened Options
  import opened Blocks
  import opened BufferCache
  import opened Sets
  import LogProtocol

  const ROOTDEV := 1

  // ---------------------------------------------------------------------------
  // The cache of one process

  ghost function RefOf(refs: map<int, nat>, b: int): nat {
    if b in refs then refs[b] else 0
  }

  /** A buffer shows the disk, has the count its block has in `refs`, and is locked by `me` if its block is in `held`. */
  ghost predicate BufOk(b: Buf, disk: Disk, refs: map<int, nat>, held: set<int>, me: nat) {
    && (b.dev == 0 ==> b.refcnt == 0 && b.holder == 0)
    && (b.dev != 0 ==>
          && b.dev == ROOTDEV && 0 <= b.blockno < |disk| && b.refcnt == RefOf(refs, b.blockno)
          && b.holder == (if b.blockno in held then me else 0) && (b.valid ==> b.data == disk[b.blockno]))
  }

  ghost predicate AllOk(bufs: seq<Buf>, disk: Disk, refs: map<int, nat>, held: set<int>, me: nat) {
    forall i :: 0 <= i < |bufs| ==> BufOk(bufs[i], disk, refs, held, me)
  }

  /** Blocks that are referenced or held have a buffer. */
  ghost predicate Kept(c: Cache, refs: map<int, nat>, held: set<int>) {
    forall b :: b in held || RefOf(refs, b) != 0 ==> !Miss(c, ROOTDEV, b)
  }

  ghost predicate State(c: Cache, disk: Disk, refs: map<int, nat>, held: set<int>, me: nat) {
    |c.bufs| == NBUF && Unique(c) && AllOk(c.bufs, disk, refs, held, me) && Kept(c, refs, held)
  }

  /** Replacing one buffer. */
  lemma {:induction false} Replaced(c: Cache, c': Cache, disk: Disk, refs: map<int, nat>, held: set<int>,
                                    disk': Disk, refs': map<int, nat>, held': set<int>, me: nat, i: nat, b: int)
    requires State(c, disk, refs, held, me) && i < NBUF && Matches(c.bufs[i], ROOTDEV, b)
    requires |c'.bufs| == NBUF && c'.bufs == c.bufs[i := c'.bufs[i]] && Matches(c'.bufs[i], ROOTDEV, b)
    requires |disk'| == |disk| && (forall x :: 0 <= x < |disk| && x != b ==> disk'[x] == disk[x])
    requires forall x :: x != b ==> RefOf(refs', x) == RefOf(refs, x) && (x in held' <==> x in held)
    requires BufOk(c'.bufs[i], disk', refs', held', me)
    ensures State(c', disk', refs', held', me)
  {
    forall j | 0 <= j < NBUF ensures BufOk(c'.bufs[j], disk', refs', held', me) { assert BufOk(c.bufs[j], disk, refs, held, me); }
    forall x | x in held' || RefOf(refs', x) != 0 ensures !Miss(c', ROOTDEV, x) {
      if x == b {
        assert Matches(c'.bufs[i], ROOTDEV, b);
      } else {
        var j :| 0 <= j < |c.bufs| && Matches(c.bufs[j], ROOTDEV, x);
        assert Matches(c'.bufs[j], ROOTDEV, x);
      }
    }
  }

  lemma {:induction false} SameRefs(c: Cache, disk: Disk, refs: map<int, nat>, refs': map<int, nat>, held: set<int>, me: nat)
    requires State(c, disk, refs, held, me) && forall b :: RefOf(refs', b) == RefOf(refs, b)
    ensures State(c, disk, refs', held, me)
  {
    forall j | 0 <= j < NBUF ensures BufOk(c.bufs[j], disk, refs', held, me) { assert BufOk(c.bufs[j], disk, refs, held, me); }
  }

  // ---------------------------------------------------------------------------
  // How many buffers are taken

  ghost function Busy(refs: map<int, nat>): set<int> {
    set b | b in refs && refs[b] != 0
  }

  ghost function Taken(bufs: seq<Buf>): set<int> {
    if bufs == [] then {}
    else Taken(bufs[..|bufs| - 1]) + (if bufs[|bufs| - 1].refcnt != 0 then {bufs[|bufs| - 1].blockno} else {})
  }

  ghost predicate Distinct(bufs: seq<Buf>) {
    forall i, j :: 0 <= i < j < |bufs| && bufs[i].refcnt != 0 && bufs[j].refcnt != 0 ==> bufs[i].blockno != bufs[j].blockno
  }

  lemma {:induction false} TakenAre(bufs: seq<Buf>, b: int)
    ensures b in Taken(bufs) <==> exists i :: 0 <= i < |bufs| && bufs[i].refcnt != 0 && bufs[i].blockno == b
  {
    if bufs != [] {
      TakenAre(bufs[..|bufs| - 1], b);
      assert forall i :: 0 <= i < |bufs| - 1 ==> bufs[..|bufs| - 1][i] == bufs[i];
    }
  }

  lemma {:induction false} TakenSize(bufs: seq<Buf>)
    requires Distinct(bufs)
    ensures |Taken(bufs)| <= |bufs| && (|Taken(bufs)| == |bufs| <==> forall i :: 0 <= i < |bufs| ==> bufs[i].refcnt != 0)
  {
    if bufs != [] {
      var front, last := bufs[..|bufs| - 1], bufs[|bufs| - 1];
      TakenSize(front);
      TakenAre(front, last.blockno);
      assert forall i :: 0 <= i < |front| ==> front[i] == bufs[i];
    }
  }

  /** Every buffer is taken exactly if as many blocks are referenced as there are buffers. */
  lemma {:induction false} BusyCount(c: Cache, disk: Disk, refs: map<int, nat>, held: set<int>, me: nat)
    requires State(c, disk, refs, held, me)
    ensures |Busy(refs)| <= NBUF && (|Busy(refs)| == NBUF <==> forall i :: 0 <= i < NBUF ==> c.bufs[i].refcnt != 0)
  {
    BusyDistinct(c, disk, refs, held, me);
    TakenSize(c.bufs);
    forall b ensures b in Busy(refs) <==> b in Taken(c.bufs) { BusyIsTaken(c, disk, refs, held, me, b); }
    assert Busy(refs) == Taken(c.bufs);
  }

  lemma {:induction false} BusyDistinct(c: Cache, disk: Disk, refs: map<int, nat>, held: set<int>, me: nat)
    requires State(c, disk, refs, held, me)
    ensures Distinct(c.bufs)
  {
    forall i, j | 0 <= i < j < |c.bufs| && c.bufs[i].refcnt != 0 && c.bufs[j].refcnt != 0 ensures c.bufs[i].blockno != c.bufs[j].blockno {
      assert BufOk(c.bufs[i], disk, refs, held, me) && BufOk(c.bufs[j], disk, refs, held, me);
    }
  }

  lemma {:induction false} BusyIsTaken(c: Cache, disk: Disk, refs: map<int, nat>, held: set<int>, me: nat, b: int)
    requires State(c, disk, refs, held, me)
    ensures b in Busy(refs) <==> b in Taken(c.bufs)
  {
    TakenAre(c.bufs, b);
    if b in Busy(refs) {
      assert RefOf(refs, b) != 0 && !Miss(c, ROOTDEV, b);
      var i :| 0 <= i < |c.bufs| && Matches(c.bufs[i], ROOTDEV, b);
      assert BufOk(c.bufs[i], disk, refs, held, me);
    } else {
      forall i | 0 <= i < |c.bufs| && c.bufs[i].refcnt != 0 ensures c.bufs[i].blockno != b { assert BufOk(c.bufs[i], disk, refs, held, me); }
    }
  }

  // ---------------------------------------------------------------------------
  // bread

  /** A held buffer with count 0 could be taken away; here there is none. */
  ghost predicate HeldCounted(refs: map<int, nat>, held: set<int>) {
    forall b :: b in held ==> RefOf(refs, b) != 0
  }

  lemma {:induction false} GotState(c: Cache, disk: Disk, refs: map<int, nat>, held: set<int>, me: nat, b: int, i: nat, c': Cache)
    requires State(c, disk, refs, held, me) && HeldCounted(refs, held) && Got(c, ROOTDEV, b, Some(i), c') && 0 <= b < |disk| && b !in held
    ensures State(c', disk, refs[b := Up(RefOf(refs, b))], held, me) && c'.bufs[i].holder == 0 && Matches(c'.bufs[i], ROOTDEV, b)
    ensures c.bufs[i].dev != 0 ==> c.bufs[i].blockno !in held
  {
    var refs' := refs[b := Up(RefOf(refs, b))];
    GotUnique(c, ROOTDEV, b, Some(i), c');
    assert BufOk(c.bufs[i], disk, refs, held, me);
    if Miss(c, ROOTDEV, b) {
      assert RefOf(refs, b) == 0;
      forall j | 0 <= j < NBUF ensures BufOk(c'.bufs[j], disk, refs', held, me) { assert BufOk(c.bufs[j], disk, refs, held, me); }
      forall x | x in held || RefOf(refs', x) != 0 ensures !Miss(c', ROOTDEV, x) {
        if x == b {
          assert Matches(c'.bufs[i], ROOTDEV, b);
        } else {
          var j :| 0 <= j < |c.bufs| && Matches(c.bufs[j], ROOTDEV, x);
          assert BufOk(c.bufs[j], disk, refs, held, me);
          assert Matches(c'.bufs[j], ROOTDEV, x);
        }
      }
    } else {
      Replaced(c, c', disk, refs, held, disk, refs', held, me, i, b);
    }
  }

  /** The caller got buffer `i` for block `b`. */
  ghost predicate Obtained(c: Cache, disk: Disk, i: nat, b: int, me: nat) {
    i < |c.bufs| && Matches(c.bufs[i], ROOTDEV, b) && c.bufs[i].holder == me && c.bufs[i].valid && 0 <= b < |disk| && c.bufs[i].data == disk[b]
  }

  lemma {:induction false} ReadState(c: Cache, disk: Disk, refs: map<int, nat>, held: set<int>, me: nat, b: int, i: nat, c': Cache)
    requires State(c, disk, refs, held, me) && 0 <= b < |disk| && i < NBUF && Matches(c.bufs[i], ROOTDEV, b)
    requires var h := SetHolder(c, i, me); c' == if c.bufs[i].valid then h else Filled(h, i, disk)
    ensures State(c', disk, refs, held + {b}, me) && Obtained(c', disk, i, b, me)
  {
    assert BufOk(c.bufs[i], disk, refs, held, me);
    Replaced(c, c', disk, refs, held, disk, refs, held + {b}, me, i, b);
  }

  /** `bread`, by the only process there is; `None` is the panic of `bget`. */
  method Bread(bc: Bcache, b: int, disk: Disk, me: nat, ghost refs: map<int, nat>, ghost held: set<int>) returns (r: Option<nat>)
    requires bc.Valid() && State(bc.c, disk, refs, held, me) && HeldCounted(refs, held) && 0 <= b < |disk| && b !in held && me != 0
    modifies bc`c, bc.buf
    ensures bc.Valid()
    ensures r.None? <==> RefOf(refs, b) == 0 && |Busy(refs)| == NBUF
    ensures r.Some? ==> State(bc.c, disk, refs[b := Up(RefOf(refs, b))], held + {b}, me) && Obtained(bc.c, disk, r.value, b, me)
    ensures forall j, x :: x in held && old(Obtained(bc.c, disk, j, x, me)) ==> Obtained(bc.c, disk, j, x, me)
  {
    ghost var c := bc.c;
    BusyCount(c, disk, refs, held, me);
    r := bc.Bget(ROOTDEV, b);
    CanGet(c, disk, refs, held, me, b, r, bc.c);
    if r.None? {
      return;
    }
    GotState(c, disk, refs, held, me, b, r.value, bc.c);
    ghost var got := bc.c;
    var ok := bc.Acquire(r.value, me);
    bc.Fill(r.value, disk);
    ReadState(got, disk, refs[b := Up(RefOf(refs, b))], held, me, b, r.value, bc.c);
  }

  lemma {:induction false} CanGet(c: Cache, disk: Disk, refs: map<int, nat>, held: set<int>, me: nat, b: int, r: Option<nat>, c': Cache)
    requires State(c, disk, refs, held, me) && Got(c, ROOTDEV, b, r, c')
    ensures r.None? <==> RefOf(refs, b) == 0 && |Busy(refs)| == NBUF
  {
    BusyCount(c, disk, refs, held, me);
    if r.Some? && RefOf(refs, b) == 0 {
      assert BufOk(c.bufs[r.value], disk, refs, held, me);
      assert c.bufs[r.value].refcnt == 0;
    }
  }

  // ---------------------------------------------------------------------------
  // What is done with the buffer

  lemma {:induction false} StoredState(c: Cache, disk: Disk, refs: map<int, nat>, held: set<int>, me: nat, b: int, i: nat, data: Block)
    requires State(c, disk, refs, held, me) && Obtained(c, disk, i, b, me)
    ensures State(Stored(c, i, data), disk[b := data], refs, held, me) && Obtained(Stored(c, i, data), disk[b := data], i, b, me)
  {
    assert BufOk(c.bufs[i], disk, refs, held, me);
    Replaced(c, Stored(c, i, data), disk, refs, held, disk[b := data], refs, held, me, i, b);
  }

  lemma {:induction false} UnpinnedState(c: Cache, disk: Disk, refs: map<int, nat>, held: set<int>, me: nat, b: int, i: nat)
    requires State(c, disk, refs, held, me) && Obtained(c, disk, i, b, me)
    ensures var c' := SetRef(c, i, Down(c.bufs[i].refcnt));
            State(c', disk, refs[b := Down(RefOf(refs, b))], held, me) && Obtained(c', disk, i, b, me)
  {
    assert BufOk(c.bufs[i], disk, refs, held, me);
    Replaced(c, SetRef(c, i, Down(c.bufs[i].refcnt)), disk, refs, held, disk, refs[b := Down(RefOf(refs, b))], held, me, i, b);
  }

  lemma {:induction false} ReleasedState(c: Cache, disk: Disk, refs: map<int, nat>, held: set<int>, me: nat, b: int, i: nat)
    requires State(c, disk, refs, held, me) && Obtained(c, disk, i, b, me)
    ensures State(Dropped(SetHolder(c, i, 0), i), disk, refs[b := Down(RefOf(refs, b))], held - {b}, me)
  {
    assert BufOk(c.bufs[i], disk, refs, held, me);
    Replaced(c, Dropped(SetHolder(c, i, 0), i), disk, refs, held, disk, refs[b := Down(RefOf(refs, b))], held - {b}, me, i, b);
  }

  /** `brelse` of a buffer obtained before. */
  method Release(bc: Bcache, i: nat, b: int, disk: Disk, me: nat, ghost refs: map<int, nat>, ghost held: set<int>)
    requires bc.Valid() && State(bc.c, disk, refs, held, me) && Obtained(bc.c, disk, i, b, me) && me != 0
    modifies bc`c, bc.buf, bc.next, bc.prev
    ensures bc.Valid() && State(bc.c, disk, refs[b := Down(RefOf(refs, b))], held - {b}, me)
    ensures forall j, x :: j != i && old(Obtained(bc.c, disk, j, x, me)) ==> Obtained(bc.c, disk, j, x, me)
  {
    ReleasedState(bc.c, disk, refs, held, me, b, i);
    var panicked := bc.Brelse(i, me);
  }

  // ---------------------------------------------------------------------------
  // install_trans and recover_from_log

  /** One less than nothing, for each block of a list. */
  ghost function Wrapped(lh: seq<int>): map<int, nat> {
    map b | b in lh :: WRAP - 1
  }

  ghost function Elements(lh: seq<int>): set<int> {
    if lh == [] then {} else Elements(lh[..|lh| - 1]) + {lh[|lh| - 1]}
  }

  lemma {:induction false} ElementsAre(lh: seq<int>, b: int)
    ensures b in Elements(lh) <==> b in lh
  {
    if lh != [] {
      ElementsAre(lh[..|lh| - 1], b);
      assert lh == lh[..|lh| - 1] + [lh[|lh| - 1]];
    }
  }

  lemma {:induction false} ElementsSize(lh: seq<int>)
    requires forall i, j :: 0 <= i < j < |lh| ==> lh[i] != lh[j]
    ensures |Elements(lh)| == |lh|
  {
    if lh != [] {
      ElementsSize(lh[..|lh| - 1]);
      ElementsAre(lh[..|lh| - 1], lh[|lh| - 1]);
    }
  }

  lemma {:induction false} WrappedBusy(lh: seq<int>)
    ensures Busy(Wrapped(lh)) == Elements(lh)
  {
    forall b ensures b in Elements(lh) <==> b in Busy(Wrapped(lh)) { ElementsAre(lh, b); }
  }

  /** Whether the two `bread`s of a turn find a buffer. */
  lemma {:induction false} TurnBusy(lh: seq<int>, tail: nat, slot: int)
    requires tail < |lh| && (forall i, j :: 0 <= i < j < |lh| ==> lh[i] != lh[j]) && slot !in lh
    ensures var refs := Wrapped(lh[..tail]);
            && RefOf(refs, slot) == 0 == RefOf(refs, lh[tail]) && |Busy(refs)| == tail
            && |Busy(refs[slot := 1])| == tail + 1 && RefOf(refs[slot := 1], lh[tail]) == 0
  {
    var done := lh[..tail];
    ElementsSize(done);
    WrappedBusy(done);
    assert slot !in done && lh[tail] !in done;
    BusyMore(Wrapped(done), slot);
  }

  lemma {:induction false} BusyMore(refs: map<int, nat>, b: int)
    requires b !in refs
    ensures |Busy(refs[b := 1])| == |Busy(refs)| + 1
  {
    assert Busy(refs[b := 1]) == Busy(refs) + {b};
  }

  lemma {:induction false} TurnState(c: Cache, disk: Disk, lh: seq<int>, tail: nat, slot: int, me: nat)
    requires tail < |lh| && slot !in lh
    requires State(c, disk, Wrapped(lh[..tail])[slot := 1][lh[tail] := 1][lh[tail] := 0][slot := 0][lh[tail] := WRAP - 1], {}, me)
    ensures State(c, disk, Wrapped(lh[..tail + 1]), {}, me)
  {
    var refs := Wrapped(lh[..tail])[slot := 1][lh[tail] := 1][lh[tail] := 0][slot := 0][lh[tail] := WRAP - 1];
    assert lh[..tail + 1] == lh[..tail] + [lh[tail]];
    SameRefs(c, disk, refs, Wrapped(lh[..tail + 1]), {}, me);
  }

  /** A turn of `install_trans`. */
  method InstallBlock(bc: Bcache, lay: Layout, lh: seq<int>, tail: nat, disk: Disk, me: nat) returns (panicked: bool, disk': Disk)
    requires bc.Valid() && ListOk(lay, |disk|, lh) && tail < |lh| && State(bc.c, disk, Wrapped(lh[..tail]), {}, me) && me != 0
    modifies bc`c, bc.buf, bc.next, bc.prev
    ensures bc.Valid() && (panicked <==> tail + 1 == NBUF)
    ensures !panicked ==> disk' == disk[lh[tail] := disk[lay.start + 1 + tail]] && State(bc.c, disk', Wrapped(lh[..tail + 1]), {}, me)
  {
    ghost var refs := Wrapped(lh[..tail]);
    var slot, home := lay.start + tail + 1, lh[tail];
    TurnBusy(lh, tail, slot);
    var lbuf := Bread(bc, slot, disk, me, refs, {});
    if lbuf.None? {
      return true, disk;
    }
    ghost var refs1 := refs[slot := 1];
    assert {} + {slot} == {slot};
    var dbuf := Bread(bc, home, disk, me, refs1, {slot});
    if dbuf.None? {
      return true, disk;
    }
    assert {slot} + {home} == {slot, home};
    panicked := false;
    disk' := FinishBlock(bc, lbuf.value, dbuf.value, slot, home, disk, me, refs1[home := 1]);
    TurnState(bc.c, disk', lh, tail, slot, me);
  }

  /** The turn from `memmove` on. */
  method FinishBlock(bc: Bcache, lbuf: nat, dbuf: nat, slot: int, home: int, disk: Disk, me: nat, ghost refs: map<int, nat>) returns (disk': Disk)
    requires bc.Valid() && me != 0 && slot != home && State(bc.c, disk, refs, {slot, home}, me)
    requires Obtained(bc.c, disk, lbuf, slot, me) && Obtained(bc.c, disk, dbuf, home, me) && RefOf(refs, slot) == RefOf(refs, home) == 1
    modifies bc`c, bc.buf, bc.next, bc.prev
    ensures bc.Valid() && disk' == disk[home := disk[slot]]
    ensures State(bc.c, disk', refs[home := 0][slot := 0][home := WRAP - 1], {}, me)
  {
    var data := bc.buf[lbuf].data;
    StoredState(bc.c, disk, refs, {slot, home}, me, home, dbuf, data);
    bc.Store(dbuf, data);
    var panicked;
    panicked, disk' := bc.Bwrite(dbuf, me, disk);
    UnpinnedState(bc.c, disk', refs, {slot, home}, me, home, dbuf);
    bc.Bunpin(dbuf);
    ReleaseBoth(bc, lbuf, dbuf, slot, home, disk', me, refs[home := 0]);
  }

  method ReleaseBoth(bc: Bcache, lbuf: nat, dbuf: nat, slot: int, home: int, disk: Disk, me: nat, ghost refs: map<int, nat>)
    requires bc.Valid() && me != 0 && slot != home && State(bc.c, disk, refs, {slot, home}, me) && RefOf(refs, slot) == 1 && RefOf(refs, home) == 0
    requires Obtained(bc.c, disk, lbuf, slot, me) && Obtained(bc.c, disk, dbuf, home, me)
    modifies bc`c, bc.buf, bc.next, bc.prev
    ensures bc.Valid() && State(bc.c, disk, refs[slot := 0][home := WRAP - 1], {}, me)
  {
    Release(bc, lbuf, slot, disk, me, refs, {slot, home});
    assert {slot, home} - {slot} == {home} && {home} - {home} == {};
    Release(bc, dbuf, home, disk, me, refs[slot := 0], {home});
  }

  lemma {:induction false} InstallStep(lay: Layout, disk: Disk, lh: seq<int>, tail: nat)
    requires ListOk(lay, |disk|, lh) && tail < |lh|
    ensures var ws := InstallWrites(lay, disk, lh);
            var d := Apply(disk, ws[..tail]);
            Apply(disk, ws[..tail + 1]) == d[lh[tail] := d[lay.start + 1 + tail]]
  {
    InstallPrefix(lay, disk, lh, tail, lay.start + 1 + tail);
    ApplyStep(disk, InstallWrites(lay, disk, lh), tail);
  }

  /** `install_trans` at boot. */
  method InstallTrans(bc: Bcache, lay: Layout, lh: seq<int>, disk: Disk, me: nat) returns (panicked: bool, disk': Disk)
    requires bc.Valid() && LogOk(lay, disk) && lh == Header(lay, disk) && State(bc.c, disk, map[], {}, me) && me != 0
    modifies bc`c, bc.buf, bc.next, bc.prev
    ensures bc.Valid() && (panicked <==> |lh| >= NBUF)
    ensures !panicked ==> disk' == Apply(disk, InstallWrites(lay, disk, lh)) && State(bc.c, disk', Wrapped(lh), {}, me)
  {
    ghost var ws := InstallWrites(lay, disk, lh);
    panicked, disk' := false, disk;
    assert Wrapped(lh[..0]) == map[] && ws[..0] == [];
    var tail := 0;
    while tail < |lh|
      invariant tail <= |lh| && tail < NBUF && !panicked && bc.Valid()
      invariant disk' == Apply(disk, ws[..tail]) && State(bc.c, disk', Wrapped(lh[..tail]), {}, me)
    {
      InstallStep(lay, disk, lh, tail);
      panicked, disk' := InstallBlock(bc, lay, lh, tail, disk', me);
      if panicked {
        return;
      }
      tail := tail + 1;
    }
    assert lh[..tail] == lh && ws[..tail] == ws;
  }

  /** `recover_from_log`.  It panics exactly if the log lists as many blocks as there are buffers.  Otherwise it
      leaves the recovered disk, and the buffers of the listed blocks with a count of one less than nothing. */
  method RecoverFromLog(bc: Bcache, lay: Layout, disk: Disk, me: nat) returns (panicked: bool, disk': Disk)
    requires bc.Valid() && LogOk(lay, disk) && State(bc.c, disk, map[], {}, me) && me != 0
    modifies bc`c, bc.buf, bc.next, bc.prev
    ensures bc.Valid() && (panicked <==> |Header(lay, disk)| >= NBUF)
    ensures !panicked ==> disk' == Recover(lay, disk) && State(bc.c, disk', Wrapped(Header(lay, disk)), {}, me)
  {
    var lh := ReadHead(bc, lay, disk, me);
    panicked, disk' := InstallTrans(bc, lay, lh, disk, me);
    if panicked {
      return;
    }
    RecoveredHead(lay, disk);
    disk' := ClearHead(bc, lay, lh, disk', me);
  }

  lemma {:induction false} RecoveredHead(lay: Layout, disk: Disk)
    requires LogOk(lay, disk)
    ensures var d := Apply(disk, InstallWrites(lay, disk, Header(lay, disk)));
            |d| == |disk| && d[lay.start] == disk[lay.start] && Recover(lay, disk) == d[lay.start := Encode(d[lay.start], [])]
  {
    var ws, last := InstallWrites(lay, disk, Header(lay, disk)), [Write(lay.start, Encode(disk[lay.start], []))];
    ApplyAppend(disk, ws, last);
    assert last[..0] == [];
    InstallPrefix(lay, disk, Header(lay, disk), |ws|, lay.start);
    assert ws[..|ws|] == ws;
  }

  /** `read_head`. */
  method ReadHead(bc: Bcache, lay: Layout, disk: Disk, me: nat) returns (lh: seq<int>)
    requires bc.Valid() && LogOk(lay, disk) && State(bc.c, disk, map[], {}, me) && me != 0
    modifies bc`c, bc.buf, bc.next, bc.prev
    ensures bc.Valid() && State(bc.c, disk, map[], {}, me) && lh == Header(lay, disk)
  {
    var head := Glance(bc, lay.start, disk, me);
    lh := Decode(head);
  }

  /** `log.lh.n = 0` and `write_head`. */
  method ClearHead(bc: Bcache, lay: Layout, lh: seq<int>, disk: Disk, me: nat) returns (disk': Disk)
    requires bc.Valid() && ListOk(lay, |disk|, lh) && |lh| < NBUF && State(bc.c, disk, Wrapped(lh), {}, me) && me != 0
    modifies bc`c, bc.buf, bc.next, bc.prev
    ensures bc.Valid() && disk' == disk[lay.start := Encode(disk[lay.start], [])] && State(bc.c, disk', Wrapped(lh), {}, me)
  {
    ghost var refs := Wrapped(lh);
    WrappedBusy(lh);
    ElementsSize(lh);
    assert lay.start !in lh;
    var buf := Bread(bc, lay.start, disk, me, refs, {});
    var data := Encode(bc.buf[buf.value].data, []);
    StoredState(bc.c, disk, refs[lay.start := 1], {lay.start}, me, lay.start, buf.value, data);
    bc.Store(buf.value, data);
    var panicked;
    panicked, disk' := bc.Bwrite(buf.value, me, disk);
    Release(bc, buf.value, lay.start, disk', me, refs[lay.start := 1], {lay.start});
    assert {lay.start} - {lay.start} == {};
    SameRefs(bc.c, disk', refs[lay.start := 1][lay.start := 0], refs, {}, me);
  }

  /** The counts recovery leaves behind: those of the listed blocks are one less than nothing, all others are zero.
      So they are balanced exactly if the log was empty. */
  lemma {:induction false} CountsAfterRecovery(c: Cache, disk: Disk, lh: seq<int>, me: nat)
    requires State(c, disk, Wrapped(lh), {}, me)
    ensures forall i :: 0 <= i < NBUF ==> c.bufs[i].refcnt == if c.bufs[i].dev == ROOTDEV && c.bufs[i].blockno in lh then WRAP - 1 else 0
    ensures forall b :: b in lh ==> !Miss(c, ROOTDEV, b)
    ensures (forall i :: 0 <= i < NBUF ==> c.bufs[i].refcnt == 0) <==> lh == []
  {
    forall i | 0 <= i < NBUF ensures c.bufs[i].refcnt == if c.bufs[i].dev == ROOTDEV && c.bufs[i].blockno in lh then WRAP - 1 else 0 {
      assert BufOk(c.bufs[i], disk, Wrapped(lh), {}, me);
    }
    forall b | b in lh ensures !Miss(c, ROOTDEV, b) { assert RefOf(Wrapped(lh), b) != 0; }
    if lh != [] {
      assert lh[0] in lh;
      var i :| 0 <= i < |c.bufs| && Matches(c.bufs[i], ROOTDEV, lh[0]);
    }
  }

  /** `bread` and `brelse` of a block, with nothing else referenced. */
  method Glance(bc: Bcache, b: int, disk: Disk, me: nat) returns (data: Block)
    requires bc.Valid() && State(bc.c, disk, map[], {}, me) && 0 <= b < |disk| && me != 0
    modifies bc`c, bc.buf, bc.next, bc.prev
    ensures bc.Valid() && State(bc.c, disk, map[], {}, me) && data == disk[b]
  {
    assert Busy(map[]) == {};
    var buf := Bread(bc, b, disk, me, map[], {});
    data := bc.buf[buf.value].data;
    Release(bc, buf.value, b, disk, me, map[b := 1], {b});
    assert {b} - {b} == {};
    SameRefs(bc.c, disk, map[b := 0], map[], {}, me);
  }

  /** `binit`, and `fsinit` by the first process: the superblock is read, then the log is recovered. */
  method Boot(lay: Layout, disk: Disk) returns (bc: Bcache, panicked: bool, disk': Disk)
    requires LogOk(lay, disk) && |disk| > 1
    ensures fresh(bc) && fresh(bc.buf) && fresh(bc.next) && fresh(bc.prev) && bc.Valid()
    ensures panicked <==> |Header(lay, disk)| >= NBUF
    ensures !panicked ==> disk' == Recover(lay, disk) && State(bc.c, disk', Wrapped(Header(lay, disk)), {}, 1)
    ensures !panicked ==> ((forall i :: 0 <= i < NBUF ==> bc.c.bufs[i].refcnt == 0) <==> Header(lay, disk) == [])
  {
    bc := new Bcache();
    var superblock := Glance(bc, 1, disk, 1);
    panicked, disk' := RecoverFromLog(bc, lay, disk, 1);
    if !panicked { CountsAfterRecovery(bc.c, disk', Header(lay, disk), 1); }
  }

  /** Where each cached block is. */
  ghost function Places(c: Cache): map<int, nat>
    requires |c.bufs| == NBUF && Unique(c)
  {
    map i: nat | i < NBUF && c.bufs[i].dev == ROOTDEV :: c.bufs[i].blockno := i
  }

  ghost function AfterBoot(c: Cache, disk: Disk): LogProtocol.State
    requires |c.bufs| == NBUF && Unique(c)
  {
    LogProtocol.State(c, seq(NBUF, _ => {}), Places(c), disk, disk, disk, [], {}, {}, LogProtocol.Idle, 0)
  }

  lemma {:induction false} PlacesMap(c: Cache, disk: Disk, refs: map<int, nat>, me: nat)
    requires State(c, disk, refs, {}, me)
    ensures LogProtocol.Mapped(c.bufs, Places(c), |disk|) && LogProtocol.Shown(c.bufs, disk)
  {
    var at := Places(c);
    forall i | 0 <= i < NBUF ensures BufOk(c.bufs[i], disk, refs, {}, me) {}
    forall i | 0 <= i < NBUF && c.bufs[i].dev == ROOTDEV ensures c.bufs[i].blockno in at && at[c.bufs[i].blockno] == i {}
    forall b | b in at ensures at[b] < NBUF && Matches(c.bufs[at[b]], ROOTDEV, b) {
      var i: nat :| i < NBUF && c.bufs[i].dev == ROOTDEV && c.bufs[i].blockno == b;
    }
  }

  lemma {:induction false} NobodyHolds(c: Cache, disk: Disk, refs: map<int, nat>, me: nat)
    requires State(c, disk, refs, {}, me)
    ensures forall i :: 0 <= i < NBUF ==> c.bufs[i].holder == 0
  {
    forall i | 0 <= i < NBUF ensures c.bufs[i].holder == 0 { assert BufOk(c.bufs[i], disk, refs, {}, me); }
  }

  /** What recovery leaves is a state in which a run of `LogProtocol` may begin exactly if the log was empty. */
  lemma {:induction false} RunsBegin(c: Cache, lay: Layout, disk: Disk, lh: seq<int>, me: nat)
    requires State(c, disk, Wrapped(lh), {}, me) && LogOk(lay, disk) && disk[lay.start][0] == 0
    ensures LogProtocol.Init(lay, AfterBoot(c, disk)) <==> lh == []
  {
    CountsAfterRecovery(c, disk, lh, me);
    PlacesMap(c, disk, Wrapped(lh), me);
    NobodyHolds(c, disk, Wrapped(lh), me);
    assert LogProtocol.AtRest(c.bufs, AfterBoot(c, disk).users) <==> lh == [];
  }

  // ---------------------------------------------------------------------------
  // A buffer in use is recycled

  /** Buffer `i` is locked by `me` for block `h` and has count 0; nobody else holds a buffer. */
  ghost predicate InUse(c: Cache, i: nat, h: int, me: nat) {
    && |c.bufs| == NBUF && i < NBUF && Matches(c.bufs[i], ROOTDEV, h) && c.bufs[i].refcnt == 0 && c.bufs[i].holder == me
    && forall j :: 0 <= j < NBUF && j != i ==> c.bufs[j].holder == 0
  }

  /** The blocks `xs` from index `k` on are not cached. */
  ghost predicate Absent(c: Cache, xs: seq<int>, k: nat) {
    forall m {:trigger xs[m]} :: k <= m < |xs| ==> Miss(c, ROOTDEV, xs[m])
  }

  /** The buffers used less recently than `i`. */
  ghost function Older(c: Cache, i: nat): set<nat>
    requires i < NBUF
  {
    set j: nat | j < NBUF && c.stamp[j] < c.stamp[i]
  }

  lemma {:induction false} OlderSize(c: Cache, i: nat)
    requires i < NBUF
    ensures |Older(c, i)| < NBUF
  {
    AllSize(NBUF, All());
    SubsetSize(Older(c, i) + {i}, All());
  }

  lemma {:induction false} AllSize(n: nat, all: set<nat>)
    requires forall j: nat :: j in all <==> j < n
    ensures |all| == n
  {
    if n == 0 {
      assert all == {};
    } else {
      AllSize(n - 1, all - {n - 1});
    }
  }

  /** Another process reads block `x` and releases it: the buffer in use is recycled now, or it has become older. */
  lemma {:induction false} ReadMakesOlder(c: Cache, i: nat, h: int, me: nat, other: nat, xs: seq<int>, k: nat, r: nat, got: Cache, read: Cache)
    requires InUse(c, i, h, me) && me != 0 && Absent(c, xs, k) && k < |xs| && (forall a, b :: 0 <= a < b < |xs| ==> xs[a] != xs[b])
    requires Got(c, ROOTDEV, xs[k], Some(r), got) && r != i
    requires |read.bufs| == NBUF && read.bufs == got.bufs[r := read.bufs[r]] && read.stamp == c.stamp && read.clock == c.clock
    requires read.bufs[r].refcnt == 1 && Matches(read.bufs[r], ROOTDEV, xs[k])
    requires (forall a :: 0 <= a < NBUF ==> c.stamp[a] <= c.clock) && (forall a, b :: 0 <= a < b < NBUF ==> c.stamp[a] != c.stamp[b])
    ensures var c' := Dropped(SetHolder(read, r, 0), r);
            InUse(c', i, h, me) && Absent(c', xs, k + 1) && |Older(c', i)| < |Older(c, i)|
  {
    var c' := Dropped(SetHolder(read, r, 0), r);
    assert Miss(c, ROOTDEV, xs[k]) && c'.bufs[r].refcnt == 0;
    assert c.stamp[r] <= c.stamp[i] && r in Older(c, i);
    assert Older(c', i) == Older(c, i) - {r};
    forall m {:trigger xs[m]} | k + 1 <= m < |xs| ensures Miss(c', ROOTDEV, xs[m]) { assert Miss(c, ROOTDEV, xs[m]); }
  }

  /** While `me` holds a buffer with count 0, another process reads as many uncached blocks as there are buffers,
      one after the other.  Before it is through, the buffer is recycled. */
  method RecycleInUse(bc: Bcache, i: nat, h: int, me: nat, other: nat, xs: seq<int>, disk: Disk) returns (k: nat)
    requires bc.Valid() && InUse(bc.c, i, h, me) && me != 0 && other != 0 && Absent(bc.c, xs, 0) && |xs| == NBUF
    requires (forall m :: 0 <= m < |xs| ==> 0 <= xs[m] < |disk|) && (forall a, b :: 0 <= a < b < |xs| ==> xs[a] != xs[b])
    modifies bc`c, bc.buf, bc.next, bc.prev
    ensures bc.Valid() && k < NBUF && bc.c.bufs[i].holder == me && Matches(bc.c.bufs[i], ROOTDEV, xs[k])
  {
    OlderSize(bc.c, i);
    k := 0;
    while true
      invariant bc.Valid() && InUse(bc.c, i, h, me) && Absent(bc.c, xs, k) && k + |Older(bc.c, i)| < NBUF
      decreases NBUF - k
    {
      var r := ReadAndRelease(bc, i, h, me, other, xs, k, disk);
      if r == i {
        return;
      }
      k := k + 1;
    }
  }

  /** `bread` and `brelse`, up to the moment when `bget` hands out buffer `i`. */
  method ReadAndRelease(bc: Bcache, i: nat, h: int, me: nat, other: nat, xs: seq<int>, k: nat, disk: Disk) returns (r: nat)
    requires bc.Valid() && InUse(bc.c, i, h, me) && me != 0 && other != 0 && Absent(bc.c, xs, k) && k < |xs|
    requires (forall m :: 0 <= m < |xs| ==> 0 <= xs[m] < |disk|) && (forall a, b :: 0 <= a < b < |xs| ==> xs[a] != xs[b])
    modifies bc`c, bc.buf, bc.next, bc.prev
    ensures bc.Valid()
    ensures r == i ==> bc.c.bufs[i].holder == me && Matches(bc.c.bufs[i], ROOTDEV, xs[k])
    ensures r != i ==> InUse(bc.c, i, h, me) && Absent(bc.c, xs, k + 1) && |Older(bc.c, i)| < |Older(old(bc.c), i)|
  {
    ghost var c := bc.c;
    assert Miss(c, ROOTDEV, xs[k]);
    var got := bc.Bget(ROOTDEV, xs[k]);
    r := got.value;
    if r == i {
      return;
    }
    ghost var g := bc.c;
    var ok := bc.Acquire(r, other);
    bc.Fill(r, disk);
    Stamps(bc);
    ReadMakesOlder(c, i, h, me, other, xs, k, r, g, bc.c);
    var panicked := bc.Brelse(r, other);
  }

  lemma {:induction false} Stamps(bc: Bcache)
    requires bc.Valid()
    ensures forall a, b :: 0 <= a < b < NBUF ==> bc.c.stamp[a] != bc.c.stamp[b]
  {
    forall a, b | 0 <= a < b < NBUF ensures bc.c.stamp[a] != bc.c.stamp[b] { assert a in All() && b in All(); }
  }

  /** What recovery leaves after it installed a block `h`: the first process reads `h` again and keeps it, a second one
      reads other blocks, and the buffer that the first process still holds is handed to the second. */
  method LoseBuffer(bc: Bcache, lh: seq<int>, h: int, xs: seq<int>, disk: Disk) returns (i: nat, k: nat, ghost before: Cache)
    requires bc.Valid() && State(bc.c, disk, Wrapped(lh), {}, 1) && h in lh && 0 <= h < |disk|
    requires |xs| == NBUF && Absent(bc.c, xs, 0)
    requires (forall m :: 0 <= m < |xs| ==> 0 <= xs[m] < |disk|) && (forall a, b :: 0 <= a < b < |xs| ==> xs[a] != xs[b])
    modifies bc`c, bc.buf, bc.next, bc.prev
    ensures Obtained(before, disk, i, h, 1)
    ensures bc.Valid() && k < NBUF && i < NBUF && bc.c.bufs[i].holder == 1 && Matches(bc.c.bufs[i], ROOTDEV, xs[k]) && xs[k] != h
  {
    ghost var c := bc.c;
    assert RefOf(Wrapped(lh), h) == WRAP - 1;
    var got := bc.Bget(ROOTDEV, h);
    i := got.value;
    GotState(c, disk, Wrapped(lh), {}, 1, h, i, bc.c);
    ghost var g := bc.c;
    var ok := bc.Acquire(i, 1);
    bc.Fill(i, disk);
    ReadState(g, disk, Wrapped(lh)[h := 0], {}, 1, h, i, bc.c);
    before := bc.c;
    LockedWithoutCount(before, disk, lh, h, i);
    StillAbsent(c, before, xs, h, i);
    k := RecycleInUse(bc, i, h, 1, 2, xs, disk);
  }

  lemma {:induction false} LockedWithoutCount(c: Cache, disk: Disk, lh: seq<int>, h: int, i: nat)
    requires State(c, disk, Wrapped(lh)[h := 0], {} + {h}, 1) && Obtained(c, disk, i, h, 1)
    ensures InUse(c, i, h, 1)
  {
    forall j | 0 <= j < NBUF ensures BufOk(c.bufs[j], disk, Wrapped(lh)[h := 0], {} + {h}, 1) {}
    forall j | 0 <= j < NBUF && j != i ensures c.bufs[j].holder == 0 {
      assert c.bufs[j].dev != 0 ==> !Matches(c.bufs[j], ROOTDEV, h);
    }
  }

  lemma {:induction false} StillAbsent(c: Cache, c': Cache, xs: seq<int>, h: int, i: nat)
    requires Absent(c, xs, 0) && |c.bufs| == |c'.bufs| && i < |c.bufs| && Matches(c.bufs[i], ROOTDEV, h) && Matches(c'.bufs[i], ROOTDEV, h)
    requires c'.bufs == c.bufs[i := c'.bufs[i]]
    ensures Absent(c', xs, 0) && forall m :: 0 <= m < |xs| ==> xs[m] != h
  {
    forall m {:trigger xs[m]} | 0 <= m < |xs| ensures Miss(c', ROOTDEV, xs[m]) && xs[m] != h { assert Miss(c, ROOTDEV, xs[m]); }
  }

  ghost function BlocksOf(bufs: seq<Buf>): (r: set<int>)
    ensures |r| <= |bufs|
  {
    if bufs == [] then {} else BlocksOf(bufs[1..]) + {bufs[0].blockno}
  }

  lemma {:induction false} BlocksOfAre(bufs: seq<Buf>, i: nat)
    requires i < |bufs|
    ensures bufs[i].blockno in BlocksOf(bufs)
  {
    if i > 0 { BlocksOfAre(bufs[1..], i - 1); }
  }

  /** Blocks that are not cached, as many as there are buffers. */
  method PickAbsent(bc: Bcache, disk: Disk) returns (xs: seq<int>)
    requires bc.Valid() && |disk| >= 2 * NBUF
    ensures |xs| == NBUF && Absent(bc.c, xs, 0)
    ensures (forall m :: 0 <= m < |xs| ==> 0 <= xs[m] < |disk|) && (forall a, b :: 0 <= a < b < |xs| ==> xs[a] != xs[b])
  {
    xs := [];
    ghost var cached: set<int> := {};
    var b := 0;
    while |xs| < NBUF
      invariant |xs| <= NBUF && b == |xs| + |cached| && |cached| <= NBUF && cached <= BlocksOf(bc.c.bufs) && (forall x :: x in cached ==> x < b)
      invariant Absent(bc.c, xs, 0) && (forall m :: 0 <= m < |xs| ==> 0 <= xs[m] < b)
      invariant forall a, b :: 0 <= a < b < |xs| ==> xs[a] != xs[b]
      decreases 2 * NBUF - b
    {
      var j := bc.Lookup(ROOTDEV, b);
      if j == HEAD {
        xs := xs + [b];
      } else {
        BlocksOfAre(bc.c.bufs, j);
        cached := cached + {b};
        SubsetSize(cached, BlocksOf(bc.c.bufs));
      }
      b := b + 1;
    }
  }

  /** The whole story, for every disk with a transaction to recover: boot, recover, lose a buffer that is in use. */
  method BootAndLose(lay: Layout, disk: Disk) returns (bc: Bcache, i: nat, b: int, ghost before: Cache)
    requires LogOk(lay, disk) && 0 < |Header(lay, disk)| < NBUF && |disk| >= 2 * NBUF
    ensures bc.Valid() && Obtained(before, Recover(lay, disk), i, Header(lay, disk)[0], 1)
    ensures i < NBUF && bc.c.bufs[i].holder == 1 && Matches(bc.c.bufs[i], ROOTDEV, b) && b != Header(lay, disk)[0]
  {
    var panicked, disk';
    bc, panicked, disk' := Boot(lay, disk);
    RecoveredHead(lay, disk);
    var lh := Decode(disk[lay.start]);
    var xs := PickAbsent(bc, disk');
    var k;
    i, k, before := LoseBuffer(bc, lh, lh[0], xs, disk');
    b := xs[k];
  }
}
