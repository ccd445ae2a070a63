/** All interleavings of processes that use the buffer cache and the log (kernel/bio.c, kernel/log.c).

Every step is one critical section or one disk transfer made while holding the buffers involved.
`logical`, `committed` and `at` are history: what clients have written so far, what the last
commit point covers, and which buffer holds a block. */
module LogProtocol {
  import opened Options
  import opened Blocks
  import opened BufferCache

  const ROOTDEV := 1
  const NPROC := 64

  /** The progress of `commit`; `Installing(k, u)` has installed `k` blocks and unpinned `u`. */
  datatype Phase = Idle | Copying(k: nat) | Installing(k: nat, u: nat) | Finishing

  datatype State = State(cache: Cache, users: seq<set<nat>>, at: map<int, nat>,
                         disk: Disk, logical: Disk, committed: Disk,
                         lh: seq<int>, dirty: set<int>, ops: set<nat>, phase: Phase, committer: nat)

  ghost function Procs(): set<nat> {
    set p: nat | 1 <= p <= NPROC && IsProc(p)
  }

  ghost predicate IsProc(p: nat) { 1 <= p <= NPROC }

  // ---------------------------------------------------------------------------
  // The invariant

  type Bufs = seq<Buf>

  /** `at` finds the one buffer of each cached block. */
  ghost predicate Mapped(bufs: Bufs, at: map<int, nat>, nblocks: nat) {
    && |bufs| == NBUF
    && (forall i :: 0 <= i < NBUF ==> bufs[i].dev == 0 || bufs[i].dev == ROOTDEV)
    && (forall i :: 0 <= i < NBUF && bufs[i].dev == ROOTDEV ==>
          0 <= bufs[i].blockno < nblocks && bufs[i].blockno in at && at[bufs[i].blockno] == i)
    && (forall b :: b in at ==> at[b] < NBUF && Matches(bufs[at[b]], ROOTDEV, b))
  }

  ghost function Pin(b: Buf, pinned: seq<int>): nat {
    if b.dev == ROOTDEV && b.blockno in pinned then 1 else 0
  }

  /** A reference count is the number of processes using or awaiting the buffer, plus its pin. */
  ghost predicate Counted(bufs: Bufs, users: seq<set<nat>>, pinned: seq<int>) {
    && |bufs| == |users| == NBUF
    && (forall i :: 0 <= i < NBUF ==> users[i] <= Procs() && bufs[i].refcnt == |users[i]| + Pin(bufs[i], pinned))
  }

  ghost predicate Held(bufs: Bufs, users: seq<set<nat>>) {
    && |bufs| == |users|
    && (forall i :: 0 <= i < |bufs| && bufs[i].holder != 0 ==> bufs[i].holder in users[i])
    && (forall i :: 0 <= i < |bufs| && users[i] != {} ==> bufs[i].dev == ROOTDEV)
  }

  /** A valid buffer shows the logical contents of its block. */
  ghost predicate Shown(bufs: Bufs, logical: Disk) {
    forall i :: 0 <= i < |bufs| && bufs[i].dev == ROOTDEV && bufs[i].valid ==>
      0 <= bufs[i].blockno < |logical| && bufs[i].data == logical[bufs[i].blockno]
  }

  ghost predicate Cached(bufs: Bufs, at: map<int, nat>, b: int) {
    b in at && at[b] < |bufs| && bufs[at[b]].valid
  }

  /** Pinned blocks stay cached. */
  ghost predicate Kept(bufs: Bufs, at: map<int, nat>, pinned: seq<int>) {
    forall b :: b in pinned ==> Cached(bufs, at, b)
  }

  /** Blocks changed but not yet logged are held by a running operation. */
  ghost predicate DirtyHeld(bufs: Bufs, at: map<int, nat>, dirty: set<int>, ops: set<nat>, lay: Layout, nblocks: nat) {
    && ops <= Procs()
    && (forall b :: b in dirty ==> Cached(bufs, at, b) && bufs[at[b]].holder in ops && Home(lay, nblocks, b))
  }

  /** A block whose disk copy is out of date is pinned for the log or being changed. */
  ghost predicate Ahead(disk: Disk, logical: Disk, pending: seq<int>, dirty: set<int>) {
    |disk| == |logical| && forall b :: 0 <= b < |disk| && disk[b] != logical[b] ==> b in pending || b in dirty
  }

  ghost predicate AgreeHome(lay: Layout, d: Disk, d': Disk) {
    |d| == |d'| && forall b :: Home(lay, |d|, b) ==> d[b] == d'[b]
  }

  /** The disk, phase by phase. */
  ghost predicate Durable(lay: Layout, disk: Disk, logical: Disk, committed: Disk, lh: seq<int>, phase: Phase) {
    && |disk| == |logical| == |committed| && ListOk(lay, |disk|, lh)
    && match phase
       case Idle => disk[lay.start][0] == 0 && AgreeHome(lay, disk, committed)
       case Copying(k) => disk[lay.start][0] == 0 && AgreeHome(lay, disk, committed)
                          && k <= |lh| && SlotsHold(lay, disk, logical, lh, k)
       case Installing(k, u) => Encoded(disk[lay.start], lh) && AgreeHome(lay, logical, committed)
                                && u <= k <= u + 1 && k <= |lh| && SlotsHold(lay, disk, logical, lh, |lh|)
       case Finishing => lh == [] && disk[lay.start][0] == 0 && AgreeHome(lay, disk, committed)
  }

  ghost predicate Encoded(b: Block, lh: seq<int>) {
    b[0] == |lh| && Decode(b) == lh
  }

  /** The first `k` slots hold what the logged blocks hold. */
  ghost predicate SlotsHold(lay: Layout, disk: Disk, logical: Disk, lh: seq<int>, k: nat)
    requires ListOk(lay, |disk|, lh) && k <= |lh| && |disk| == |logical|
  {
    forall i :: 0 <= i < k ==> disk[lay.start + 1 + i] == logical[lh[i]]
  }

  /** Logged blocks that still have a pin, and those not yet installed. */
  function Pinned(s: State): seq<int> {
    if s.phase.Installing? && s.phase.u <= |s.lh| then s.lh[s.phase.u..] else s.lh
  }

  function Pending(s: State): seq<int> {
    if s.phase.Installing? && s.phase.k <= |s.lh| then s.lh[s.phase.k..] else s.lh
  }

  ghost predicate Inv(lay: Layout, s: State) {
    && Mapped(s.cache.bufs, s.at, |s.disk|)
    && Counted(s.cache.bufs, s.users, Pinned(s))
    && Held(s.cache.bufs, s.users)
    && Shown(s.cache.bufs, s.logical)
    && Kept(s.cache.bufs, s.at, Pinned(s))
    && DirtyHeld(s.cache.bufs, s.at, s.dirty, s.ops, lay, |s.disk|)
    && Ahead(s.disk, s.logical, Pending(s), s.dirty)
    && Durable(lay, s.disk, s.logical, s.committed, s.lh, s.phase)
    && (s.phase != Idle ==> s.ops == {})
  }

  // ---------------------------------------------------------------------------
  // The steps

  ghost predicate Holds(s: State, p: nat, i: nat) {
    p in Procs() && i < |s.cache.bufs| && s.cache.bufs[i].holder == p
  }

  /** `begin_op` returns; the admission test is the subject of `LogAdmission`. */
  ghost predicate Begin(s: State, p: nat, s': State) {
    s.phase == Idle && p in Procs() && p !in s.ops && s' == s.(ops := s.ops + {p})
  }

  /** The critical section of `bget`. */
  ghost predicate Get(s: State, p: nat, b: int, i: nat, s': State) {
    && p in Procs() && 0 <= b < |s.disk| && i < |s.users| && p !in s.users[i]
    && Got(s.cache, ROOTDEV, b, Some(i), s'.cache)
    && s' == s.(cache := s'.cache, users := s.users[i := s.users[i] + {p}],
             at := (map x | x in s.at && s.at[x] != i :: s.at[x])[b := i])
  }

  ghost predicate Acquire(s: State, p: nat, i: nat, s': State) {
    && p in Procs() && i < |s.users| == |s.cache.bufs| && p in s.users[i] && s.cache.bufs[i].holder == 0
    && s' == s.(cache := SetHolder(s.cache, i, p))
  }

  /** The disk read of `bread`. */
  ghost predicate Read(s: State, p: nat, i: nat, s': State) {
    && Holds(s, p, i) && !s.cache.bufs[i].valid && 0 <= s.cache.bufs[i].blockno < |s.disk|
    && s' == s.(cache := Filled(s.cache, i, s.disk))
  }

  /** An operation changes a home block in the buffer it holds. */
  ghost predicate Modify(lay: Layout, s: State, p: nat, i: nat, data: Block, s': State) {
    && Holds(s, p, i) && p in s.ops && s.cache.bufs[i].valid
    && var b := s.cache.bufs[i].blockno;
    && Home(lay, |s.logical|, b)
    && s' == s.(cache := Stored(s.cache, i, data), logical := s.logical[b := data], dirty := s.dirty + {b})
  }

  /** `log_write`, when it does not panic. */
  ghost predicate LogWrite(lay: Layout, s: State, p: nat, i: nat, s': State) {
    && Holds(s, p, i) && p in s.ops && s.cache.bufs[i].valid
    && |s.lh| < LOGSIZE && |s.lh| < lay.size - 1
    && var b := s.cache.bufs[i].blockno;
    && Home(lay, |s.disk|, b)
    && s' == if b in s.lh then s.(dirty := s.dirty - {b})
             else s.(cache := SetRef(s.cache, i, Up(s.cache.bufs[i].refcnt)), lh := s.lh + [b], dirty := s.dirty - {b})
  }

  /** The two halves of `brelse`; a changed block must have been logged. */
  ghost predicate Unlock(s: State, p: nat, i: nat, s': State) {
    && Holds(s, p, i) && s.cache.bufs[i].blockno !in s.dirty
    && s' == s.(cache := SetHolder(s.cache, i, 0))
  }

  ghost predicate Drop(s: State, p: nat, i: nat, s': State) {
    && i < |s.users| == |s.cache.bufs| == NBUF && p in s.users[i] && s.cache.bufs[i].holder != p
    && s' == s.(cache := Dropped(s.cache, i), users := s.users[i := s.users[i] - {p}])
  }

  /** `end_op`; the caller has logged what it changed.  The last operation starts the commit. */
  ghost predicate End(s: State, p: nat, s': State) {
    && p in s.ops && s.phase == Idle
    && (forall b :: b in s.dirty && b in s.at && s.at[b] < |s.cache.bufs| ==> s.cache.bufs[s.at[b]].holder != p)
    && s' == if s.ops != {p} then s.(ops := s.ops - {p})
             else s.(ops := {}, committer := p, phase := if s.lh == [] then Finishing else Copying(0))
  }

  /** A turn of `write_log`. */
  ghost predicate CopyToSlot(lay: Layout, s: State, p: nat, i: nat, j: nat, s': State) {
    && p == s.committer && s.phase.Copying? && s.phase.k < |s.lh| && Holds(s, p, i) && Holds(s, p, j)
    && s.cache.bufs[i].blockno == lay.start + 1 + s.phase.k && s.cache.bufs[j].blockno == s.lh[s.phase.k]
    && s.cache.bufs[i].valid && s.cache.bufs[j].valid && lay.start + 1 + s.phase.k < |s.disk| == |s.logical|
    && var b, data := lay.start + 1 + s.phase.k, s.cache.bufs[j].data;
    && s' == s.(cache := Stored(s.cache, i, data), disk := s.disk[b := data], logical := s.logical[b := data],
             phase := Copying(s.phase.k + 1))
  }

  /** The first `write_head` of a commit, the commit point. */
  ghost predicate WriteHead(lay: Layout, s: State, p: nat, i: nat, s': State) {
    && p == s.committer && s.phase == Copying(|s.lh|) && Holds(s, p, i)
    && s.cache.bufs[i].blockno == lay.start < |s.disk| == |s.logical| && s.cache.bufs[i].valid && |s.lh| <= LOGSIZE
    && var head := Encode(s.cache.bufs[i].data, s.lh);
    && s' == s.(cache := Stored(s.cache, i, head), disk := s.disk[lay.start := head], logical := s.logical[lay.start := head],
             committed := s.logical[lay.start := head], phase := Installing(0, 0))
  }

  /** A turn of `install_trans` up to its `bunpin`. */
  ghost predicate CopyHome(lay: Layout, s: State, p: nat, i: nat, j: nat, s': State) {
    && p == s.committer && s.phase.Installing? && s.phase.k == s.phase.u < |s.lh| && Holds(s, p, i) && Holds(s, p, j)
    && s.cache.bufs[i].blockno == s.lh[s.phase.k] && s.cache.bufs[j].blockno == lay.start + 1 + s.phase.k
    && s.cache.bufs[i].valid && s.cache.bufs[j].valid && 0 <= s.lh[s.phase.k] < |s.disk|
    && var data := s.cache.bufs[j].data;
    && s' == s.(cache := Stored(s.cache, i, data), disk := s.disk[s.lh[s.phase.k] := data],
             phase := Installing(s.phase.k + 1, s.phase.u))
  }

  /** The `bunpin` of `install_trans`. */
  ghost predicate Unpin(s: State, p: nat, i: nat, s': State) {
    && p == s.committer && s.phase.Installing? && s.phase.k == s.phase.u + 1 && s.phase.u < |s.lh| && Holds(s, p, i)
    && s.cache.bufs[i].blockno == s.lh[s.phase.u]
    && s' == s.(cache := SetRef(s.cache, i, Down(s.cache.bufs[i].refcnt)), phase := Installing(s.phase.k, s.phase.k))
  }

  /** `log.lh.n = 0` and the second `write_head`. */
  ghost predicate ClearHead(lay: Layout, s: State, p: nat, i: nat, s': State) {
    && p == s.committer && s.phase == Installing(|s.lh|, |s.lh|) && Holds(s, p, i)
    && s.cache.bufs[i].blockno == lay.start < |s.disk| == |s.logical| && s.cache.bufs[i].valid
    && var head := Encode(s.cache.bufs[i].data, []);
    && s' == s.(cache := Stored(s.cache, i, head), disk := s.disk[lay.start := head], logical := s.logical[lay.start := head],
             lh := [], phase := Finishing)
  }

  /** `log.committing = 0`. */
  ghost predicate Finish(s: State, p: nat, s': State) {
    p == s.committer && s.phase == Finishing && s' == s.(phase := Idle)
  }

  // ---------------------------------------------------------------------------
  // Reference counts

  lemma {:induction false} FewProcs(us: set<nat>, n: nat)
    requires forall p :: p in us ==> 1 <= p <= n
    ensures |us| <= n
  {
    if n in us {
      FewProcs(us - {n}, n - 1);
    } else if n > 0 {
      FewProcs(us, n - 1);
    } else {
      assert us == {};
    }
  }

  lemma {:induction false} AddUser(us: set<nat>, p: nat)
    requires us <= Procs() && p in Procs() && p !in us
    ensures us + {p} <= Procs() && |us + {p}| == |us| + 1 < WRAP - 1
  {
    FewProcs(us + {p}, NPROC);
  }

  lemma {:induction false} DropUser(us: set<nat>, p: nat)
    requires us <= Procs() && p in us
    ensures us - {p} <= Procs() && |us - {p}| == |us| - 1 && |us| < WRAP - 1
  {
    FewProcs(us, NPROC);
  }

  lemma {:induction false} CountedGet(s: State, p: nat, b: int, i: nat, s': State)
    requires Mapped(s.cache.bufs, s.at, |s.disk|) && Counted(s.cache.bufs, s.users, Pinned(s)) && Kept(s.cache.bufs, s.at, Pinned(s))
    requires Get(s, p, b, i, s')
    ensures Counted(s'.cache.bufs, s'.users, Pinned(s))
  {
    AddUser(s.users[i], p);
    if Miss(s.cache, ROOTDEV, b) {
      assert s.users[i] == {};
      assert b !in Pinned(s);
    }
  }

  lemma {:induction false} CountedDrop(s: State, p: nat, i: nat, s': State)
    requires Counted(s.cache.bufs, s.users, Pinned(s)) && Drop(s, p, i, s')
    ensures Counted(s'.cache.bufs, s'.users, Pinned(s))
  {
    DropUser(s.users[i], p);
  }

  lemma {:induction false} CountedLogWrite(lay: Layout, s: State, p: nat, i: nat, s': State)
    requires Mapped(s.cache.bufs, s.at, |s.disk|) && Counted(s.cache.bufs, s.users, s.lh) && Held(s.cache.bufs, s.users)
    requires LogWrite(lay, s, p, i, s')
    ensures Counted(s'.cache.bufs, s'.users, s'.lh)
  {
    FewProcs(s.users[i], NPROC);
  }

  lemma {:induction false} CountedUnpin(s: State, p: nat, i: nat, s': State)
    requires Mapped(s.cache.bufs, s.at, |s.disk|) && Counted(s.cache.bufs, s.users, Pinned(s)) && Held(s.cache.bufs, s.users)
    requires Unpin(s, p, i, s') && (forall x, y :: 0 <= x < y < |s.lh| ==> s.lh[x] != s.lh[y])
    ensures Counted(s'.cache.bufs, s'.users, Pinned(s'))
  {
    var u, bufs, bufs' := s.phase.u, s.cache.bufs, s'.cache.bufs;
    FewProcs(s.users[i], NPROC);
    PinGone(s.lh, u);
    forall k | 0 <= k < NBUF ensures s'.users[k] <= Procs() && bufs'[k].refcnt == |s'.users[k]| + Pin(bufs'[k], s.lh[u + 1..]) {
      TailIn(s.lh, u, bufs[k].blockno);
      assert k != i && bufs[k].dev == ROOTDEV ==> bufs[k].blockno != s.lh[u];
    }
  }

  lemma {:induction false} PinGone(lh: seq<int>, u: nat)
    requires u < |lh| && forall x, y :: 0 <= x < y < |lh| ==> lh[x] != lh[y]
    ensures lh[u] !in lh[u + 1..]
  {
  }

  // ---------------------------------------------------------------------------
  // Committing

  lemma {:induction false} TailIn(lh: seq<int>, u: nat, b: int)
    requires u < |lh|
    ensures b in lh[u..] <==> b == lh[u] || b in lh[u + 1..]
  {
    assert lh[u..] == [lh[u]] + lh[u + 1..];
  }

  lemma {:induction false} KeptTail(bufs: Bufs, at: map<int, nat>, lh: seq<int>, u: nat, i: nat, refcnt: nat)
    requires u < |lh| && Kept(bufs, at, lh[u..]) && i < |bufs|
    ensures Kept(bufs[i := bufs[i].(refcnt := refcnt)], at, lh[u + 1..])
  {
    var bufs' := bufs[i := bufs[i].(refcnt := refcnt)];
    forall b | b in lh[u + 1..] ensures Cached(bufs', at, b) {
      TailIn(lh, u, b);
      assert Cached(bufs, at, b);
    }
  }

  /** During a commit nothing is half changed. */
  lemma {:induction false} NothingDirty(lay: Layout, s: State)
    requires DirtyHeld(s.cache.bufs, s.at, s.dirty, {}, lay, |s.disk|)
    ensures s.dirty == {}
  {
    assert forall b :: b !in s.dirty;
  }

  /** The log slot that `install_trans` copies shows what the home block shows. */
  lemma {:induction false} SlotShows(lay: Layout, s: State, j: nat)
    requires Shown(s.cache.bufs, s.logical) && Ahead(s.disk, s.logical, Pending(s), {}) && Durable(lay, s.disk, s.logical, s.committed, s.lh, s.phase)
    requires s.phase.Installing? && s.phase.k < |s.lh| && j < |s.cache.bufs|
    requires s.cache.bufs[j].dev == ROOTDEV && s.cache.bufs[j].valid && s.cache.bufs[j].blockno == lay.start + 1 + s.phase.k
    ensures s.cache.bufs[j].data == s.logical[s.lh[s.phase.k]]
  {
    SlotSynced(lay, s.disk, s.logical, s.committed, s.lh, s.phase.k, s.phase.u);
  }

  lemma {:induction false} SlotSynced(lay: Layout, disk: Disk, logical: Disk, committed: Disk, lh: seq<int>, k: nat, u: nat)
    requires Durable(lay, disk, logical, committed, lh, Installing(k, u)) && k < |lh| && Ahead(disk, logical, lh[k..], {})
    ensures logical[lay.start + 1 + k] == logical[lh[k]]
  {
    var b := lay.start + 1 + k;
    forall i | 0 <= i < |lh[k..]| ensures lh[k..][i] != b { assert Home(lay, |disk|, lh[k + i]); }
    assert disk[b] == logical[b];
  }

  lemma {:induction false} AheadInstalled(disk: Disk, logical: Disk, lh: seq<int>, k: nat, dirty: set<int>)
    requires k < |lh| && Ahead(disk, logical, lh[k..], dirty) && 0 <= lh[k] < |disk|
    ensures Ahead(disk[lh[k] := logical[lh[k]]], logical, lh[k + 1..], dirty)
  {
    forall b | 0 <= b < |disk| && disk[b] != logical[b] && b != lh[k] ensures b in lh[k + 1..] || b in dirty {
      TailIn(lh, k, b);
    }
  }

  lemma {:induction false} DurableInstalled(lay: Layout, disk: Disk, logical: Disk, committed: Disk, lh: seq<int>, k: nat)
    requires Durable(lay, disk, logical, committed, lh, Installing(k, k)) && k < |lh|
    ensures Durable(lay, disk[lh[k] := logical[lh[k]]], logical, committed, lh, Installing(k + 1, k))
  {
    assert Home(lay, |disk|, lh[k]);
  }

  lemma {:induction false} DurableCopied(lay: Layout, disk: Disk, logical: Disk, committed: Disk, lh: seq<int>, k: nat)
    requires Durable(lay, disk, logical, committed, lh, Copying(k)) && k < |lh|
    ensures var b, data := lay.start + 1 + k, logical[lh[k]];
            Durable(lay, disk[b := data], logical[b := data], committed, lh, Copying(k + 1))
  {
    assert Home(lay, |disk|, lh[k]);
  }

  /** Replacing the contents of a buffer by what its block now shows. */
  lemma {:induction false} ShownStored(bufs: Bufs, at: map<int, nat>, logical: Disk, i: nat, data: Block)
    requires Mapped(bufs, at, |logical|) && Shown(bufs, logical) && i < |bufs| && bufs[i].dev == ROOTDEV
    ensures Shown(bufs[i := bufs[i].(data := data)], logical[bufs[i].blockno := data])
  {
  }

  /** Counts do not matter to the other conditions on buffers. */
  lemma {:induction false} RefFrame(lay: Layout, s: State, i: nat, refcnt: nat, bufs: Bufs)
    requires Mapped(s.cache.bufs, s.at, |s.disk|) && Held(s.cache.bufs, s.users) && Shown(s.cache.bufs, s.logical)
    requires DirtyHeld(s.cache.bufs, s.at, s.dirty, s.ops, lay, |s.disk|)
    requires i < |s.cache.bufs| && bufs == s.cache.bufs[i := s.cache.bufs[i].(refcnt := refcnt)]
    ensures Mapped(bufs, s.at, |s.disk|) && Held(bufs, s.users) && Shown(bufs, s.logical)
    ensures DirtyHeld(bufs, s.at, s.dirty, s.ops, lay, |s.disk|)
  {
  }

  /** Nor do contents matter to anything but `Shown`. */
  lemma {:induction false} StoreFrame(lay: Layout, s: State, i: nat, data: Block, bufs: Bufs)
    requires Mapped(s.cache.bufs, s.at, |s.disk|) && Counted(s.cache.bufs, s.users, Pinned(s)) && Held(s.cache.bufs, s.users)
    requires Kept(s.cache.bufs, s.at, Pinned(s)) && DirtyHeld(s.cache.bufs, s.at, s.dirty, s.ops, lay, |s.disk|)
    requires i < |s.cache.bufs| && bufs == s.cache.bufs[i := s.cache.bufs[i].(data := data)]
    ensures Mapped(bufs, s.at, |s.disk|) && Counted(bufs, s.users, Pinned(s)) && Held(bufs, s.users)
    ensures Kept(bufs, s.at, Pinned(s)) && DirtyHeld(bufs, s.at, s.dirty, s.ops, lay, |s.disk|)
  {
  }

  /** Buffers that change but in holder and reference count. */
  ghost predicate SameBlocks(bufs: Bufs, bufs': Bufs) {
    |bufs'| == |bufs| && forall i :: 0 <= i < |bufs| ==> SameBlock(bufs[i], bufs'[i])
  }

  ghost predicate SameBlock(b: Buf, b': Buf) {
    b'.dev == b.dev && b'.blockno == b.blockno && b'.valid == b.valid && b'.data == b.data
  }

  lemma {:induction false} BlocksFrame(s: State, bufs: Bufs)
    requires Mapped(s.cache.bufs, s.at, |s.disk|) && Shown(s.cache.bufs, s.logical) && Kept(s.cache.bufs, s.at, Pinned(s))
    requires SameBlocks(s.cache.bufs, bufs)
    ensures Mapped(bufs, s.at, |s.disk|) && Shown(bufs, s.logical) && Kept(bufs, s.at, Pinned(s))
  {
    forall i | 0 <= i < NBUF ensures SameBlock(s.cache.bufs[i], bufs[i]) {}
  }

  /** A buffer changes hands. */
  lemma {:induction false} HolderFrame(s: State, i: nat, holder: nat, bufs: Bufs)
    requires Mapped(s.cache.bufs, s.at, |s.disk|) && Shown(s.cache.bufs, s.logical) && Kept(s.cache.bufs, s.at, Pinned(s))
    requires Counted(s.cache.bufs, s.users, Pinned(s)) && i < |s.cache.bufs| && bufs == s.cache.bufs[i := s.cache.bufs[i].(holder := holder)]
    ensures Mapped(bufs, s.at, |s.disk|) && Shown(bufs, s.logical) && Kept(bufs, s.at, Pinned(s)) && Counted(bufs, s.users, Pinned(s))
  {
    BlocksFrame(s, bufs);
  }

  lemma {:induction false} AcquireHolds(lay: Layout, s: State, p: nat, i: nat, s': State)
    requires Held(s.cache.bufs, s.users) && DirtyHeld(s.cache.bufs, s.at, s.dirty, s.ops, lay, |s.disk|) && Acquire(s, p, i, s')
    ensures Held(s'.cache.bufs, s.users) && DirtyHeld(s'.cache.bufs, s.at, s.dirty, s.ops, lay, |s.disk|)
  {
  }

  lemma {:induction false} UnlockHolds(lay: Layout, s: State, p: nat, i: nat, s': State)
    requires Mapped(s.cache.bufs, s.at, |s.disk|) && Held(s.cache.bufs, s.users)
    requires DirtyHeld(s.cache.bufs, s.at, s.dirty, s.ops, lay, |s.disk|) && Unlock(s, p, i, s')
    ensures Held(s'.cache.bufs, s.users) && DirtyHeld(s'.cache.bufs, s.at, s.dirty, s.ops, lay, |s.disk|)
  {
  }

  lemma {:induction false} ModifyMaps(lay: Layout, s: State, p: nat, i: nat, data: Block, s': State)
    requires Mapped(s.cache.bufs, s.at, |s.disk|) && Held(s.cache.bufs, s.users) && |s.disk| == |s.logical|
    requires DirtyHeld(s'.cache.bufs, s.at, s.dirty, s.ops, lay, |s.disk|) && Ahead(s.disk, s.logical, Pending(s), s.dirty)
    requires Modify(lay, s, p, i, data, s')
    ensures DirtyHeld(s'.cache.bufs, s.at, s'.dirty, s.ops, lay, |s.disk|) && Ahead(s.disk, s'.logical, Pending(s), s'.dirty)
  {
    HolderOnDevice(s, i);
  }

  lemma {:induction false} HolderOnDevice(s: State, j: nat)
    requires Held(s.cache.bufs, s.users) && j < |s.cache.bufs| && s.cache.bufs[j].holder != 0
    ensures s.cache.bufs[j].dev == ROOTDEV
  {
  }

  lemma {:induction false} ReadMaps(s: State, p: nat, i: nat, s': State)
    requires Mapped(s.cache.bufs, s.at, |s.disk|) && Counted(s.cache.bufs, s.users, Pinned(s)) && Held(s.cache.bufs, s.users)
    requires Read(s, p, i, s')
    ensures Mapped(s'.cache.bufs, s.at, |s.disk|) && Counted(s'.cache.bufs, s.users, Pinned(s)) && Held(s'.cache.bufs, s.users)
  {
  }

  /** A block that is not cached is on disk as the file system sees it. */
  lemma {:induction false} ReadShows(lay: Layout, s: State, p: nat, i: nat, s': State)
    requires Mapped(s.cache.bufs, s.at, |s.disk|) && Shown(s.cache.bufs, s.logical) && Kept(s.cache.bufs, s.at, Pinned(s))
    requires Held(s.cache.bufs, s.users)
    requires DirtyHeld(s.cache.bufs, s.at, s.dirty, s.ops, lay, |s.disk|) && Ahead(s.disk, s.logical, Pending(s), s.dirty)
    requires Durable(lay, s.disk, s.logical, s.committed, s.lh, s.phase) && Read(s, p, i, s')
    ensures Shown(s'.cache.bufs, s.logical) && Kept(s'.cache.bufs, s.at, Pinned(s))
    ensures DirtyHeld(s'.cache.bufs, s.at, s.dirty, s.ops, lay, |s.disk|)
  {
    OnDisk(lay, s, s.cache.bufs[i].blockno);
    FilledFrame(lay, s, i, s'.cache.bufs);
  }

  lemma {:induction false} OnDisk(lay: Layout, s: State, b: int)
    requires Kept(s.cache.bufs, s.at, Pinned(s)) && !Cached(s.cache.bufs, s.at, b) && 0 <= b < |s.disk|
    requires DirtyHeld(s.cache.bufs, s.at, s.dirty, s.ops, lay, |s.disk|) && Ahead(s.disk, s.logical, Pending(s), s.dirty)
    requires Durable(lay, s.disk, s.logical, s.committed, s.lh, s.phase)
    ensures s.disk[b] == s.logical[b]
  {
    PendingPinned(lay, s, b);
  }

  lemma {:induction false} FilledFrame(lay: Layout, s: State, i: nat, bufs: Bufs)
    requires Mapped(s.cache.bufs, s.at, |s.disk|) && Shown(s.cache.bufs, s.logical) && Kept(s.cache.bufs, s.at, Pinned(s))
    requires DirtyHeld(s.cache.bufs, s.at, s.dirty, s.ops, lay, |s.disk|) && i < |s.cache.bufs| && |s.logical| == |s.disk|
    requires var b := s.cache.bufs[i];
             0 <= b.blockno < |s.disk| && s.disk[b.blockno] == s.logical[b.blockno]
             && bufs == s.cache.bufs[i := b.(data := s.disk[b.blockno], valid := true)]
    ensures Shown(bufs, s.logical) && Kept(bufs, s.at, Pinned(s)) && DirtyHeld(bufs, s.at, s.dirty, s.ops, lay, |s.disk|)
  {
    forall x | x in Pinned(s) ensures Cached(bufs, s.at, x) { assert Cached(s.cache.bufs, s.at, x); }
    forall x | x in s.dirty ensures Cached(bufs, s.at, x) { assert Cached(s.cache.bufs, s.at, x); }
  }

  /** What is still to be installed is pinned. */
  lemma {:induction false} PendingPinned(lay: Layout, s: State, b: int)
    requires Durable(lay, s.disk, s.logical, s.committed, s.lh, s.phase)
    ensures b in Pending(s) ==> b in Pinned(s)
  {
    if s.phase.Installing? && b in Pending(s) {
      var k :| 0 <= k < |Pending(s)| && Pending(s)[k] == b;
      assert Pinned(s)[k + s.phase.k - s.phase.u] == b;
    }
  }

  lemma {:induction false} LogWriteMaps(lay: Layout, s: State, p: nat, i: nat, s': State)
    requires Mapped(s.cache.bufs, s.at, |s.disk|) && Held(s.cache.bufs, s.users) && Shown(s.cache.bufs, s.logical) && s.phase == Idle
    requires Kept(s.cache.bufs, s.at, s.lh) && DirtyHeld(s.cache.bufs, s.at, s.dirty, s.ops, lay, |s.disk|) && LogWrite(lay, s, p, i, s')
    ensures Mapped(s'.cache.bufs, s.at, |s.disk|) && Held(s'.cache.bufs, s.users) && Shown(s'.cache.bufs, s.logical)
    ensures Kept(s'.cache.bufs, s.at, s'.lh) && DirtyHeld(s'.cache.bufs, s.at, s'.dirty, s.ops, lay, |s.disk|)
  {
  }

  lemma {:induction false} LogWriteDurable(lay: Layout, s: State, p: nat, i: nat, s': State)
    requires Ahead(s.disk, s.logical, s.lh, s.dirty) && Durable(lay, s.disk, s.logical, s.committed, s.lh, s.phase) && s.phase == Idle
    requires LogWrite(lay, s, p, i, s')
    ensures Ahead(s.disk, s.logical, s'.lh, s'.dirty) && Durable(lay, s.disk, s.logical, s.committed, s'.lh, s.phase)
  {
  }

  /** A recycled buffer was neither pinned nor in use, so `at` loses nothing that matters. */
  lemma {:induction false} GetMaps(lay: Layout, s: State, p: nat, b: int, i: nat, s': State)
    requires Mapped(s.cache.bufs, s.at, |s.disk|) && Counted(s.cache.bufs, s.users, Pinned(s)) && Kept(s.cache.bufs, s.at, Pinned(s))
    requires Get(s, p, b, i, s')
    ensures Mapped(s'.cache.bufs, s'.at, |s.disk|) && Kept(s'.cache.bufs, s'.at, Pinned(s))
  {
    if Miss(s.cache, ROOTDEV, b) {
      RecycledMaps(s.cache.bufs, s.at, |s.disk|, b, i);
      forall x | x in Pinned(s) ensures Cached(s'.cache.bufs, s'.at, x) { assert Cached(s.cache.bufs, s.at, x) && s.at[x] != i && x != b; }
    } else {
      HitMaps(s.cache.bufs, s.at, |s.disk|, b, i, Up(s.cache.bufs[i].refcnt));
      forall x | x in Pinned(s) ensures Cached(s'.cache.bufs, s'.at, x) { assert Cached(s.cache.bufs, s.at, x); }
    }
  }

  lemma {:induction false} HitMaps(bufs: Bufs, at: map<int, nat>, nblocks: nat, b: int, i: nat, refcnt: nat)
    requires Mapped(bufs, at, nblocks) && i < NBUF && Matches(bufs[i], ROOTDEV, b)
    ensures (map x | x in at && at[x] != i :: at[x])[b := i] == at && Mapped(bufs[i := bufs[i].(refcnt := refcnt)], at, nblocks)
  {
    assert b in at && at[b] == i;
    forall x | x in at && at[x] == i ensures x == b { assert Matches(bufs[i], ROOTDEV, x); }
  }

  lemma {:induction false} RecycledMaps(bufs: Bufs, at: map<int, nat>, nblocks: nat, b: int, i: nat)
    requires Mapped(bufs, at, nblocks) && 0 <= b < nblocks && i < NBUF && forall j :: 0 <= j < |bufs| ==> !Matches(bufs[j], ROOTDEV, b)
    ensures Mapped(bufs[i := bufs[i].(dev := ROOTDEV, blockno := b, valid := false, refcnt := 1)], (map x | x in at && at[x] != i :: at[x])[b := i], nblocks)
  {
  }

  lemma {:induction false} GetHolds(lay: Layout, s: State, p: nat, b: int, i: nat, s': State)
    requires Mapped(s.cache.bufs, s.at, |s.disk|) && Counted(s.cache.bufs, s.users, Pinned(s)) && Held(s.cache.bufs, s.users)
    requires DirtyHeld(s.cache.bufs, s.at, s.dirty, s.ops, lay, |s.disk|) && Shown(s.cache.bufs, s.logical)
    requires Get(s, p, b, i, s')
    ensures DirtyHeld(s'.cache.bufs, s'.at, s.dirty, s.ops, lay, |s.disk|) && Held(s'.cache.bufs, s'.users) && Shown(s'.cache.bufs, s.logical)
  {
    if Miss(s.cache, ROOTDEV, b) {
      assert s.users[i] == {};
    }
  }

  // ---------------------------------------------------------------------------
  // Every step keeps the invariant

  lemma {:induction false} BeginKeeps(lay: Layout, s: State, p: nat, s': State)
    requires Inv(lay, s) && Begin(s, p, s')
    ensures Inv(lay, s')
  {
  }
  lemma {:induction false} GetKeeps(lay: Layout, s: State, p: nat, b: int, i: nat, s': State)
    requires Inv(lay, s) && Get(s, p, b, i, s')
    ensures Inv(lay, s')
  {
    CountedGet(s, p, b, i, s');
    GetMaps(lay, s, p, b, i, s');
    GetHolds(lay, s, p, b, i, s');
  }
  lemma {:induction false} AcquireKeeps(lay: Layout, s: State, p: nat, i: nat, s': State)
    requires Inv(lay, s) && Acquire(s, p, i, s')
    ensures Inv(lay, s')
  {
    HolderFrame(s, i, p, s'.cache.bufs);
    AcquireHolds(lay, s, p, i, s');
  }
  lemma {:induction false} ReadKeeps(lay: Layout, s: State, p: nat, i: nat, s': State)
    requires Inv(lay, s) && Read(s, p, i, s')
    ensures Inv(lay, s')
  {
    ReadMaps(s, p, i, s');
    ReadShows(lay, s, p, i, s');
  }
  lemma {:induction false} ModifyKeeps(lay: Layout, s: State, p: nat, i: nat, data: Block, s': State)
    requires Inv(lay, s) && Modify(lay, s, p, i, data, s')
    ensures Inv(lay, s')
  {
    HolderOnDevice(s, i);
    StoreFrame(lay, s, i, data, s'.cache.bufs);
    ShownStored(s.cache.bufs, s.at, s.logical, i, data);
    ModifyMaps(lay, s, p, i, data, s');
  }
  lemma {:induction false} LogWriteKeeps(lay: Layout, s: State, p: nat, i: nat, s': State)
    requires Inv(lay, s) && LogWrite(lay, s, p, i, s')
    ensures Inv(lay, s')
  {
    CountedLogWrite(lay, s, p, i, s');
    LogWriteMaps(lay, s, p, i, s');
    LogWriteDurable(lay, s, p, i, s');
  }
  lemma {:induction false} UnlockKeeps(lay: Layout, s: State, p: nat, i: nat, s': State)
    requires Inv(lay, s) && Unlock(s, p, i, s')
    ensures Inv(lay, s')
  {
    HolderFrame(s, i, 0, s'.cache.bufs);
    UnlockHolds(lay, s, p, i, s');
  }
  lemma {:induction false} DropKeeps(lay: Layout, s: State, p: nat, i: nat, s': State)
    requires Inv(lay, s) && Drop(s, p, i, s')
    ensures Inv(lay, s')
  {
    CountedDrop(s, p, i, s');
    BlocksFrame(s, s'.cache.bufs);
  }
  lemma {:induction false} EndKeeps(lay: Layout, s: State, p: nat, s': State)
    requires Inv(lay, s) && End(s, p, s')
    ensures Inv(lay, s')
  {
  }
  lemma {:induction false} CopyToSlotKeeps(lay: Layout, s: State, p: nat, i: nat, j: nat, s': State)
    requires Inv(lay, s) && CopyToSlot(lay, s, p, i, j, s')
    ensures Inv(lay, s')
  {
    HolderOnDevice(s, i);
    SlotCopied(lay, s, j);
    ShownStored(s.cache.bufs, s.at, s.logical, i, s.cache.bufs[j].data);
    StoreFrame(lay, s, i, s.cache.bufs[j].data, s'.cache.bufs);
  }

  lemma {:induction false} SlotCopied(lay: Layout, s: State, j: nat)
    requires Held(s.cache.bufs, s.users) && Shown(s.cache.bufs, s.logical) && Ahead(s.disk, s.logical, s.lh, s.dirty)
    requires Durable(lay, s.disk, s.logical, s.committed, s.lh, s.phase) && s.phase.Copying? && s.phase.k < |s.lh| && j < |s.cache.bufs|
    requires var b := s.cache.bufs[j]; b.holder != 0 && b.valid && b.blockno == s.lh[s.phase.k]
    ensures var b, data := lay.start + 1 + s.phase.k, s.cache.bufs[j].data;
            && b < |s.disk| && Durable(lay, s.disk[b := data], s.logical[b := data], s.committed, s.lh, Copying(s.phase.k + 1))
            && Ahead(s.disk[b := data], s.logical[b := data], s.lh, s.dirty)
  {
    HolderOnDevice(s, j);
    DurableCopied(lay, s.disk, s.logical, s.committed, s.lh, s.phase.k);
    AheadBoth(s.disk, s.logical, s.lh, s.dirty, lay.start + 1 + s.phase.k, s.cache.bufs[j].data);
  }

  lemma {:induction false} AheadBoth(disk: Disk, logical: Disk, pending: seq<int>, dirty: set<int>, b: nat, data: Block)
    requires Ahead(disk, logical, pending, dirty) && b < |disk|
    ensures Ahead(disk[b := data], logical[b := data], pending, dirty)
  {
  }

  lemma {:induction false} WriteHeadKeeps(lay: Layout, s: State, p: nat, i: nat, s': State)
    requires Inv(lay, s) && WriteHead(lay, s, p, i, s')
    ensures Inv(lay, s')
  {
    var head := Encode(s.cache.bufs[i].data, s.lh);
    assert Pinned(s') == Pinned(s) && Pending(s') == s.lh by { assert s.lh[0..] == s.lh; }
    HolderOnDevice(s, i);
    NothingDirty(lay, s);
    HeadDurable(lay, s.disk, s.logical, s.committed, s.lh, s.cache.bufs[i].data);
    HeadStored(lay, s, i, head, s'.cache.bufs);
  }

  lemma {:induction false} HeadStored(lay: Layout, s: State, i: nat, head: Block, bufs: Bufs)
    requires Mapped(s.cache.bufs, s.at, |s.disk|) && Counted(s.cache.bufs, s.users, Pinned(s)) && Held(s.cache.bufs, s.users)
    requires Shown(s.cache.bufs, s.logical) && |s.logical| == |s.disk|
    requires Kept(s.cache.bufs, s.at, Pinned(s)) && DirtyHeld(s.cache.bufs, s.at, s.dirty, s.ops, lay, |s.disk|)
    requires i < |s.cache.bufs| && s.cache.bufs[i].dev == ROOTDEV && bufs == s.cache.bufs[i := s.cache.bufs[i].(data := head)]
    ensures Mapped(bufs, s.at, |s.disk|) && Counted(bufs, s.users, Pinned(s)) && Held(bufs, s.users)
    ensures Kept(bufs, s.at, Pinned(s)) && DirtyHeld(bufs, s.at, s.dirty, s.ops, lay, |s.disk|)
    ensures Shown(bufs, s.logical[s.cache.bufs[i].blockno := head])
  {
    ShownStored(s.cache.bufs, s.at, s.logical, i, head);
    StoreFrame(lay, s, i, head, bufs);
  }

  lemma {:induction false} HeadDurable(lay: Layout, disk: Disk, logical: Disk, committed: Disk, lh: seq<int>, was: Block)
    requires Durable(lay, disk, logical, committed, lh, Copying(|lh|)) && Ahead(disk, logical, lh, {})
    ensures var head := Encode(was, lh);
            && Durable(lay, disk[lay.start := head], logical[lay.start := head], logical[lay.start := head], lh, Installing(0, 0))
            && Ahead(disk[lay.start := head], logical[lay.start := head], lh, {})
  {
    DecodeEncode(was, lh);
  }

  lemma {:induction false} CopyHomeKeeps(lay: Layout, s: State, p: nat, i: nat, j: nat, s': State)
    requires Inv(lay, s) && CopyHome(lay, s, p, i, j, s')
    ensures Inv(lay, s')
  {
    NothingDirty(lay, s);
    SlotShows(lay, s, j);
    assert Stored(s.cache, i, s.cache.bufs[j].data) == s.cache;
    AheadInstalled(s.disk, s.logical, s.lh, s.phase.k, s.dirty);
    DurableInstalled(lay, s.disk, s.logical, s.committed, s.lh, s.phase.k);
  }
  lemma {:induction false} UnpinKeeps(lay: Layout, s: State, p: nat, i: nat, s': State)
    requires Inv(lay, s) && Unpin(s, p, i, s')
    ensures Inv(lay, s')
  {
    CountedUnpin(s, p, i, s');
    RefFrame(lay, s, i, Down(s.cache.bufs[i].refcnt), s'.cache.bufs);
    KeptTail(s.cache.bufs, s.at, s.lh, s.phase.u, i, Down(s.cache.bufs[i].refcnt));
  }
  lemma {:induction false} ClearHeadKeeps(lay: Layout, s: State, p: nat, i: nat, s': State)
    requires Inv(lay, s) && ClearHead(lay, s, p, i, s')
    ensures Inv(lay, s')
  {
    var head := Encode(s.cache.bufs[i].data, []);
    ShownStored(s.cache.bufs, s.at, s.logical, i, head);
    StoreFrame(lay, s, i, head, s'.cache.bufs);
  }
  lemma {:induction false} FinishKeeps(lay: Layout, s: State, p: nat, s': State)
    requires Inv(lay, s) && Finish(s, p, s')
    ensures Inv(lay, s')
  {
  }

  // ---------------------------------------------------------------------------
  // Runs

  datatype Step =
    | BeginStep(p: nat) | GetStep(p: nat, b: int, i: nat) | AcquireStep(p: nat, i: nat) | ReadStep(p: nat, i: nat)
    | ModifyStep(p: nat, i: nat, data: Block) | LogWriteStep(p: nat, i: nat) | UnlockStep(p: nat, i: nat)
    | DropStep(p: nat, i: nat) | EndStep(p: nat) | CopyToSlotStep(p: nat, i: nat, j: nat) | WriteHeadStep(p: nat, i: nat)
    | CopyHomeStep(p: nat, i: nat, j: nat) | UnpinStep(p: nat, i: nat) | ClearHeadStep(p: nat, i: nat) | FinishStep(p: nat)

  ghost predicate Next(lay: Layout, s: State, step: Step, s': State) {
    match step
    case BeginStep(p) => Begin(s, p, s')
    case GetStep(p, b, i) => Get(s, p, b, i, s')
    case AcquireStep(p, i) => Acquire(s, p, i, s')
    case ReadStep(p, i) => Read(s, p, i, s')
    case ModifyStep(p, i, data) => Modify(lay, s, p, i, data, s')
    case LogWriteStep(p, i) => LogWrite(lay, s, p, i, s')
    case UnlockStep(p, i) => Unlock(s, p, i, s')
    case DropStep(p, i) => Drop(s, p, i, s')
    case EndStep(p) => End(s, p, s')
    case CopyToSlotStep(p, i, j) => CopyToSlot(lay, s, p, i, j, s')
    case WriteHeadStep(p, i) => WriteHead(lay, s, p, i, s')
    case CopyHomeStep(p, i, j) => CopyHome(lay, s, p, i, j, s')
    case UnpinStep(p, i) => Unpin(s, p, i, s')
    case ClearHeadStep(p, i) => ClearHead(lay, s, p, i, s')
    case FinishStep(p) => Finish(s, p, s')
  }

  lemma {:induction false} NextKeeps(lay: Layout, s: State, step: Step, s': State)
    requires Inv(lay, s) && Next(lay, s, step, s')
    ensures Inv(lay, s')
  {
    match step
    case BeginStep(p) => BeginKeeps(lay, s, p, s');
    case GetStep(p, b, i) => GetKeeps(lay, s, p, b, i, s');
    case AcquireStep(p, i) => AcquireKeeps(lay, s, p, i, s');
    case ReadStep(p, i) => ReadKeeps(lay, s, p, i, s');
    case ModifyStep(p, i, data) => ModifyKeeps(lay, s, p, i, data, s');
    case LogWriteStep(p, i) => LogWriteKeeps(lay, s, p, i, s');
    case UnlockStep(p, i) => UnlockKeeps(lay, s, p, i, s');
    case DropStep(p, i) => DropKeeps(lay, s, p, i, s');
    case EndStep(p) => EndKeeps(lay, s, p, s');
    case CopyToSlotStep(p, i, j) => CopyToSlotKeeps(lay, s, p, i, j, s');
    case WriteHeadStep(p, i) => WriteHeadKeeps(lay, s, p, i, s');
    case CopyHomeStep(p, i, j) => CopyHomeKeeps(lay, s, p, i, j, s');
    case UnpinStep(p, i) => UnpinKeeps(lay, s, p, i, s');
    case ClearHeadStep(p, i) => ClearHeadKeeps(lay, s, p, i, s');
    case FinishStep(p) => FinishKeeps(lay, s, p, s');
  }

  /** Right after boot, with an empty log on disk.  Recovery, which found nothing to install, has read a block or
      two and released them. */
  ghost predicate Init(lay: Layout, s: State) {
    && s.lh == [] && s.dirty == {} && s.ops == {} && s.phase == Idle && AtRest(s.cache.bufs, s.users)
    && Mapped(s.cache.bufs, s.at, |s.disk|) && Shown(s.cache.bufs, s.disk)
    && s.disk == s.logical == s.committed && LogOk(lay, s.disk) && s.disk[lay.start][0] == 0
  }

  ghost predicate AtRest(bufs: Bufs, users: seq<set<nat>>) {
    |bufs| == |users| == NBUF && forall i :: 0 <= i < NBUF ==> bufs[i].refcnt == bufs[i].holder == 0 && users[i] == {}
  }

  ghost predicate Run(lay: Layout, states: seq<State>, steps: seq<Step>) {
    && |states| == |steps| + 1 && Init(lay, states[0])
    && (forall n {:trigger Stepped(lay, states, steps, n)} :: 0 <= n < |steps| ==> Stepped(lay, states, steps, n))
  }

  ghost predicate Stepped(lay: Layout, states: seq<State>, steps: seq<Step>, n: nat)
    requires |states| == |steps| + 1 && n < |steps|
  {
    Next(lay, states[n], steps[n], states[n + 1])
  }

  lemma {:induction false} InitOk(lay: Layout, s: State)
    requires Init(lay, s)
    ensures Inv(lay, s)
  {
  }

  /** `Inv`, closed; an assertion of `Unfolded` opens it. */
  ghost predicate Good(lay: Layout, s: State) {
    forall k {:trigger Unfolded(k, s)} :: Unfolded(k, s) ==> Inv(lay, s)
  }

  ghost predicate Unfolded(k: int, s: State) { true }

  lemma {:induction false} NextGood(lay: Layout, s: State, step: Step, s': State)
    requires Good(lay, s) && Next(lay, s, step, s')
    ensures Good(lay, s')
  {
    assert Unfolded(0, s);
    NextKeeps(lay, s, step, s');
  }

  lemma {:induction false} InitGood(lay: Layout, s: State)
    requires Init(lay, s)
    ensures Good(lay, s)
  {
    InitOk(lay, s);
  }

  lemma {:induction false} RunStep(lay: Layout, states: seq<State>, steps: seq<Step>, n: nat)
    requires Run(lay, states, steps) && n < |steps|
    ensures Next(lay, states[n], steps[n], states[n + 1])
  {
    assert Stepped(lay, states, steps, n);
  }

  lemma {:induction false} RunStepGood(lay: Layout, states: seq<State>, steps: seq<Step>, n: nat)
    requires Run(lay, states, steps) && n < |steps| && Good(lay, states[n])
    ensures Good(lay, states[n + 1])
  {
    RunStep(lay, states, steps, n);
    NextGood(lay, states[n], steps[n], states[n + 1]);
  }

  lemma {:induction false} RunGood(lay: Layout, states: seq<State>, steps: seq<Step>, n: nat)
    requires Run(lay, states, steps) && n < |states|
    ensures Good(lay, states[n])
  {
    if n == 0 {
      InitGood(lay, states[0]);
    } else {
      RunGood(lay, states, steps, n - 1);
      RunStepGood(lay, states, steps, n - 1);
    }
  }

  lemma {:induction false} RunKeeps(lay: Layout, states: seq<State>, steps: seq<Step>, n: nat)
    requires Run(lay, states, steps) && n < |states|
    ensures Inv(lay, states[n])
  {
    RunGood(lay, states, steps, n);
    assert Unfolded(0, states[n]);
  }

  lemma {:induction false} RecoversCommitted(lay: Layout, s: State, b: int)
    requires Inv(lay, s)
    ensures LogOk(lay, s.disk) && |s.disk| == |s.committed|
    ensures Home(lay, |s.disk|, b) ==> Recovered(lay, s.disk, b) == s.committed[b]
  {
    if s.phase.Installing? { NothingDirty(lay, s); }
    DurableRecovers(lay, s.disk, s.logical, s.committed, s.lh, s.phase, s.dirty, Pending(s), b);
  }

  lemma {:induction false} DurableRecovers(lay: Layout, disk: Disk, logical: Disk, committed: Disk, lh: seq<int>, phase: Phase,
                                           dirty: set<int>, pending: seq<int>, b: int)
    requires Durable(lay, disk, logical, committed, lh, phase) && Ahead(disk, logical, pending, dirty)
    requires phase.Installing? ==> dirty == {} && forall x :: x in pending ==> x in lh
    ensures LogOk(lay, disk) && |disk| == |committed|
    ensures Home(lay, |disk|, b) ==> Recovered(lay, disk, b) == committed[b]
  {
    DurableHeader(lay, disk, logical, committed, lh, phase);
    if phase.Installing? && Home(lay, |disk|, b) { InstallingRecovers(lay, disk, logical, committed, lh, pending, b); }
  }

  lemma {:induction false} DurableHeader(lay: Layout, disk: Disk, logical: Disk, committed: Disk, lh: seq<int>, phase: Phase)
    requires Durable(lay, disk, logical, committed, lh, phase)
    ensures LogOk(lay, disk) && Header(lay, disk) == if phase.Installing? then lh else []
  {
  }

  lemma {:induction false} InstallingRecovers(lay: Layout, disk: Disk, logical: Disk, committed: Disk, lh: seq<int>, pending: seq<int>, b: int)
    requires ListOk(lay, |disk|, lh) && AgreeHome(lay, logical, committed) && Ahead(disk, logical, pending, {}) && Home(lay, |disk|, b)
    requires SlotsHold(lay, disk, logical, lh, |lh|) && forall x :: x in pending ==> x in lh
    ensures (if b in lh then disk[lay.start + 1 + IndexOf(lh, b)] else disk[b]) == committed[b]
  {
    if b in lh {
      var i := IndexOf(lh, b);
      assert disk[lay.start + 1 + i] == logical[lh[i]];
    } else {
      assert disk[b] == logical[b];
    }
  }

  /** Crash safety of every run: wherever it stops, and however often recovery crashes in turn, the
      recovered home blocks are those of the last commit point. */
  lemma {:induction false} EveryCrashRecovers(lay: Layout, states: seq<State>, steps: seq<Step>, n: nat, ks: seq<nat>)
    requires Run(lay, states, steps) && n < |states|
    ensures LogOk(lay, states[n].disk)
    ensures AgreeHome(lay, Recover(lay, CrashedRecoveries(lay, states[n].disk, ks)), states[n].committed)
  {
    var s := states[n];
    RunKeeps(lay, states, steps, n);
    RecoversCommitted(lay, s, 0);
    RecoveryIsRobust(lay, s.disk, ks);
    forall b | Home(lay, |s.disk|, b) ensures Recover(lay, CrashedRecoveries(lay, s.disk, ks))[b] == s.committed[b] {
      RecoversCommitted(lay, s, b);
    }
  }

  /** What clients have written: the blocks of the disk at boot, with the changes of the first `n` steps. */
  ghost function Replay(states: seq<State>, steps: seq<Step>, n: nat): (d: Disk)
    requires |states| == |steps| + 1 && n < |states|
    ensures |d| == |states[0].disk|
  {
    if n == 0 then states[0].disk else Changed(Replay(states, steps, n - 1), states[n - 1].cache.bufs, steps[n - 1])
  }

  ghost function Changed(d: Disk, bufs: Bufs, step: Step): Disk {
    if step.ModifyStep? && step.i < |bufs| && 0 <= bufs[step.i].blockno < |d| then d[bufs[step.i].blockno := step.data] else d
  }

  lemma {:induction false} StepLogical(lay: Layout, s: State, step: Step, s': State, d: Disk)
    requires Next(lay, s, step, s') && AgreeHome(lay, s.logical, d) && ListOk(lay, |s.disk|, s.lh)
    ensures AgreeHome(lay, s'.logical, Changed(d, s.cache.bufs, step))
  {
  }

  lemma {:induction false} RunStepLogical(lay: Layout, states: seq<State>, steps: seq<Step>, n: nat, d: Disk)
    requires Run(lay, states, steps) && n < |steps| && AgreeHome(lay, states[n].logical, d)
    ensures AgreeHome(lay, states[n + 1].logical, Changed(d, states[n].cache.bufs, steps[n]))
  {
    RunStep(lay, states, steps, n);
    RunListOk(lay, states, steps, n);
    StepLogical(lay, states[n], steps[n], states[n + 1], d);
  }

  lemma {:induction false} RunListOk(lay: Layout, states: seq<State>, steps: seq<Step>, n: nat)
    requires Run(lay, states, steps) && n < |states|
    ensures ListOk(lay, |states[n].disk|, states[n].lh)
  {
    RunKeeps(lay, states, steps, n);
  }

  /** The history `logical` is the replay of the run. */
  lemma {:induction false} LogicalIsReplay(lay: Layout, states: seq<State>, steps: seq<Step>, n: nat)
    requires Run(lay, states, steps) && n < |states|
    ensures AgreeHome(lay, states[n].logical, Replay(states, steps, n))
  {
    if n > 0 {
      LogicalIsReplay(lay, states, steps, n - 1);
      RunStepLogical(lay, states, steps, n - 1, Replay(states, steps, n - 1));
    }
  }

  /** The commit point of a run is always what clients had written at some moment when no operation
      was running: operations are all or nothing. */
  lemma {:induction false} CommittedAtBoundary(lay: Layout, states: seq<State>, steps: seq<Step>, n: nat) returns (m: nat)
    requires Run(lay, states, steps) && n < |states|
    ensures m <= n && states[m].ops == {} && states[m].dirty == {}
    ensures AgreeHome(lay, Replay(states, steps, m), states[n].committed)
  {
    if n == 0 {
      m := 0;
      InitCommitted(lay, states[0]);
    } else {
      m := CommittedAtBoundary(lay, states, steps, n - 1);
      RunCommitted(lay, states, steps, n - 1);
      if steps[n - 1].WriteHeadStep? {
        LogicalIsReplay(lay, states, steps, n);
        m := n;
      }
    }
  }

  lemma {:induction false} InitCommitted(lay: Layout, s: State)
    requires Init(lay, s)
    ensures s.ops == {} && s.dirty == {} && AgreeHome(lay, s.disk, s.committed)
  {
  }

  /** `committed` moves only at the commit point, and then to what clients have written. */
  lemma {:induction false} RunCommitted(lay: Layout, states: seq<State>, steps: seq<Step>, n: nat)
    requires Run(lay, states, steps) && n < |steps|
    ensures var s, s' := states[n], states[n + 1];
            && (steps[n].WriteHeadStep? ==> s'.committed == s'.logical && s'.ops == {} && s'.dirty == {})
            && (!steps[n].WriteHeadStep? ==> s'.committed == s.committed)
  {
    RunGood(lay, states, steps, n);
    RunStep(lay, states, steps, n);
    if steps[n].WriteHeadStep? {
      HeadWritten(lay, states[n], steps[n], states[n + 1]);
    } else {
      CommittedStays(lay, states[n], steps[n], states[n + 1]);
    }
  }

  lemma {:induction false} HeadWritten(lay: Layout, s: State, step: Step, s': State)
    requires Good(lay, s) && Next(lay, s, step, s') && step.WriteHeadStep?
    ensures s'.committed == s'.logical && s'.ops == {} && s'.dirty == {}
  {
    assert Unfolded(0, s);
    NothingDirty(lay, s);
  }

  lemma {:induction false} CommittedStays(lay: Layout, s: State, step: Step, s': State)
    requires Next(lay, s, step, s') && !step.WriteHeadStep?
    ensures s'.committed == s.committed
  {
  }

  /** Both together: after any crash, and any number of crashed recoveries, the home blocks are what clients had
      written at some moment of the run when no operation was running. */
  lemma {:induction false} CrashShowsBoundary(lay: Layout, states: seq<State>, steps: seq<Step>, n: nat, ks: seq<nat>) returns (m: nat)
    requires Run(lay, states, steps) && n < |states|
    ensures m <= n && states[m].ops == {} && LogOk(lay, states[n].disk)
    ensures AgreeHome(lay, Recover(lay, CrashedRecoveries(lay, states[n].disk, ks)), Replay(states, steps, m))
  {
    m := CommittedAtBoundary(lay, states, steps, n);
    EveryCrashRecovers(lay, states, steps, n, ks);
  }

  /** Once a commit is over, everything written before it is in the home blocks on disk. */
  lemma {:induction false} CommitMakesDurable(lay: Layout, states: seq<State>, steps: seq<Step>, n: nat)
    requires Run(lay, states, steps) && n < |states| && states[n].phase == Finishing
    ensures AgreeHome(lay, states[n].disk, Replay(states, steps, n))
    ensures AgreeHome(lay, states[n].committed, Replay(states, steps, n))
  {
    RunGood(lay, states, steps, n);
    LogicalIsReplay(lay, states, steps, n);
    FinishedSyncs(lay, states[n]);
  }

  lemma {:induction false} FinishedSyncs(lay: Layout, s: State)
    requires Good(lay, s) && s.phase == Finishing
    ensures AgreeHome(lay, s.logical, s.committed) && s.disk == s.logical
  {
    assert Unfolded(0, s);
    NothingDirty(lay, s);
  }

  lemma {:induction false} OnlyInstallWritesHome(lay: Layout, s: State, step: Step, s': State, b: int)
    requires Next(lay, s, step, s') && ListOk(lay, |s.disk|, s.lh) && Home(lay, |s.disk|, b)
    requires |s'.disk| == |s.disk| && s'.disk[b] != s.disk[b]
    ensures step.CopyHomeStep? && s.phase.Installing? && s.phase.k < |s.lh| && s.lh[s.phase.k] == b
    ensures step.j < |s.cache.bufs| && s'.disk[b] == s.cache.bufs[step.j].data
    ensures s.cache.bufs[step.j].valid && s.cache.bufs[step.j].blockno == lay.start + 1 + s.phase.k && s.cache.bufs[step.j].holder != 0
  {
  }

  lemma {:induction false} HeaderLists(lay: Layout, disk: Disk, logical: Disk, committed: Disk, lh: seq<int>, k: nat, u: nat)
    requires Durable(lay, disk, logical, committed, lh, Installing(k, u)) && k < |lh|
    ensures LogOk(lay, disk) && Header(lay, disk) == lh && lh[k] in lh && IndexOf(lh, lh[k]) == k
    ensures disk[lay.start + 1 + k] == logical[lh[k]]
  {
  }

  /** Write-ahead: in every run a home block changes on disk only when the header on disk lists it, and then it
      receives the copy in its log slot. */
  lemma {:induction false} WriteAhead(lay: Layout, states: seq<State>, steps: seq<Step>, n: nat, b: int)
    requires Run(lay, states, steps) && n < |steps| && Home(lay, |states[n].disk|, b)
    requires |states[n + 1].disk| == |states[n].disk| && states[n + 1].disk[b] != states[n].disk[b]
    ensures LogOk(lay, states[n].disk) && b in Header(lay, states[n].disk)
    ensures states[n + 1].disk[b] == states[n].disk[lay.start + 1 + IndexOf(Header(lay, states[n].disk), b)]
  {
    RunListOk(lay, states, steps, n);
    RunStep(lay, states, steps, n);
    OnlyInstallWritesHome(lay, states[n], steps[n], states[n + 1], b);
    RunGood(lay, states, steps, n);
    InstallsSlot(lay, states[n], steps[n].j);
  }

  lemma {:induction false} InstallsSlot(lay: Layout, s: State, j: nat)
    requires Good(lay, s) && s.phase.Installing? && s.phase.k < |s.lh| && j < |s.cache.bufs|
    requires var b := s.cache.bufs[j]; b.valid && b.blockno == lay.start + 1 + s.phase.k && b.holder != 0
    ensures LogOk(lay, s.disk) && s.lh[s.phase.k] in Header(lay, s.disk)
    ensures s.cache.bufs[j].data == s.disk[lay.start + 1 + IndexOf(Header(lay, s.disk), s.lh[s.phase.k])]
  {
    SlotData(lay, s, j);
    InstallingHeader(lay, s);
  }

  lemma {:induction false} InstallingHeader(lay: Layout, s: State)
    requires Good(lay, s) && s.phase.Installing? && s.phase.k < |s.lh|
    ensures LogOk(lay, s.disk) && Header(lay, s.disk) == s.lh && s.lh[s.phase.k] in s.lh && IndexOf(s.lh, s.lh[s.phase.k]) == s.phase.k
    ensures |s.logical| == |s.disk| && s.disk[lay.start + 1 + s.phase.k] == s.logical[s.lh[s.phase.k]]
  {
    GoodDurable(lay, s);
    HeaderLists(lay, s.disk, s.logical, s.committed, s.lh, s.phase.k, s.phase.u);
  }

  lemma {:induction false} GoodDurable(lay: Layout, s: State)
    requires Good(lay, s)
    ensures Durable(lay, s.disk, s.logical, s.committed, s.lh, s.phase)
  {
    assert Unfolded(0, s);
  }

  lemma {:induction false} SlotData(lay: Layout, s: State, j: nat)
    requires Good(lay, s) && s.phase.Installing? && s.phase.k < |s.lh| && j < |s.cache.bufs|
    requires var b := s.cache.bufs[j]; b.valid && b.blockno == lay.start + 1 + s.phase.k && b.holder != 0
    ensures 0 <= s.lh[s.phase.k] < |s.logical| && s.cache.bufs[j].data == s.logical[s.lh[s.phase.k]]
  {
    assert Unfolded(0, s);
    SlotInstalls(lay, s, j);
  }

  lemma {:induction false} SlotInstalls(lay: Layout, s: State, j: nat)
    requires Held(s.cache.bufs, s.users) && Shown(s.cache.bufs, s.logical) && DirtyHeld(s.cache.bufs, s.at, s.dirty, {}, lay, |s.disk|)
    requires Ahead(s.disk, s.logical, Pending(s), s.dirty) && Durable(lay, s.disk, s.logical, s.committed, s.lh, s.phase)
    requires s.phase.Installing? && s.phase.k < |s.lh| && j < |s.cache.bufs|
    requires var b := s.cache.bufs[j]; b.valid && b.blockno == lay.start + 1 + s.phase.k && b.holder != 0
    ensures s.cache.bufs[j].data == s.logical[s.lh[s.phase.k]]
  {
    HolderOnDevice(s, j);
    NothingDirty(lay, s);
    SlotShows(lay, s, j);
  }

  /** Transparency: whatever the interleaving, and wherever the current contents are (in the cache, in the log or at
      home), a client that holds a buffer sees what clients have written to its block. */
  lemma {:induction false} BreadDelivers(lay: Layout, states: seq<State>, steps: seq<Step>, n: nat, p: nat, i: nat)
    requires Run(lay, states, steps) && n < |states| && Holds(states[n], p, i) && states[n].cache.bufs[i].valid
    requires !InLog(lay, states[n].cache.bufs[i].blockno)
    ensures var b := states[n].cache.bufs[i];
            0 <= b.blockno < |states[0].disk| && b.data == Replay(states, steps, n)[b.blockno]
  {
    RunGood(lay, states, steps, n);
    LogicalIsReplay(lay, states, steps, n);
    ShowsLogical(lay, states[n], i);
  }

  lemma {:induction false} ShowsLogical(lay: Layout, s: State, i: nat)
    requires Good(lay, s) && i < |s.cache.bufs| && s.cache.bufs[i].holder != 0 && s.cache.bufs[i].valid
    ensures |s.logical| == |s.disk| && 0 <= s.cache.bufs[i].blockno < |s.logical| && s.cache.bufs[i].data == s.logical[s.cache.bufs[i].blockno]
  {
    assert Unfolded(0, s);
    HolderOnDevice(s, i);
  }
}
