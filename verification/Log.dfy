/** The in-memory log of kernel/log.c, as one process runs its methods.

`cached` is what the buffer cache holds, by block number, and `disk` what the disk holds.  `view`
is what `bread` delivers; `writes` records every block write since `origin`, so that a crash
between two writes is a prefix of it. */
module Log {
  import opened Blocks

  /** The cache shows `view` over `disk`. */
  ghost predicate Caches(cached: map<int, Block>, disk: Disk, view: Disk) {
    && |view| == |disk|
    && (forall b :: b in cached ==> 0 <= b < |view| && cached[b] == view[b])
    && (forall b :: 0 <= b < |disk| && b !in cached ==> disk[b] == view[b])
  }

  /** Only logged blocks may differ from the disk. */
  ghost predicate Clean(disk: Disk, view: Disk, lh: seq<int>) {
    |view| == |disk| && forall b :: 0 <= b < |disk| && disk[b] != view[b] ==> b in lh
  }

  /** What `view` holds for the blocks `bs`. */
  ghost function Contents(view: Disk, bs: seq<int>): (data: seq<Block>)
    requires forall i :: 0 <= i < |bs| ==> 0 <= bs[i] < |view|
    ensures |data| == |bs|
  {
    seq(|bs|, i requires 0 <= i < |bs| => view[bs[i]])
  }

  /** The first `k` log slots. */
  ghost function Slots(lay: Layout, k: nat): seq<int> {
    seq(k, i => lay.start + 1 + i)
  }

  /** `write_log` copies what the view held before it started. */
  lemma {:induction false} SlotTurn(lay: Layout, view: Disk, lh: seq<int>, t: nat)
    requires ListOk(lay, |view|, lh) && t < |lh|
    ensures var ws := SlotWrites(lay, Contents(view, lh));
            ws[t] == Write(lay.start + t + 1, Apply(view, ws[..t])[lh[t]])
  {
    var ws := SlotWrites(lay, Contents(view, lh));
    ApplyMisses(view, ws[..t], lh[t]);
  }

  lemma {:induction false} HomeTurn(lay: Layout, view: Disk, lh: seq<int>, t: nat)
    requires ListOk(lay, |view|, lh) && t < |lh|
    ensures var ws := HomeWrites(lh, Contents(view, Slots(lay, |lh|)));
            ws[t] == Write(lh[t], Apply(view, ws[..t])[lay.start + t + 1])
  {
    var ws := HomeWrites(lh, Contents(view, Slots(lay, |lh|)));
    ApplyMisses(view, ws[..t], lay.start + t + 1);
  }

  /** The log slots and the header, as the first half of a commit leaves them in the view. */
  ghost function LogAndHeadWrites(lay: Layout, view: Disk, lh: seq<int>): seq<Write>
    requires ListOk(lay, |view|, lh)
  {
    SlotWrites(lay, Contents(view, lh)) + [Write(lay.start, Encode(view[lay.start], lh))]
  }

  lemma {:induction false} CommitStages(lay: Layout, view: Disk, lh: seq<int>)
    requires ListOk(lay, |view|, lh)
    ensures Apply(view, SlotWrites(lay, Contents(view, lh)))[lay.start] == view[lay.start]
    ensures Apply(view, LogAndHeadWrites(lay, view, lh))[lay.start] == Encode(view[lay.start], lh)
    ensures Contents(Apply(view, LogAndHeadWrites(lay, view, lh)), Slots(lay, |lh|)) == Contents(view, lh)
  {
    var data := Contents(view, lh);
    var ws := LogAndHeadWrites(lay, view, lh);
    ApplyMisses(view, SlotWrites(lay, data), lay.start);
    ApplyLast(view, ws, |lh|);
    forall i | 0 <= i < |lh| ensures Apply(view, ws)[lay.start + 1 + i] == data[i] { ApplyLast(view, ws, i); }
  }

  /** The home blocks and the cleared header, as the second half of a commit writes them. */
  ghost function InstallAndClearWrites(lay: Layout, view: Disk, lh: seq<int>): seq<Write>
    requires ListOk(lay, |view|, lh)
  {
    HomeWrites(lh, Contents(view, Slots(lay, |lh|))) + [Write(lay.start, Encode(view[lay.start], []))]
  }

  /** The two halves of a commit make `CommitWrites`. */
  lemma {:induction false} CommitJoins(lay: Layout, disk: Disk, view: Disk, lh: seq<int>, writes: seq<Write>)
    requires ListOk(lay, |view|, lh) && lh != []
    ensures var a := LogAndHeadWrites(lay, view, lh);
            var b := InstallAndClearWrites(lay, Apply(view, a), lh);
            var ws := CommitWrites(lay, view, lh, Contents(view, lh));
            && Apply(Apply(view, a), b) == Apply(view, ws) && Apply(Apply(disk, a), b) == Apply(disk, ws)
            && (writes + a) + b == writes + ws
  {
    var a := LogAndHeadWrites(lay, view, lh);
    var b := InstallAndClearWrites(lay, Apply(view, a), lh);
    CommitStages(lay, view, lh);
    assert CommitWrites(lay, view, lh, Contents(view, lh)) == a + b;
    ApplyAppend(view, a, b);
    ApplyAppend(disk, a, b);
  }

  /** A commit leaves the view of every home block alone and brings the disk up to it. */
  lemma {:induction false} CommitSyncs(lay: Layout, disk: Disk, view: Disk, lh: seq<int>)
    requires ListOk(lay, |view|, lh) && Clean(disk, view, lh) && disk[lay.start][0] == 0
    ensures var ws := CommitWrites(lay, disk, lh, Contents(view, lh));
            && Apply(disk, ws) == Apply(view, ws) && SameHome(lay, view, Apply(view, ws))
            && Apply(disk, ws)[lay.start][0] == 0
  {
    var ws := CommitWrites(lay, disk, lh, Contents(view, lh));
    forall b | 0 <= b < |disk| ensures Apply(disk, ws)[b] == Apply(view, ws)[b] {
      if b in lh { assert ws[|lh| + 1 + IndexOf(lh, b)].block == b; }
      ApplyAgrees(disk, view, ws, b);
    }
    assert ws == ws[..|ws|] == CommitWrites(lay, view, lh, Contents(view, lh))[..|ws|];
    if lh != [] { ApplyLast(disk, ws, |ws| - 1); }
    forall b | Home(lay, |view|, b) ensures Apply(view, ws)[b] == view[b] {
      CommitHome(lay, view, lh, Contents(view, lh), |ws|, b);
    }
  }

  lemma {:induction false} CachesPut(cached: map<int, Block>, disk: Disk, view: Disk, b: int, data: Block)
    requires Caches(cached, disk, view) && 0 <= b < |disk|
    ensures Caches(cached[b := data], disk[b := data], view[b := data])
  {
  }

  lemma {:induction false} CachesStore(cached: map<int, Block>, disk: Disk, view: Disk, lh: seq<int>, b: int, data: Block)
    requires Caches(cached, disk, view) && Clean(disk, view, lh) && 0 <= b < |disk|
    ensures Caches(cached[b := data], disk, view[b := data]) && Clean(disk, view[b := data], lh + [b])
  {
  }

  lemma {:induction false} ApplyOne(d: Disk, ws: seq<Write>, w: Write)
    ensures Apply(d, ws + [w]) == Put(Apply(d, ws), w)
  {
    assert (ws + [w])[..|ws|] == ws;
  }

  /** Writes done in two parts. */
  lemma {:induction false} ApplyBoth(d: Disk, view: Disk, writes: seq<Write>, a: seq<Write>, b: seq<Write>)
    ensures Apply(d, a + b) == Apply(Apply(d, a), b) && Apply(view, a + b) == Apply(Apply(view, a), b)
    ensures writes + a + b == writes + (a + b)
  {
    ApplyAppend(d, a, b);
    ApplyAppend(view, a, b);
  }

  class Log {
    const lay: Layout
    const block: array<int>
    var n: nat
    var outstanding: int
    var committing: bool
    var cached: map<int, Block>
    var disk: Disk
    ghost const origin: Disk
    ghost var view: Disk
    ghost var writes: seq<Write>

    ghost predicate Backed()
      reads this
    {
      Caches(cached, disk, view) && disk == Apply(origin, writes)
    }

    /** The disk, the view and the history have all moved on by the writes `ws`. */
    ghost predicate Did(disk0: Disk, view0: Disk, writes0: seq<Write>, ws: seq<Write>)
      reads this
    {
      disk == Apply(disk0, ws) && view == Apply(view0, ws) && writes == writes0 + ws
    }

    ghost predicate Ready()
      reads this, block
    {
      block.Length == LOGSIZE && n <= LOGSIZE && ListOk(lay, |disk|, block[..n]) && Backed()
    }

    ghost predicate Valid()
      reads this, block
    {
      Ready() && Clean(disk, view, block[..n]) && disk[lay.start][0] == 0
    }

    constructor (lay: Layout, disk: Disk)
      requires lay.start + lay.size <= |disk| && 0 < lay.size
      ensures block.Length == LOGSIZE && fresh(block) && Backed() && this.lay == lay && this.disk == view == disk && n == 0
      ensures outstanding == 0 && !committing
    {
      this.lay, this.disk, origin, view := lay, disk, disk, disk;
      block := new int[LOGSIZE];
      n, outstanding, committing := 0, 0, false;
      cached, writes := map[], [];
    }

    method Bread(b: int) returns (data: Block)
      requires Backed() && 0 <= b < |disk|
      modifies this`cached
      ensures Backed() && data == view[b]
    {
      if b !in cached {
        cached := cached[b := disk[b]];
      }
      data := cached[b];
    }

    /** Store `data` into the buffer of block `b` and write it to disk. */
    method Bwrite(b: int, data: Block)
      requires Backed() && 0 <= b < |disk|
      modifies this`cached, this`disk, this`view, this`writes
      ensures Backed() && view == old(view)[b := data] && disk == old(disk)[b := data]
      ensures writes == old(writes) + [Write(b, data)]
    {
      CachesPut(cached, disk, view, b, data);
      ApplyOne(origin, writes, Write(b, data));
      cached := cached[b := data];
      disk := disk[b := data];
      view := view[b := data];
      writes := writes + [Write(b, data)];
    }

    /** `bwrite` as step `t` of the planned writes `ws`. */
    method BwriteNext(b: int, data: Block, ghost disk0: Disk, ghost view0: Disk, ghost writes0: seq<Write>, ghost ws: seq<Write>, ghost t: nat)
      requires Backed() && 0 <= b < |disk| && t < |ws| && ws[t] == Write(b, data) && Did(disk0, view0, writes0, ws[..t])
      modifies this`cached, this`disk, this`view, this`writes
      ensures Backed() && |disk| == old(|disk|) && Did(disk0, view0, writes0, ws[..t + 1])
    {
      ApplyStep(disk0, ws, t);
      ApplyStep(view0, ws, t);
      Bwrite(b, data);
    }

    /** `begin_op`, up to the point where it either sleeps or returns. */
    method BeginOp() returns (admitted: bool)
      modifies this`outstanding
      ensures admitted <==> !committing && n + (old(outstanding) + 1) * MAXOPBLOCKS <= LOGSIZE
      ensures outstanding == old(outstanding) + if admitted then 1 else 0
    {
      if committing {
        admitted := false;
      } else if n + (outstanding + 1) * MAXOPBLOCKS > LOGSIZE {
        admitted := false;
      } else {
        outstanding := outstanding + 1;
        admitted := true;
      }
    }

    /** `log_write` for the buffer of block `b`, which the caller has just changed. */
    method LogWrite(b: int) returns (panicked: bool)
      requires Ready() && Home(lay, |disk|, b) && Clean(disk, view, block[..n] + [b]) && disk[lay.start][0] == 0
      modifies this`n, block
      ensures panicked <==> old(n) >= LOGSIZE || old(n) >= lay.size - 1 || outstanding < 1
      ensures panicked ==> n == old(n) && block[..n] == old(block[..n])
      ensures !panicked ==> Valid() && block[..n] == if b in old(block[..n]) then old(block[..n]) else old(block[..n]) + [b]
    {
      if n >= LOGSIZE || n >= lay.size - 1 {
        return true;
      }
      if outstanding < 1 {
        return true;
      }
      var i := 0;
      while i < n
        invariant i <= n && b !in block[..i]
      {
        if block[i] == b {
          break;
        }
        i := i + 1;
      }
      block[i] := b;
      if i == n {
        n := n + 1;
      }
      assert old(n) < n ==> block[..n] == old(block[..n]) + [b];
      assert old(n) == n ==> block[..n] == old(block[..n]);
      panicked := false;
    }

    /** What a client does to block `b`: `bread`, a change of the buffer, `log_write`.  If it panics the log is as it was. */
    method Update(b: int, data: Block) returns (panicked: bool)
      requires Valid() && Home(lay, |disk|, b)
      modifies this`cached, this`view, this`n, block
      ensures panicked <==> old(n) >= LOGSIZE || old(n) >= lay.size - 1 || outstanding < 1
      ensures view == old(view)[b := data]
      ensures !panicked ==> Valid() && block[..n] == if b in old(block[..n]) then old(block[..n]) else old(block[..n]) + [b]
    {
      CachesStore(cached, disk, view, block[..n], b, data);
      cached, view := cached[b := data], view[b := data];
      panicked := LogWrite(b);
    }

    // -------------------------------------------------------------------------
    // Commit and recovery

    /** One turn of the loop of `write_log`. */
    method CopyToSlot(tail: nat, ghost disk0: Disk, ghost view0: Disk, ghost writes0: seq<Write>, ghost ws: seq<Write>)
      requires Ready() && tail < n && ListOk(lay, |view0|, block[..n]) && ws == SlotWrites(lay, Contents(view0, block[..n]))
      requires Did(disk0, view0, writes0, ws[..tail])
      modifies this`cached, this`disk, this`view, this`writes
      ensures Ready() && Did(disk0, view0, writes0, ws[..tail + 1])
    {
      assert Home(lay, |disk|, block[..n][tail]);
      var to := Bread(lay.start + tail + 1);
      var from := Bread(block[tail]);
      SlotTurn(lay, view0, block[..n], tail);
      BwriteNext(lay.start + tail + 1, from, disk0, view0, writes0, ws, tail);
    }

    method WriteLog()
      requires Ready()
      modifies this`cached, this`disk, this`view, this`writes
      ensures Ready() && Did(old(disk), old(view), old(writes), SlotWrites(lay, Contents(old(view), block[..n])))
    {
      ghost var ws := SlotWrites(lay, Contents(view, block[..n]));
      var tail := 0;
      while tail < n
        invariant tail <= n && Ready() && Did(old(disk), old(view), old(writes), ws[..tail])
      {
        CopyToSlot(tail, old(disk), old(view), old(writes), ws);
        tail := tail + 1;
      }
      assert ws[..n] == ws;
    }

    /** One turn of the loop of `install_trans`. */
    method CopyHome(tail: nat, ghost disk0: Disk, ghost view0: Disk, ghost writes0: seq<Write>, ghost ws: seq<Write>)
      requires Ready() && tail < n && ListOk(lay, |view0|, block[..n])
      requires ws == HomeWrites(block[..n], Contents(view0, Slots(lay, n))) && Did(disk0, view0, writes0, ws[..tail])
      modifies this`cached, this`disk, this`view, this`writes
      ensures Ready() && Did(disk0, view0, writes0, ws[..tail + 1])
    {
      assert Home(lay, |disk|, block[..n][tail]);
      var lbuf := Bread(lay.start + tail + 1);
      var dbuf := Bread(block[tail]);
      HomeTurn(lay, view0, block[..n], tail);
      BwriteNext(block[tail], lbuf, disk0, view0, writes0, ws, tail);
    }

    method InstallTrans()
      requires Ready()
      modifies this`cached, this`disk, this`view, this`writes
      ensures Ready() && Did(old(disk), old(view), old(writes), HomeWrites(block[..n], Contents(old(view), Slots(lay, n))))
    {
      ghost var ws := HomeWrites(block[..n], Contents(view, Slots(lay, n)));
      var tail := 0;
      while tail < n
        invariant tail <= n && Ready() && Did(old(disk), old(view), old(writes), ws[..tail])
      {
        CopyHome(tail, old(disk), old(view), old(writes), ws);
        tail := tail + 1;
      }
      assert ws[..n] == ws;
    }

    /** The header as `write_head` fills it in. */
    method HeadBlock(buf: Block) returns (hb: Block)
      requires block.Length == LOGSIZE && n <= LOGSIZE
      ensures hb == Encode(buf, block[..n])
    {
      hb := buf[0 := n];
      var i := 0;
      while i < n
        invariant i <= n && hb == [n] + block[..i] + buf[1 + i..]
      {
        hb := hb[1 + i := block[i]];
        i := i + 1;
      }
    }

    method WriteHead()
      requires Ready()
      modifies this`cached, this`disk, this`view, this`writes
      ensures Ready() && Did(old(disk), old(view), old(writes), [Write(lay.start, Encode(old(view[lay.start]), block[..n]))])
    {
      var buf := Bread(lay.start);
      var hb := HeadBlock(buf);
      Bwrite(lay.start, hb);
      assert [Write(lay.start, hb)][..0] == [];
    }

    method ReadHead()
      requires block.Length == LOGSIZE && Backed() && LogOk(lay, view)
      modifies this`cached, this`n, block
      ensures Ready() && block[..n] == Decode(view[lay.start])
    {
      var buf := Bread(lay.start);
      n := buf[0];
      var i := 0;
      while i < n
        invariant Backed() && i <= n == buf[0] && block[..i] == buf[1..1 + i]
      {
        block[i] := buf[1 + i];
        i := i + 1;
      }
    }
  
    /** The first half of `commit`: log and header. */
    method LogAndHeader()
      requires Ready() && n > 0
      modifies this`cached, this`disk, this`view, this`writes
      ensures Ready()
      ensures Did(old(disk), old(view), old(writes), LogAndHeadWrites(lay, old(view), block[..n]))
    {
      ghost var a := SlotWrites(lay, Contents(view, block[..n]));
      ghost var b := [Write(lay.start, Encode(view[lay.start], block[..n]))];
      CommitStages(lay, view, block[..n]);
      ApplyBoth(disk, view, writes, a, b);
      ghost var head := view[lay.start];
      WriteLog();
      assert view[lay.start] == head;
      WriteHead();
    }

    /** The second half of `commit`, and all of recovery but reading the header: install and clear. */
    method InstallAndClear()
      requires Ready()
      modifies this`cached, this`disk, this`view, this`writes, this`n
      ensures Ready() && n == 0
      ensures Did(old(disk), old(view), old(writes), InstallAndClearWrites(lay, old(view), old(block[..n])))
    {
      ghost var a := HomeWrites(block[..n], Contents(view, Slots(lay, n)));
      ghost var b := [Write(lay.start, Encode(view[lay.start], []))];
      ApplyMisses(view, a, lay.start);
      ApplyBoth(disk, view, writes, a, b);
      InstallTrans();
      n := 0;
      WriteHead();
    }

    /** `commit` on a log that is not empty. */
    method CommitSome()
      requires Ready() && n > 0
      modifies this`cached, this`disk, this`view, this`writes, this`n
      ensures Ready() && n == 0
      ensures Did(old(disk), old(view), old(writes), CommitWrites(lay, old(view), old(block[..n]), Contents(old(view), old(block[..n]))))
    {
      CommitJoins(lay, disk, view, block[..n], writes);
      LogAndHeader();
      InstallAndClear();
    }

    /** `commit`. */
    method Commit()
      requires Valid()
      modifies this`cached, this`disk, this`view, this`writes, this`n
      ensures Valid() && n == 0 && disk == view && SameHome(lay, old(view), view)
      ensures Did(old(disk), old(view), old(writes), CommitWrites(lay, old(disk), old(block[..n]), Contents(old(view), old(block[..n]))))
    {
      CommitSyncs(lay, disk, view, block[..n]);
      assert disk[lay.start] == view[lay.start];
      if n > 0 {
        CommitSome();
      }
    }

    /** `recover_from_log`, with nothing cached yet. */
    method RecoverFromLog()
      requires block.Length == LOGSIZE && Backed() && view == disk && LogOk(lay, disk)
      modifies this`cached, this`disk, this`view, this`writes, this`n, block
      ensures Valid() && n == 0 && disk == Recover(lay, old(disk))
      ensures writes == old(writes) + RecoveryWrites(lay, old(disk))
    {
      ReadHead();
      assert HomeWrites(block[..n], Contents(view, Slots(lay, n))) == InstallWrites(lay, disk, block[..n]);
      RecoveryCompletes(lay, disk);
      InstallAndClear();
    }

    /** `end_op`: the last operation out commits. */
    method EndOp() returns (panicked: bool)
      requires Valid()
      modifies this`cached, this`disk, this`view, this`writes, this`n, this`outstanding, this`committing
      ensures Valid() && outstanding == old(outstanding) - 1 && panicked == committing == old(committing)
      ensures panicked || outstanding != 0 ==> n == old(n) && disk == old(disk) && view == old(view) && writes == old(writes)
      ensures !panicked && outstanding == 0 ==>
                && n == 0 && disk == view && SameHome(lay, old(view), view)
                && Did(old(disk), old(view), old(writes), CommitWrites(lay, old(disk), old(block[..n]), Contents(old(view), old(block[..n]))))
    {
      var do_commit := false;
      outstanding := outstanding - 1;
      if committing {
        return true;
      }
      if outstanding == 0 {
        do_commit := true;
        committing := true;
      }
      if do_commit {
        Commit();
        committing := false;
      }
      panicked := false;
    }
  }
}
