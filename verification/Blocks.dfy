/** Disk blocks, the on-disk log of kernel/log.c, and what recovery makes of a disk.

A block is 256 words of 32 bits; the disk is a sequence of blocks; one block write is atomic. */
module Blocks {

  const WORDS := 256
  const MAXOPBLOCKS := 10
  const LOGSIZE := 30

  type Block = b: seq<int> | |b| == WORDS witness seq(WORDS, _ => 0)

  type Disk = seq<Block>

  datatype Write = Write(block: int, data: Block)

  /** The log occupies the `size` blocks from `start`: a header, then the data slots. */
  datatype Layout = Layout(start: nat, size: nat)

  function Put(d: Disk, w: Write): Disk {
    if 0 <= w.block < |d| then d[w.block := w.data] else d
  }

  function Apply(d: Disk, ws: seq<Write>): (r: Disk)
    ensures |r| == |d|
  {
    if ws == [] then d else Put(Apply(d, ws[..|ws| - 1]), ws[|ws| - 1])
  }

  // ---------------------------------------------------------------------------
  // The header block

  /** Writing `lh` into the header block changes the count and the first `|lh|` entries only. */
  function Encode(was: Block, lh: seq<int>): Block
    requires |lh| <= LOGSIZE
  {
    [|lh|] + lh + was[1 + |lh|..]
  }

  function Decode(b: Block): seq<int> {
    if 0 <= b[0] <= LOGSIZE then b[1..1 + b[0]] else []
  }

  lemma {:induction false} DecodeEncode(was: Block, lh: seq<int>)
    requires |lh| <= LOGSIZE
    ensures Decode(Encode(was, lh)) == lh && Encode(was, lh)[0] == |lh|
  {
    assert Encode(was, lh)[0] == |lh|;
  }

  // ---------------------------------------------------------------------------
  // Well-formed logs

  ghost predicate InLog(lay: Layout, b: int) {
    lay.start <= b < lay.start + lay.size
  }

  ghost predicate Home(lay: Layout, nblocks: nat, b: int) {
    0 <= b < nblocks && !InLog(lay, b)
  }

  /** A list of distinct home blocks that fits the data slots. */
  ghost predicate ListOk(lay: Layout, nblocks: nat, lh: seq<int>) {
    && |lh| < lay.size && |lh| <= LOGSIZE && lay.start + lay.size <= nblocks
    && (forall i :: 0 <= i < |lh| ==> Home(lay, nblocks, lh[i]))
    && (forall i, j :: 0 <= i < j < |lh| ==> lh[i] != lh[j])
  }

  ghost predicate LogOk(lay: Layout, d: Disk) {
    lay.start < |d| && 0 <= d[lay.start][0] <= LOGSIZE && ListOk(lay, |d|, Decode(d[lay.start]))
  }

  ghost function Header(lay: Layout, d: Disk): seq<int>
    requires LogOk(lay, d)
  {
    Decode(d[lay.start])
  }

  function IndexOf(lh: seq<int>, b: int): (i: nat)
    requires b in lh
    ensures i < |lh| && lh[i] == b
  {
    if lh[0] == b then 0 else 1 + IndexOf(lh[1..], b)
  }

  // ---------------------------------------------------------------------------
  // Applying writes, block by block

  ghost predicate Misses(ws: seq<Write>, b: int) {
    forall i :: 0 <= i < |ws| ==> ws[i].block != b
  }

  lemma {:induction false} ApplyMisses(d: Disk, ws: seq<Write>, b: int)
    requires 0 <= b < |d| && Misses(ws, b)
    ensures Apply(d, ws)[b] == d[b]
  {
    if ws != [] {
      ApplyMisses(d, ws[..|ws| - 1], b);
    }
  }

  /** The last write to a block decides what it holds. */
  lemma {:induction false} ApplyLast(d: Disk, ws: seq<Write>, i: nat)
    requires i < |ws| && 0 <= ws[i].block < |d| && Misses(ws[i + 1..], ws[i].block)
    ensures Apply(d, ws)[ws[i].block] == ws[i].data
  {
    var front := ws[..|ws| - 1];
    if i + 1 < |ws| {
      assert front[i + 1..] == ws[i + 1..][..|ws| - i - 2];
      assert ws[|ws| - 1] == ws[i + 1..][|ws| - i - 2];
      ApplyLast(d, front, i);
    }
  }

  lemma {:induction false} ApplyAgrees(d: Disk, d': Disk, ws: seq<Write>, b: int)
    requires |d| == |d'| && 0 <= b < |d| && (d[b] == d'[b] || !Misses(ws, b))
    ensures Apply(d, ws)[b] == Apply(d', ws)[b]
  {
    if ws != [] && ws[|ws| - 1].block != b {
      ApplyAgrees(d, d', ws[..|ws| - 1], b);
    }
  }

  lemma {:induction false} ApplyStep(d: Disk, ws: seq<Write>, t: nat)
    requires t < |ws|
    ensures Apply(d, ws[..t + 1]) == Put(Apply(d, ws[..t]), ws[t]) && ws[..t + 1] == ws[..t] + [ws[t]]
  {
    assert ws[..t + 1][..t] == ws[..t];
  }

  lemma {:induction false} ApplyAppend(d: Disk, ws: seq<Write>, more: seq<Write>)
    ensures Apply(d, ws + more) == Apply(Apply(d, ws), more)
  {
    if more == [] {
      assert ws + more == ws;
    } else {
      assert (ws + more)[..|ws + more| - 1] == ws + more[..|more| - 1];
      ApplyAppend(d, ws, more[..|more| - 1]);
    }
  }

  // ---------------------------------------------------------------------------
  // Recovery

  /** `install_trans` on the transaction the header of `d` lists. */
  function InstallWrites(lay: Layout, d: Disk, lh: seq<int>): seq<Write>
    requires lay.start + 1 + |lh| <= |d|
  {
    seq(|lh|, i requires 0 <= i < |lh| => Write(lh[i], d[lay.start + 1 + i]))
  }

  /** The writes of `recover_from_log`, in order. */
  ghost function RecoveryWrites(lay: Layout, d: Disk): seq<Write>
    requires LogOk(lay, d)
  {
    InstallWrites(lay, d, Header(lay, d)) + [Write(lay.start, Encode(d[lay.start], []))]
  }

  ghost function Recover(lay: Layout, d: Disk): Disk
    requires LogOk(lay, d)
  {
    Apply(d, RecoveryWrites(lay, d))
  }

  /** What block `b` holds once recovery has run: its logged copy if the header lists it. */
  ghost function Recovered(lay: Layout, d: Disk, b: int): Block
    requires LogOk(lay, d) && 0 <= b < |d|
  {
    var lh := Header(lay, d);
    if b in lh then d[lay.start + 1 + IndexOf(lh, b)] else d[b]
  }

  lemma {:induction false} InstallPrefix(lay: Layout, d: Disk, lh: seq<int>, k: nat, b: int)
    requires ListOk(lay, |d|, lh) && k <= |lh| && 0 <= b < |d|
    ensures Apply(d, InstallWrites(lay, d, lh)[..k])[b]
            == if b in lh && IndexOf(lh, b) < k then d[lay.start + 1 + IndexOf(lh, b)] else d[b]
  {
    var ws := InstallWrites(lay, d, lh)[..k];
    if b in lh && IndexOf(lh, b) < k {
      ApplyLast(d, ws, IndexOf(lh, b));
    } else {
      forall i | 0 <= i < k ensures ws[i].block != b { assert ws[i].block == lh[i]; }
      ApplyMisses(d, ws, b);
    }
  }

  /** The disk after `k` writes of a recovery that then crashes. */
  ghost function PartlyRecovered(lay: Layout, d: Disk, k: nat): Disk
    requires LogOk(lay, d)
  {
    var ws := RecoveryWrites(lay, d);
    Apply(d, if k < |ws| then ws[..k] else ws)
  }

  ghost predicate SameLog(lay: Layout, d: Disk, r: Disk) {
    |r| == |d| && forall b :: InLog(lay, b) && 0 <= b < |d| ==> r[b] == d[b]
  }

  lemma {:induction false} SameLogOk(lay: Layout, d: Disk, r: Disk)
    requires LogOk(lay, d) && SameLog(lay, d, r)
    ensures LogOk(lay, r) && Header(lay, r) == Header(lay, d)
  {
    assert r[lay.start] == d[lay.start];
  }

  /** With the same log, a block recovers alike if it is as it was or already holds its slot. */
  lemma {:induction false} SameLogRecovers(lay: Layout, d: Disk, r: Disk, b: int)
    requires LogOk(lay, d) && LogOk(lay, r) && SameLog(lay, d, r) && Header(lay, r) == Header(lay, d) && Home(lay, |d|, b)
    requires r[b] == d[b] || (b in Header(lay, d) && r[b] == Recovered(lay, d, b))
    ensures Recovered(lay, r, b) == Recovered(lay, d, b)
  {
    var lh := Header(lay, d);
    if b in lh { assert InLog(lay, lay.start + 1 + IndexOf(lh, b)); }
  }

  /** Recovery cut short anywhere leaves a well-formed log that recovers to the same home blocks. */
  lemma {:induction false} RecoveryRestarts(lay: Layout, d: Disk, k: nat)
    requires LogOk(lay, d)
    ensures LogOk(lay, PartlyRecovered(lay, d, k))
    ensures forall b :: Home(lay, |d|, b) ==> Recovered(lay, PartlyRecovered(lay, d, k), b) == Recovered(lay, d, b)
  {
    var lh, ws := Header(lay, d), RecoveryWrites(lay, d);
    if k < |ws| {
      var r := PartlyRecovered(lay, d, k);
      assert ws[..k] == InstallWrites(lay, d, lh)[..k];
      forall b | InLog(lay, b) ensures r[b] == d[b] { InstallPrefix(lay, d, lh, k, b); }
      SameLogOk(lay, d, r);
      forall b | Home(lay, |d|, b) ensures Recovered(lay, r, b) == Recovered(lay, d, b) {
        InstallPrefix(lay, d, lh, k, b);
        SameLogRecovers(lay, d, r, b);
      }
    } else {
      RecoveryCompletes(lay, d);
    }
  }

  /** A recovery that runs to the end empties the log and leaves every home block recovered. */
  lemma {:induction false} RecoveryCompletes(lay: Layout, d: Disk)
    requires LogOk(lay, d)
    ensures LogOk(lay, Recover(lay, d)) && Recover(lay, d)[lay.start][0] == 0
    ensures forall b :: Home(lay, |d|, b) ==> Recover(lay, d)[b] == Recovered(lay, d, b)
  {
    var lh, ws := Header(lay, d), RecoveryWrites(lay, d);
    assert ws[..|ws| - 1] == InstallWrites(lay, d, lh)[..|lh|];
    DecodeEncode(d[lay.start], []);
    forall b | Home(lay, |d|, b) ensures Recover(lay, d)[b] == Recovered(lay, d, b) {
      InstallPrefix(lay, d, lh, |lh|, b);
    }
  }

  /** A disk that went through `|ks|` recoveries, the i-th of which crashed after `ks[i]` writes. */
  ghost function CrashedRecoveries(lay: Layout, d: Disk, ks: seq<nat>): (r: Disk)
    requires LogOk(lay, d)
    ensures LogOk(lay, r) && |r| == |d|
    decreases ks
  {
    if ks == [] then d
    else
      RecoveryRestarts(lay, d, ks[0]);
      CrashedRecoveries(lay, PartlyRecovered(lay, d, ks[0]), ks[1..])
  }

  /** However often recovery crashes, the recovery that completes yields the same home blocks. */
  lemma {:induction false} RecoveryIsRobust(lay: Layout, d: Disk, ks: seq<nat>)
    requires LogOk(lay, d)
    ensures forall b :: Home(lay, |d|, b) ==> Recover(lay, CrashedRecoveries(lay, d, ks))[b] == Recovered(lay, d, b)
    decreases ks
  {
    if ks == [] {
      RecoveryCompletes(lay, d);
    } else {
      RecoveryRestarts(lay, d, ks[0]);
      RecoveryIsRobust(lay, PartlyRecovered(lay, d, ks[0]), ks[1..]);
    }
  }

  // ---------------------------------------------------------------------------
  // Commit

  /** The writes of `write_log`: cached contents into the log slots. */
  function SlotWrites(lay: Layout, data: seq<Block>): seq<Write> {
    seq(|data|, i requires 0 <= i < |data| => Write(lay.start + 1 + i, data[i]))
  }

  /** The writes of `install_trans`: contents into the home blocks. */
  function HomeWrites(lh: seq<int>, data: seq<Block>): seq<Write>
    requires |lh| == |data|
  {
    seq(|lh|, i requires 0 <= i < |lh| => Write(lh[i], data[i]))
  }

  /** The writes of `commit` for the blocks `lh` whose cached contents are `data`: the log slots,
      the header, the home blocks, the cleared header. */
  function CommitWrites(lay: Layout, d: Disk, lh: seq<int>, data: seq<Block>): (ws: seq<Write>)
    requires |lh| == |data| <= LOGSIZE && lay.start < |d|
    ensures |ws| == if lh == [] then 0 else 2 * |lh| + 2
  {
    if lh == [] then []
    else
      var head := Encode(d[lay.start], lh);
      SlotWrites(lay, data) + [Write(lay.start, head)] + HomeWrites(lh, data) + [Write(lay.start, Encode(head, []))]
  }

  /** The disk a transaction leads to: every logged block replaced by its cached contents. */
  ghost predicate Updated(lay: Layout, d: Disk, lh: seq<int>, data: seq<Block>, d': Disk)
    requires |lh| == |data|
  {
    && |d'| == |d|
    && (forall i :: 0 <= i < |lh| && Home(lay, |d|, lh[i]) ==> d'[lh[i]] == data[i])
    && (forall b :: Home(lay, |d|, b) && b !in lh ==> d'[b] == d[b])
  }

  ghost predicate SameHome(lay: Layout, d: Disk, d': Disk) {
    |d'| == |d| && forall b :: Home(lay, |d|, b) ==> d'[b] == d[b]
  }

  lemma {:induction false} CommitHome(lay: Layout, d: Disk, lh: seq<int>, data: seq<Block>, k: nat, b: int)
    requires ListOk(lay, |d|, lh) && |lh| == |data| && Home(lay, |d|, b)
    requires k <= |CommitWrites(lay, d, lh, data)|
    ensures Apply(d, CommitWrites(lay, d, lh, data)[..k])[b]
            == if b in lh && |lh| + 1 + IndexOf(lh, b) < k then data[IndexOf(lh, b)] else d[b]
  {
    var ws := CommitWrites(lay, d, lh, data)[..k];
    if b in lh && |lh| + 1 + IndexOf(lh, b) < k {
      var j := |lh| + 1 + IndexOf(lh, b);
      assert ws[j] == Write(b, data[IndexOf(lh, b)]);
      ApplyLast(d, ws, j);
    } else {
      ApplyMisses(d, ws, b);
    }
  }

  lemma {:induction false} CommitSlot(lay: Layout, d: Disk, lh: seq<int>, data: seq<Block>, k: nat, i: nat)
    requires ListOk(lay, |d|, lh) && |lh| == |data| && i < |lh| < k <= |CommitWrites(lay, d, lh, data)|
    ensures Apply(d, CommitWrites(lay, d, lh, data)[..k])[lay.start + 1 + i] == data[i]
  {
    var ws := CommitWrites(lay, d, lh, data)[..k];
    assert ws[i] == Write(lay.start + 1 + i, data[i]);
    ApplyLast(d, ws, i);
  }

  lemma {:induction false} CommitHeader(lay: Layout, d: Disk, lh: seq<int>, data: seq<Block>, k: nat)
    requires ListOk(lay, |d|, lh) && |lh| == |data| && k <= |CommitWrites(lay, d, lh, data)|
    requires d[lay.start][0] == 0
    ensures 0 <= Apply(d, CommitWrites(lay, d, lh, data)[..k])[lay.start][0] <= LOGSIZE
    ensures Decode(Apply(d, CommitWrites(lay, d, lh, data)[..k])[lay.start])
            == if |lh| < k < 2 * |lh| + 2 then lh else []
  {
    var ws := CommitWrites(lay, d, lh, data)[..k];
    var n := |lh|;
    if k <= n {
      ApplyMisses(d, ws, lay.start);
    } else if k < 2 * n + 2 {
      assert ws[n] == Write(lay.start, Encode(d[lay.start], lh));
      ApplyLast(d, ws, n);
      DecodeEncode(d[lay.start], lh);
    } else {
      assert ws[2 * n + 1] == Write(lay.start, Encode(Encode(d[lay.start], lh), []));
      ApplyLast(d, ws, 2 * n + 1);
      DecodeEncode(Encode(d[lay.start], lh), []);
    }
  }

  /** The disk after the first `k` writes of a commit. */
  ghost function PartlyCommitted(lay: Layout, d: Disk, lh: seq<int>, data: seq<Block>, k: nat): (c: Disk)
    requires |lh| == |data| <= LOGSIZE && lay.start < |d| && k <= |CommitWrites(lay, d, lh, data)|
    ensures |c| == |d|
  {
    Apply(d, CommitWrites(lay, d, lh, data)[..k])
  }

  lemma {:induction false} CommitLogOk(lay: Layout, d: Disk, lh: seq<int>, data: seq<Block>, k: nat)
    requires ListOk(lay, |d|, lh) && |lh| == |data| && k <= |CommitWrites(lay, d, lh, data)|
    requires d[lay.start][0] == 0
    ensures LogOk(lay, PartlyCommitted(lay, d, lh, data, k))
    ensures |lh| < k < 2 * |lh| + 2 ==> Header(lay, PartlyCommitted(lay, d, lh, data, k)) == lh
    ensures !(|lh| < k < 2 * |lh| + 2) ==> Header(lay, PartlyCommitted(lay, d, lh, data, k)) == []
  {
    CommitHeader(lay, d, lh, data, k);
  }

  /** What a block recovers to on the disk `c` after `k` writes of a commit. */
  lemma {:induction false} RecoveredBy(lay: Layout, d: Disk, c: Disk, lh: seq<int>, data: seq<Block>, k: nat, b: int)
    requires |c| == |d| && |lh| == |data| && k <= 2 * |lh| + 2 && Home(lay, |d|, b)
    requires LogOk(lay, c) && (|lh| < k < 2 * |lh| + 2 ==> Header(lay, c) == lh)
    requires !(|lh| < k < 2 * |lh| + 2) ==> Header(lay, c) == []
    requires (b in lh && |lh| + 1 + IndexOf(lh, b) < k) ==> c[b] == data[IndexOf(lh, b)]
    requires !(b in lh && |lh| + 1 + IndexOf(lh, b) < k) ==> c[b] == d[b]
    requires b in lh && |lh| < k ==> lay.start + 1 + IndexOf(lh, b) < |c| && c[lay.start + 1 + IndexOf(lh, b)] == data[IndexOf(lh, b)]
    ensures Recovered(lay, c, b) == if b in lh && k > |lh| then data[IndexOf(lh, b)] else d[b]
  {
  }

  lemma {:induction false} CommitFacts(lay: Layout, d: Disk, lh: seq<int>, data: seq<Block>, k: nat, b: int) returns (c: Disk)
    requires ListOk(lay, |d|, lh) && |lh| == |data| && k <= |CommitWrites(lay, d, lh, data)| && Home(lay, |d|, b)
    ensures c == PartlyCommitted(lay, d, lh, data, k)
    ensures (b in lh && |lh| + 1 + IndexOf(lh, b) < k) ==> c[b] == data[IndexOf(lh, b)]
    ensures !(b in lh && |lh| + 1 + IndexOf(lh, b) < k) ==> c[b] == d[b]
    ensures b in lh && |lh| < k ==> lay.start + 1 + IndexOf(lh, b) < |c| && c[lay.start + 1 + IndexOf(lh, b)] == data[IndexOf(lh, b)]
  {
    c := PartlyCommitted(lay, d, lh, data, k);
    CommitHome(lay, d, lh, data, k, b);
    if b in lh && |lh| < k { SlotOf(lay, d, lh, data, k, b); }
  }

  lemma {:induction false} SlotOf(lay: Layout, d: Disk, lh: seq<int>, data: seq<Block>, k: nat, b: int)
    requires ListOk(lay, |d|, lh) && |lh| == |data| && |lh| < k <= |CommitWrites(lay, d, lh, data)| && b in lh
    ensures var c, j := PartlyCommitted(lay, d, lh, data, k), lay.start + 1 + IndexOf(lh, b); j < |c| && c[j] == data[IndexOf(lh, b)]
  {
    CommitSlot(lay, d, lh, data, k, IndexOf(lh, b));
  }

  lemma {:induction false} CommitRecovers(lay: Layout, d: Disk, lh: seq<int>, data: seq<Block>, k: nat, b: int)
    requires ListOk(lay, |d|, lh) && |lh| == |data| && k <= |CommitWrites(lay, d, lh, data)|
    requires d[lay.start][0] == 0
    ensures LogOk(lay, PartlyCommitted(lay, d, lh, data, k))
    ensures Home(lay, |d|, b) ==>
              Recovered(lay, PartlyCommitted(lay, d, lh, data, k), b)
              == if b in lh && k > |lh| then data[IndexOf(lh, b)] else d[b]
  {
    CommitLogOk(lay, d, lh, data, k);
    if Home(lay, |d|, b) {
      var c := CommitFacts(lay, d, lh, data, k, b);
      RecoveredBy(lay, d, c, lh, data, k, b);
    }
  }

  /** Crash atomicity.  A commit cut after `k` writes, followed by any number of recoveries that
      themselves crash, is recovered to all of the transaction exactly when the first header
      write had reached the disk, and to none of it otherwise. */
  lemma {:induction false} CommitIsAtomic(lay: Layout, d: Disk, lh: seq<int>, data: seq<Block>, k: nat, ks: seq<nat>)
    requires ListOk(lay, |d|, lh) && |lh| == |data| && k <= |CommitWrites(lay, d, lh, data)|
    requires d[lay.start][0] == 0
    ensures LogOk(lay, PartlyCommitted(lay, d, lh, data, k))
    ensures var r := Recover(lay, CrashedRecoveries(lay, PartlyCommitted(lay, d, lh, data, k), ks));
            if k <= |lh| then SameHome(lay, d, r) else Updated(lay, d, lh, data, r)
  {
    var c := PartlyCommitted(lay, d, lh, data, k);
    CommitRecovers(lay, d, lh, data, k, 0);
    RecoveryIsRobust(lay, c, ks);
    var r := Recover(lay, CrashedRecoveries(lay, c, ks));
    forall b | Home(lay, |d|, b)
      ensures r[b] == if b in lh && k > |lh| then data[IndexOf(lh, b)] else d[b]
    {
      assert Home(lay, |c|, b);
      CommitRecovers(lay, d, lh, data, k, b);
    }
  }
}
