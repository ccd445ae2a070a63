/** The buffer cache of kernel/bio.c: a doubly linked list of buffers, most recently used first.

Buffers are array indices and `HEAD` is the list head.  The order of the list is described by time
stamps: `stamp[i]` is the moment buffer `i` was last moved to the front. */
module BufferCache {
  import opened Options
  import opened Blocks

  const NBUF := 30
  const HEAD := NBUF

  type Links = s: seq<nat> | |s| == NBUF + 1 witness seq(NBUF + 1, _ => 0)

  type Stamps = s: seq<nat> | |s| == NBUF witness seq(NBUF, _ => 0)

  // ---------------------------------------------------------------------------
  // The list

  ghost predicate Node(on: set<nat>, a: nat) {
    a == HEAD || (a in on && a < NBUF)
  }

  /** `c` lies behind `a`; everything lies behind the head. */
  ghost predicate Behind(stamp: Stamps, a: nat, c: nat) {
    c < NBUF && (a == HEAD || (a < NBUF && stamp[c] < stamp[a]))
  }

  /** `c` lies before `a`; everything lies before the head, seen from the end. */
  ghost predicate Ahead(stamp: Stamps, a: nat, c: nat) {
    c < NBUF && (a == HEAD || (a < NBUF && stamp[a] < stamp[c]))
  }

  /** `q` is the nearest buffer behind `a`, or the head if there is none. */
  ghost predicate IsNext(stamp: Stamps, on: set<nat>, a: nat, q: nat) {
    && Node(on, q)
    && (q == HEAD ==> forall c :: c in on ==> !Behind(stamp, a, c))
    && (q != HEAD ==> Behind(stamp, a, q) && forall c :: c in on && Behind(stamp, a, c) ==> stamp[c] <= stamp[q])
  }

  ghost predicate IsPrev(stamp: Stamps, on: set<nat>, a: nat, q: nat) {
    && Node(on, q)
    && (q == HEAD ==> forall c :: c in on ==> !Ahead(stamp, a, c))
    && (q != HEAD ==> Ahead(stamp, a, q) && forall c :: c in on && Ahead(stamp, a, c) ==> stamp[q] <= stamp[c])
  }

  ghost predicate LinkOk(next: Links, prev: Links, stamp: Stamps, on: set<nat>, a: nat) {
    Node(on, a) ==> IsNext(stamp, on, a, next[a]) && IsPrev(stamp, on, a, prev[a])
  }

  /** The buffers `on` form the list, youngest stamp first. */
  ghost predicate Listed(next: Links, prev: Links, stamp: Stamps, on: set<nat>) {
    && (forall a :: a in on ==> a < NBUF)
    && (forall a, b :: a in on && b in on && a != b ==> stamp[a] != stamp[b])
    && (forall a {:trigger LinkOk(next, prev, stamp, on, a)} :: LinkOk(next, prev, stamp, on, a))
  }

  function UnlinkedNext(next: Links, prev: Links, b: nat): Links
    requires b < NBUF && prev[b] <= HEAD
  {
    next[prev[b] := next[b]]
  }

  function UnlinkedPrev(next: Links, prev: Links, b: nat): Links
    requires b < NBUF && next[b] <= HEAD
  {
    prev[next[b] := prev[b]]
  }

  function PushedNext(next: Links, b: nat): Links
    requires b < NBUF
  {
    next[b := next[HEAD]][HEAD := b]
  }

  function PushedPrev(next: Links, prev: Links, b: nat): Links
    requires b < NBUF && next[HEAD] <= HEAD
  {
    prev[b := HEAD][next[HEAD] := b]
  }

  lemma {:induction false} UnlinkOk(next: Links, prev: Links, stamp: Stamps, on: set<nat>, b: nat)
    requires Listed(next, prev, stamp, on) && b in on
    ensures next[b] <= HEAD && prev[b] <= HEAD
    ensures Listed(UnlinkedNext(next, prev, b), UnlinkedPrev(next, prev, b), stamp, on - {b})
  {
    assert LinkOk(next, prev, stamp, on, b);
    var n, p, rest := UnlinkedNext(next, prev, b), UnlinkedPrev(next, prev, b), on - {b};
    forall a: nat ensures LinkOk(n, p, stamp, rest, a) {
      assert LinkOk(next, prev, stamp, on, a);
    }
  }

  lemma {:induction false} PushOk(next: Links, prev: Links, stamp: Stamps, on: set<nat>, b: nat, t: nat)
    requires Listed(next, prev, stamp, on) && b < NBUF && b !in on
    requires forall a :: a in on ==> stamp[a] < t
    ensures next[HEAD] <= HEAD
    ensures Listed(PushedNext(next, b), PushedPrev(next, prev, b), stamp[b := t], on + {b})
  {
    assert LinkOk(next, prev, stamp, on, HEAD);
    var n, p, s, more := PushedNext(next, b), PushedPrev(next, prev, b), stamp[b := t], on + {b};
    forall a: nat ensures LinkOk(n, p, s, more, a) {
      assert LinkOk(next, prev, stamp, on, a);
      if Node(more, a) {
        assert IsNext(s, more, a, n[a]);
        assert IsPrev(s, more, a, p[a]);
      }
    }
  }

  // ---------------------------------------------------------------------------
  // The cache as a value

  const WRAP := 0x1_0000_0000

  /** `holder` is the process id in the buffer's sleep lock, 0 when it is free. */
  datatype Buf = Buf(dev: nat, blockno: int, valid: bool, refcnt: nat, holder: nat, data: Block)

  datatype Cache = Cache(bufs: seq<Buf>, stamp: Stamps, clock: nat)

  function Up(refcnt: nat): nat { (refcnt + 1) % WRAP }

  function Down(refcnt: nat): nat { (refcnt + WRAP - 1) % WRAP }

  predicate Matches(b: Buf, dev: nat, blockno: int) {
    b.dev == dev && b.blockno == blockno
  }

  ghost predicate Miss(c: Cache, dev: nat, blockno: int) {
    forall j :: 0 <= j < |c.bufs| ==> !Matches(c.bufs[j], dev, blockno)
  }

  /** `i` is the most recently used buffer for the block. */
  ghost predicate Hit(c: Cache, dev: nat, blockno: int, i: nat) {
    && i < |c.bufs| == NBUF && Matches(c.bufs[i], dev, blockno)
    && forall j :: 0 <= j < NBUF && Matches(c.bufs[j], dev, blockno) ==> c.stamp[j] <= c.stamp[i]
  }

  /** `i` is the least recently used of the unreferenced buffers. */
  ghost predicate Victim(c: Cache, i: nat) {
    && i < |c.bufs| == NBUF && c.bufs[i].refcnt == 0
    && forall j :: 0 <= j < NBUF && c.bufs[j].refcnt == 0 ==> c.stamp[i] <= c.stamp[j]
  }

  function SetRef(c: Cache, i: nat, refcnt: nat): Cache
    requires i < |c.bufs|
  {
    c.(bufs := c.bufs[i := c.bufs[i].(refcnt := refcnt)])
  }

  function Recycled(c: Cache, i: nat, dev: nat, blockno: int): Cache
    requires i < |c.bufs|
  {
    c.(bufs := c.bufs[i := c.bufs[i].(dev := dev, blockno := blockno, valid := false, refcnt := 1)])
  }

  /** What the critical section of `bget` may answer and leave behind; `None` is its panic. */
  ghost predicate Got(c: Cache, dev: nat, blockno: int, r: Option<nat>, c': Cache) {
    match r
    case Some(i) =>
      if Miss(c, dev, blockno) then Victim(c, i) && c' == Recycled(c, i, dev, blockno)
      else Hit(c, dev, blockno, i) && c' == SetRef(c, i, Up(c.bufs[i].refcnt))
    case None =>
      Miss(c, dev, blockno) && c' == c && forall j :: 0 <= j < |c.bufs| ==> c.bufs[j].refcnt != 0
  }

  function SetHolder(c: Cache, i: nat, holder: nat): Cache
    requires i < |c.bufs|
  {
    c.(bufs := c.bufs[i := c.bufs[i].(holder := holder)])
  }

  /** What the critical section of `brelse` leaves behind: a reference less, and a buffer without
      references becomes the most recently used one. */
  function Dropped(c: Cache, i: nat): Cache
    requires i < |c.bufs| == NBUF
  {
    var c' := SetRef(c, i, Down(c.bufs[i].refcnt));
    if c'.bufs[i].refcnt == 0 then c'.(stamp := c.stamp[i := c.clock + 1], clock := c.clock + 1) else c'
  }

  function Filled(c: Cache, i: nat, disk: Disk): Cache
    requires i < |c.bufs| && 0 <= c.bufs[i].blockno < |disk|
  {
    c.(bufs := c.bufs[i := c.bufs[i].(data := disk[c.bufs[i].blockno], valid := true)])
  }

  function Stored(c: Cache, i: nat, data: Block): Cache
    requires i < |c.bufs|
  {
    c.(bufs := c.bufs[i := c.bufs[i].(data := data)])
  }

  /** At most one buffer holds any block of a device other than 0, whose number fresh buffers carry. */
  ghost predicate Unique(c: Cache) {
    forall i, j :: 0 <= i < j < |c.bufs| && c.bufs[i].dev != 0 ==> !Matches(c.bufs[j], c.bufs[i].dev, c.bufs[i].blockno)
  }

  lemma {:induction false} GotUnique(c: Cache, dev: nat, blockno: int, r: Option<nat>, c': Cache)
    requires |c.bufs| == NBUF && Unique(c) && Got(c, dev, blockno, r, c')
    ensures Unique(c')
  {
  }

  // ---------------------------------------------------------------------------
  // The cache in memory

  ghost predicate IsBuf(i: nat) { i < NBUF }

  ghost function All(): set<nat> {
    set i: nat | i < NBUF && IsBuf(i)
  }

  class Bcache {
    const buf: array<Buf>
    const next: array<nat>
    const prev: array<nat>
    ghost var c: Cache

    ghost predicate Arrays()
      reads this
    {
      next != prev && buf.Length == NBUF && next.Length == prev.Length == NBUF + 1
    }

    ghost predicate Valid()
      reads this, buf, next, prev
    {
      && Arrays() && buf[..] == c.bufs && Unique(c)
      && Listed(next[..], prev[..], c.stamp, All())
      && (forall i :: 0 <= i < NBUF ==> c.stamp[i] <= c.clock)
    }

    /** `b->next->prev = b->prev; b->prev->next = b->next`, then insertion behind the head. */
    method MoveToFront(b: nat)
      requires Valid() && b < NBUF
      modifies next, prev, this`c
      ensures Valid() && c == old(c).(stamp := old(c.stamp)[b := old(c.clock) + 1], clock := old(c.clock) + 1)
    {
      UnlinkOk(next[..], prev[..], c.stamp, All(), b);
      ghost var n, p := UnlinkedNext(next[..], prev[..], b), UnlinkedPrev(next[..], prev[..], b);
      prev[next[b]] := prev[b];
      next[prev[b]] := next[b];
      assert next[..] == n && prev[..] == p;
      PushOk(n, p, c.stamp, All() - {b}, b, c.clock + 1);
      next[b] := next[HEAD];
      prev[b] := HEAD;
      prev[next[HEAD]] := b;
      next[HEAD] := b;
      assert next[..] == PushedNext(n, b) && prev[..] == PushedPrev(n, p, b);
      assert All() - {b} + {b} == All();
      c := Cache(c.bufs, c.stamp[b := c.clock + 1], c.clock + 1);
    }
  
    /** `binit`: push every buffer in turn; they start on device 0, block 0, unreferenced. */
    constructor ()
      ensures Valid() && fresh(buf) && fresh(next) && fresh(prev)
      ensures forall i :: 0 <= i < NBUF ==> c.bufs[i] == Buf(0, 0, false, 0, 0, seq(WORDS, _ => 0))
    {
      buf := new Buf[NBUF](_ => Buf(0, 0, false, 0, 0, seq(WORDS, _ => 0)));
      next := new nat[NBUF + 1](_ => HEAD);
      prev := new nat[NBUF + 1](_ => HEAD);
      new;
      ghost var stamp: Stamps := seq(NBUF, _ => 0);
      ghost var on: set<nat> := {};
      var b := 0;
      next[HEAD] := HEAD;
      prev[HEAD] := HEAD;
      forall a: nat ensures LinkOk(next[..], prev[..], stamp, on, a) {}
      while b < NBUF
        invariant b <= NBUF && Arrays() && fresh(next) && fresh(prev) && fresh(buf)
        invariant Listed(next[..], prev[..], stamp, on)
        invariant (forall i :: i in on <==> 0 <= i < b) && (forall i :: 0 <= i < NBUF ==> stamp[i] <= b)
        modifies next, prev
      {
        PushOk(next[..], prev[..], stamp, on, b, b + 1);
        ghost var n, p := next[..], prev[..];
        next[b] := next[HEAD];
        prev[b] := HEAD;
        prev[next[HEAD]] := b;
        next[HEAD] := b;
        assert next[..] == PushedNext(n, b) && prev[..] == PushedPrev(n, p, b);
        on, stamp := on + {b}, stamp[b := b + 1];
        b := b + 1;
      }
      assert on == All();
      c := Cache(buf[..], stamp, NBUF);
    }

    /** The forward scan of `bget`: the buffer holding the block, or the head. */
    method Lookup(dev: nat, blockno: int) returns (b: nat)
      requires Valid()
      ensures if b == HEAD then Miss(c, dev, blockno) else Hit(c, dev, blockno, b)
    {
      b := next[HEAD];
      StepBack(next[..], prev[..], c.stamp, HEAD);
      while b != HEAD
        invariant b <= HEAD
        invariant forall j :: 0 <= j < NBUF && Matches(c.bufs[j], dev, blockno) ==> b != HEAD && c.stamp[j] <= c.stamp[b]
        decreases if b == HEAD then 0 else c.stamp[b] + 1
      {
        if buf[b].dev == dev && buf[b].blockno == blockno {
          return;
        }
        StepBack(next[..], prev[..], c.stamp, b);
        b := next[b];
      }
    }

    /** The backward scan of `bget`: the buffer to recycle, or the head. */
    method FindVictim() returns (b: nat)
      requires Valid()
      ensures if b == HEAD then forall j :: 0 <= j < NBUF ==> c.bufs[j].refcnt != 0 else Victim(c, b)
    {
      b := prev[HEAD];
      StepAhead(next[..], prev[..], c.stamp, HEAD);
      while b != HEAD
        invariant b <= HEAD
        invariant forall j :: 0 <= j < NBUF && c.bufs[j].refcnt == 0 ==> b != HEAD && c.stamp[b] <= c.stamp[j]
        decreases if b == HEAD then 0 else c.clock - c.stamp[b] + 1
      {
        if buf[b].refcnt == 0 {
          return;
        }
        StepAhead(next[..], prev[..], c.stamp, b);
        b := prev[b];
      }
    }

    /** The critical section of `bget`, under `bcache.lock`. */
    method Bget(dev: nat, blockno: int) returns (r: Option<nat>)
      requires Valid()
      modifies this`c, buf
      ensures Valid() && Got(old(c), dev, blockno, r, c)
    {
      var b := Lookup(dev, blockno);
      if b != HEAD {
        buf[b] := buf[b].(refcnt := Up(buf[b].refcnt));
        c := SetRef(c, b, Up(c.bufs[b].refcnt));
        return Some(b);
      }
      b := FindVictim();
      if b != HEAD {
        buf[b] := buf[b].(dev := dev, blockno := blockno, valid := false, refcnt := 1);
        c := Recycled(c, b, dev, blockno);
        GotUnique(old(c), dev, blockno, Some(b), c);
        return Some(b);
      }
      r := None;
    }

    /** `holdingsleep` on buffer `i`, called by process `me`. */
    predicate Holding(i: nat, me: nat)
      requires i < buf.Length
      reads this, buf
    {
      buf[i].holder != 0 && buf[i].holder == me
    }

    /** One pass of `acquiresleep` by `me`; if the lock is taken the process sleeps instead. */
    method Acquire(i: nat, me: nat) returns (ok: bool)
      requires Valid() && i < NBUF && me != 0
      modifies this`c, buf
      ensures Valid() && ok == (old(c.bufs[i].holder) == 0)
      ensures c == if ok then SetHolder(old(c), i, me) else old(c)
    {
      ok := buf[i].holder == 0;
      if ok {
        buf[i] := buf[i].(holder := me);
        c := SetHolder(c, i, me);
      }
    }

    /** `brelse`; the caller must hold the lock. */
    method Brelse(i: nat, me: nat) returns (panicked: bool)
      requires Valid() && i < NBUF
      modifies this`c, buf, next, prev
      ensures Valid() && panicked == !old(Holding(i, me))
      ensures c == if panicked then old(c) else Dropped(SetHolder(old(c), i, 0), i)
    {
      if !Holding(i, me) {
        return true;
      }
      buf[i] := buf[i].(holder := 0);
      c := SetHolder(c, i, 0);
      buf[i] := buf[i].(refcnt := Down(buf[i].refcnt));
      c := SetRef(c, i, Down(c.bufs[i].refcnt));
      if buf[i].refcnt == 0 {
        MoveToFront(i);
      }
      panicked := false;
    }

    /** The part of `bread` behind `bget`: read the block unless the buffer is valid. */
    method Fill(i: nat, disk: Disk)
      requires Valid() && i < NBUF && 0 <= c.bufs[i].blockno < |disk|
      modifies this`c, buf
      ensures Valid() && c == if old(c.bufs[i].valid) then old(c) else Filled(old(c), i, disk)
    {
      if !buf[i].valid {
        buf[i] := buf[i].(data := disk[buf[i].blockno], valid := true);
        c := Filled(c, i, disk);
      }
    }

    /** `bwrite`; the caller must hold the lock. */
    method Bwrite(i: nat, me: nat, disk: Disk) returns (panicked: bool, disk': Disk)
      requires Valid() && i < NBUF
      ensures panicked == !Holding(i, me)
      ensures disk' == if panicked then disk else Put(disk, Write(c.bufs[i].blockno, c.bufs[i].data))
    {
      if !Holding(i, me) {
        return true, disk;
      }
      return false, Put(disk, Write(buf[i].blockno, buf[i].data));
    }

    /** A caller that holds the buffer changes its contents. */
    method Store(i: nat, data: Block)
      requires Valid() && i < NBUF
      modifies this`c, buf
      ensures Valid() && c == Stored(old(c), i, data)
    {
      buf[i] := buf[i].(data := data);
      c := Stored(c, i, data);
    }

    method Bpin(i: nat)
      requires Valid() && i < NBUF
      modifies this`c, buf
      ensures Valid() && c == SetRef(old(c), i, Up(old(c.bufs[i].refcnt)))
    {
      buf[i] := buf[i].(refcnt := Up(buf[i].refcnt));
      c := SetRef(c, i, Up(c.bufs[i].refcnt));
    }

    method Bunpin(i: nat)
      requires Valid() && i < NBUF
      modifies this`c, buf
      ensures Valid() && c == SetRef(old(c), i, Down(old(c.bufs[i].refcnt)))
    {
      buf[i] := buf[i].(refcnt := Down(buf[i].refcnt));
      c := SetRef(c, i, Down(c.bufs[i].refcnt));
    }
  }

  lemma {:induction false} StepBack(next: Links, prev: Links, stamp: Stamps, a: nat)
    requires Listed(next, prev, stamp, All()) && a <= HEAD
    ensures next[a] <= HEAD && (a == HEAD ==> next[a] != HEAD) && (next[a] != HEAD && a != HEAD ==> stamp[next[a]] < stamp[a])
    ensures forall j :: 0 <= j < NBUF && (a == HEAD || stamp[j] < stamp[a]) ==> next[a] != HEAD && stamp[j] <= stamp[next[a]]
    ensures forall j :: 0 <= j < NBUF && a != HEAD && stamp[j] == stamp[a] ==> j == a
  {
    assert LinkOk(next, prev, stamp, All(), a);
    forall j | 0 <= j < NBUF && (a == HEAD || stamp[j] < stamp[a]) ensures next[a] != HEAD && stamp[j] <= stamp[next[a]] {
      assert j in All() && Behind(stamp, a, j);
    }
    assert 0 in All() && forall j :: 0 <= j < NBUF ==> j in All();
  }

  lemma {:induction false} StepAhead(next: Links, prev: Links, stamp: Stamps, a: nat)
    requires Listed(next, prev, stamp, All()) && a <= HEAD
    ensures prev[a] <= HEAD && (a == HEAD ==> prev[a] != HEAD) && (prev[a] != HEAD && a != HEAD ==> stamp[a] < stamp[prev[a]])
    ensures forall j :: 0 <= j < NBUF && (a == HEAD || stamp[a] < stamp[j]) ==> prev[a] != HEAD && stamp[prev[a]] <= stamp[j]
    ensures forall j :: 0 <= j < NBUF && a != HEAD && stamp[j] == stamp[a] ==> j == a
  {
    assert LinkOk(next, prev, stamp, All(), a);
    forall j | 0 <= j < NBUF && (a == HEAD || stamp[a] < stamp[j]) ensures prev[a] != HEAD && stamp[prev[a]] <= stamp[j] {
      assert j in All() && Ahead(stamp, a, j);
    }
    assert 0 in All() && forall j :: 0 <= j < NBUF ==> j in All();
  }
}
