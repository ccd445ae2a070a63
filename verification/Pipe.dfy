/** Pipes (kernel/pipe.c).  A method is what one process does between taking the lock of the pipe and
    giving it up, by returning or by going to sleep; any interleaving of processes is a sequence of such
    calls.  `rsleep` and `wsleep` are the processes asleep on `nread` and on `nwrite`. */
module Pipe {
  import Wakeup

  const PIPESIZE := 512
  const UINT := 0x1_0000_0000

  /** The call returned a value, or sleeps and will go on with byte `i`. */
  datatype Outcome = Returned(value: int) | Slept(i: nat)

  // ---------------------------------------------------------------------------
  // Counters of 32 bits

  /** The test for a full pipe is exact although both counters wrap around. */
  lemma {:induction false} FullTest(written: nat, consumed: nat)
    requires consumed <= written <= consumed + PIPESIZE
    ensures written % UINT == (consumed % UINT + PIPESIZE) % UINT <==> written == consumed + PIPESIZE
  {
    SameResidue(written, consumed + PIPESIZE);
    assert (consumed % UINT + PIPESIZE) % UINT == (consumed + PIPESIZE) % UINT;
  }

  /** So is the test for an empty pipe. */
  lemma {:induction false} EmptyTest(written: nat, consumed: nat)
    requires consumed <= written <= consumed + PIPESIZE
    ensures consumed % UINT == written % UINT <==> written == consumed
  {
    SameResidue(consumed, written);
  }

  /** Numbers closer than 2^32 with equal residues are equal. */
  lemma {:induction false} SameResidue(a: nat, b: nat)
    requires a <= b < a + UINT
    ensures a % UINT == b % UINT ==> a == b
  {
    var qa, qb := a / UINT, b / UINT;
    assert a == qa * UINT + a % UINT && b == qb * UINT + b % UINT;
    if a % UINT == b % UINT { assert (qb - qa) * UINT == b - a; }
  }

  /** The place of byte `k` in the ring, since PIPESIZE divides 2^32. */
  lemma {:induction false} Slot(k: nat)
    ensures k % UINT % PIPESIZE == k % PIPESIZE
  {
    var high, low := k / UINT, k % UINT;
    var q := high * 0x80_0000 + low / PIPESIZE;
    assert k == high * UINT + low && low == low / PIPESIZE * PIPESIZE + low % PIPESIZE;
    Residue(q, low % PIPESIZE);
    assert k == q * PIPESIZE + low % PIPESIZE;
  }

  lemma {:induction false} Residue(q: nat, r: nat)
    requires r < PIPESIZE
    ensures (q * PIPESIZE + r) % PIPESIZE == r
  {
  }

  /** Bytes in a window of PIPESIZE have places of their own. */
  lemma {:induction false} OwnSlot(j: nat, k: nat)
    requires j < k < j + PIPESIZE
    ensures j % PIPESIZE != k % PIPESIZE
  {
    var qj, qk := j / PIPESIZE, k / PIPESIZE;
    assert j == qj * PIPESIZE + j % PIPESIZE && k == qk * PIPESIZE + k % PIPESIZE;
  }

  /** The ring holds the bytes written and not yet consumed. */
  ghost predicate RingOk(data: seq<char>, written: seq<char>, consumed: nat) {
    |data| == PIPESIZE && consumed <= |written| <= consumed + PIPESIZE
    && forall k {:trigger written[k]} :: consumed <= k < |written| ==> data[k % PIPESIZE] == written[k]
  }

  lemma {:induction false} RingPut(data: seq<char>, written: seq<char>, consumed: nat, ch: char)
    requires RingOk(data, written, consumed) && |written| < consumed + PIPESIZE
    ensures RingOk(data[|written| % PIPESIZE := ch], written + [ch], consumed)
  {
    var data', written' := data[|written| % PIPESIZE := ch], written + [ch];
    forall k | consumed <= k < |written'| ensures data'[k % PIPESIZE] == written'[k] {
      if k < |written| { OwnSlot(k, |written|); assert written'[k] == written[k]; }
    }
  }

  lemma {:induction false} RingTake(data: seq<char>, written: seq<char>, consumed: seq<char>)
    requires RingOk(data, written, |consumed|) && |consumed| < |written| && consumed == written[..|consumed|]
    ensures data[|consumed| % PIPESIZE] == written[|consumed|] && RingOk(data, written, |consumed| + 1)
    ensures consumed + [written[|consumed|]] == written[..|consumed| + 1]
  {
  }

  lemma {:induction false} PrefixMore(written: seq<char>, consumed: seq<char>, ch: char)
    requires |consumed| <= |written| && consumed == written[..|consumed|]
    ensures consumed == (written + [ch])[..|consumed|]
  {
  }

  lemma {:induction false} Step(k: nat)
    ensures (k % UINT + 1) % UINT == (k + 1) % UINT
  {
  }

  lemma {:induction false} ReadsPrefix(written: seq<char>, before: seq<char>, out: seq<char>)
    requires |before| + |out| <= |written| && before == written[..|before|] && before + out == written[..|before| + |out|]
    ensures out <= written[|before|..]
  {
    assert out == (before + out)[|before|..] && written[|before|..][..|out|] == written[..|before| + |out|][|before|..];
  }

  // ---------------------------------------------------------------------------

  /** The rule of `Wakeup` for the two channels of a pipe. */
  ghost predicate Obeys(before: seq<bool>, after: seq<bool>, woken: set<nat>)
    requires |before| == |after| == 2
    ensures Obeys(before, after, woken) <==> Wakeup.Obeys(before, after, woken)
  {
    (before[0] && !after[0] ==> 0 in woken) && (before[1] && !after[1] ==> 1 in woken)
  }

  /** A writer with `n` bytes, at byte `i0`, comes to a full pipe: more bytes are left than `room`, and the first
      `room` of them can be copied. */
  predicate MeetsFull(n: nat, i0: nat, good: nat, room: int) {
    i0 + room < n && (room == 0 || i0 + room <= good)
  }

  class Pipe {
    const data: array<char>
    var nread: nat
    var nwrite: nat
    var readopen: bool
    var writeopen: bool
    var rsleep: set<nat>
    var wsleep: set<nat>
    ghost var written: seq<char>
    ghost var consumed: seq<char>

    ghost predicate Full() reads this { |written| == |consumed| + PIPESIZE }

    ghost predicate Empty() reads this { |written| == |consumed| }

    ghost predicate Counters()
      reads this, data
    {
      && nread == |consumed| % UINT && nwrite == |written| % UINT
      && data.Length == PIPESIZE && RingOk(data[..], written, |consumed|) && consumed == written[..|consumed|]
    }

    /** First in, first out; and no writer sleeps beside room. */
    ghost predicate Valid()
      reads this, data
    {
      Counters() && (wsleep != {} ==> Full() && readopen)
    }

    /** A reader sleeps although there is something to read, or nothing more to come. */
    ghost predicate ReaderStranded() reads this { rsleep != {} && !(Empty() && writeopen) }

    /** The bytes that still fit. */
    ghost function Room(): int reads this { PIPESIZE - (|written| - |consumed|) }

    /** What readers sleep on, channel 0, and what writers sleep on, channel 1. */
    ghost function Conditions(): (c: seq<bool>) reads this ensures |c| == 2 { [Empty() && writeopen, Full() && readopen] }

    /** `pipealloc` */
    constructor ()
      ensures Valid() && fresh(data) && written == [] && consumed == [] && rsleep == {} && wsleep == {}
      ensures readopen && writeopen
    {
      data := new char[PIPESIZE];
      nread, nwrite, readopen, writeopen, rsleep, wsleep := 0, 0, true, true, {}, {};
      written, consumed := [], [];
    }

    /** One byte into the ring. */
    method Put(ch: char)
      requires Counters() && !Full()
      modifies this`nwrite, this`written, data
      ensures Counters() && written == old(written) + [ch]
    {
      Slot(|written|);
      RingPut(data[..], written, |consumed|, ch);
      ghost var before := data[..];
      data[nwrite % PIPESIZE] := ch;
      assert data[..] == before[|written| % PIPESIZE := ch];
      Step(|written|);
      PrefixMore(written, consumed, ch);
      nwrite := (nwrite + 1) % UINT;
      written := written + [ch];
    }

    /** One byte out of the ring. */
    method Take() returns (ch: char)
      requires Counters() && !Empty()
      modifies this`nread, this`consumed
      ensures Counters() && ch == written[|old(consumed)|] && consumed == old(consumed) + [ch]
    {
      Slot(|consumed|);
      ch := data[nread % PIPESIZE];
      RingTake(data[..], written, consumed);
      Step(|consumed|);
      nread := (nread + 1) % UINT;
      consumed := consumed + [ch];
    }

    /** `pipewrite` of process `p`, entered or woken at byte `i0`; `copyin` fails from byte `good` on.  It comes to a
        full pipe exactly if the bytes left to write, and those it can copy, are more than fit; readers are
        left asleep beside a full pipe exactly if it is then killed or without readers, and some sleep. */
    method Write(p: nat, src: seq<char>, i0: nat, good: nat, killed: bool) returns (r: Outcome, ghost i: nat)
      requires Valid() && i0 <= |src| && p !in wsleep
      modifies this`nwrite, this`written, this`rsleep, this`wsleep, data
      ensures Valid() && i0 <= i <= |src| && written == old(written) + src[i0..i]
      ensures r.Slept? || r == Returned(-1) <==> MeetsFull(|src|, i0, good, old(Room()))
      ensures r == Returned(-1) <==> (killed || !readopen) && MeetsFull(|src|, i0, good, old(Room()))
      ensures r.Slept? ==> r.i == i && wsleep == old(wsleep) + {p} && rsleep == {} && Full()
      ensures r == Returned(-1) ==> Full() && rsleep == old(rsleep) && wsleep == old(wsleep)
      ensures r.Returned? && r.value != -1 ==> r.value == i && (i == |src| || good <= i) && rsleep == {}
      ensures ReaderStranded() <==> (killed || !readopen) && old(rsleep) != {} && MeetsFull(|src|, i0, good, old(Room()))
      ensures r != Returned(-1) ==> Obeys(old(Conditions()), Conditions(), {0})
      ensures r == Returned(-1) ==> (Obeys(old(Conditions()), Conditions(), {}) <==> old(!(Empty() && writeopen)))
    {
      i := i0;
      var at := i0;
      assert src[i0..i0] == [];
      while at < |src|
        invariant i0 <= at <= |src| && i == at && Counters() && written == old(written) + src[i0..at]
        invariant wsleep == old(wsleep) && rsleep == old(rsleep) && (at > i0 ==> wsleep == {} && at <= good)
      {
        FullTest(|written|, |consumed|);
        if nwrite == (nread + PIPESIZE) % UINT {
          if !readopen || killed {
            return Returned(-1), at;
          }
          rsleep := {};
          wsleep := wsleep + {p};
          return Slept(at), at;
        }
        if good <= at {
          break;
        }
        Put(src[at]);
        assert src[i0..at + 1] == src[i0..at] + [src[at]];
        at := at + 1;
        i := at;
      }
      rsleep := {};
      r := Returned(at);
    }

    /** `piperead` of process `p` for `n` bytes, entered or woken; `copyout` fails at byte `good`. */
    method Read(p: nat, n: nat, good: nat, killed: bool) returns (r: Outcome, out: seq<char>)
      requires Valid() && p !in rsleep
      modifies this`nread, this`consumed, this`rsleep, this`wsleep
      ensures Valid() && consumed == old(consumed) + out && out <= old(written[|consumed|..])
      ensures r.Slept? <==> old(Empty() && writeopen) && !killed
      ensures r == Returned(-1) <==> old(Empty() && writeopen) && killed
      ensures r.Slept? ==> rsleep == old(rsleep) + {p} && Empty() && writeopen && out == []
      ensures r == Returned(-1) ==> out == [] && wsleep == old(wsleep) && rsleep == old(rsleep)
      ensures r.Returned? && r.value != -1 ==> wsleep == {} && rsleep == old(rsleep)
      ensures r.Returned? && r.value != -1 ==> r.value == |out| || (r.value == |out| - 1 && r.value == good)
      ensures r.Returned? && r.value != -1 ==> |out| == n || Empty() || r.value == good
      ensures ReaderStranded() ==> old(ReaderStranded())
      ensures Obeys(old(Conditions()), Conditions(), if r.Returned? && r.value != -1 then {1} else {})
    {
      EmptyTest(|written|, |consumed|);
      out := [];
      if nread == nwrite && writeopen {
        if killed {
          return Returned(-1), [];
        }
        rsleep := rsleep + {p};
        return Slept(0), [];
      }
      var i := 0;
      while i < n
        invariant i <= n && |out| == i && (i > 0 ==> i - 1 < good) && Counters() && consumed == old(consumed) + out
        invariant rsleep == old(rsleep)
      {
        EmptyTest(|written|, |consumed|);
        if nread == nwrite {
          break;
        }
        var ch := Take();
        out := out + [ch];
        if good <= i {
          break;
        }
        i := i + 1;
      }
      ReadsPrefix(written, old(consumed), out);
      wsleep := {};
      r := Returned(i);
    }

    /** `pipeclose` */
    method Close(writable: bool) returns (gone: bool)
      requires Valid()
      modifies this`readopen, this`writeopen, this`rsleep, this`wsleep
      ensures Valid() && (gone <==> !readopen && !writeopen)
      ensures writable ==> !writeopen && rsleep == {} && readopen == old(readopen) && wsleep == old(wsleep)
      ensures !writable ==> !readopen && wsleep == {} && writeopen == old(writeopen) && rsleep == old(rsleep)
      ensures ReaderStranded() ==> old(ReaderStranded())
      ensures Obeys(old(Conditions()), Conditions(), if writable then {0} else {1})
    {
      if writable {
        writeopen, rsleep := false, {};
      } else {
        readopen, wsleep := false, {};
      }
      gone := !readopen && !writeopen;
    }

    /** `kill` wakes process `p` wherever it sleeps. */
    method Kill(p: nat)
      requires Valid()
      modifies this`rsleep, this`wsleep
      ensures Valid() && rsleep == old(rsleep) - {p} && wsleep == old(wsleep) - {p}
      ensures ReaderStranded() ==> old(ReaderStranded())
    {
      rsleep, wsleep := rsleep - {p}, wsleep - {p};
    }
  }

  /** The exception: a reader sleeps on an empty pipe, a writer fills it and is found killed, and the
      reader sleeps on beside a full pipe. */
  method KilledWriterStrandsReader() returns (pipe: Pipe)
    ensures pipe.rsleep == {1} && pipe.Full() && pipe.writeopen && pipe.ReaderStranded()
  {
    pipe := new Pipe();
    var r, out := pipe.Read(1, 1, 1, false);
    assert pipe.rsleep == {1};
    var src := seq(PIPESIZE + 1, _ => 'x');
    ghost var i;
    r, i := pipe.Write(2, src, 0, |src|, true);
    assert r == Returned(-1);
  }
}
