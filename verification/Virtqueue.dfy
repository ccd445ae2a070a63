/** The driver side of the disk's virtqueue (kernel/virtio_disk.c): descriptors, the avail and used rings,
    and requests in flight.  A method is one critical section under `vdisk_lock`; the device is a pair of
    methods that take requests in order and complete them in any order. */
module Virtqueue {
  import opened Options
  import opened Sets

  const NUM := 8
  const UINT16 := 0x1_0000

  /** What a descriptor is used for: place `pos` in the chain of the request with head `head`. */
  datatype Role = Idle | Part(head: nat, pos: nat)

  /** A request is announced, taken by the device, completed by the device, or seen by the interrupt
      handler and about to be freed. */
  datatype Phase = Queued | Taken | Completed | Done

  /** `next[i]` is the next descriptor if the flag VRING_DESC_F_NEXT is set; `buf[i]` is `info[i].b`; `waiting` are
      the buffers with `b->disk` set.  `taken` is the device's place in the avail ring, `queued` and `pending` are
      the heads in the two rings that the other side has not looked at yet. */
  datatype State = State(
    free: seq<bool>, next: seq<Option<nat>>, buf: seq<Option<nat>>, waiting: set<nat>,
    avail: seq<nat>, availIdx: nat, used: seq<nat>, usedId: nat, usedIdx: nat,
    role: seq<Role>, phase: map<nat, Phase>, taken: nat, queued: seq<nat>, pending: seq<nat>)

  // ---------------------------------------------------------------------------
  // Invariant

  ghost predicate Sized(s: State) {
    && |s.free| == |s.next| == |s.buf| == |s.role| == |s.avail| == |s.used| == NUM
    && s.availIdx < UINT16 && s.usedId < UINT16 && s.taken < UINT16 && s.usedIdx < NUM
  }

  ghost predicate DescOk(s: State, i: nat)
    requires Sized(s)
  {
    i < NUM ==>
      && (s.free[i] <==> s.role[i].Idle?)
      && (s.role[i].Part? ==> s.role[i].pos < 3 && s.role[i].head in s.phase && Nth(s, s.role[i].head, s.role[i].pos) == Some(i))
  }

  /** The descriptor in place `pos` of the chain that starts at `h`. */
  ghost function Nth(s: State, h: nat, pos: nat): Option<nat> {
    if pos == 0 then Some(h)
    else match Nth(s, h, pos - 1)
         case None => None
         case Some(i) => if i < |s.next| then s.next[i] else None
  }

  /** Every request owns a chain of three descriptors and a buffer of its own. */
  ghost predicate HeadOk(s: State, h: nat)
    requires Sized(s)
  {
    h in s.phase ==>
      && h < NUM && s.role[h] == Part(h, 0)
      && Link(s, h) && s.role[s.next[h].value] == Part(h, 1)
      && Link(s, s.next[h].value) && s.role[s.next[s.next[h].value].value] == Part(h, 2)
      && s.next[s.next[s.next[h].value].value].None?
      && s.buf[h].Some? && (s.buf[h].value in s.waiting <==> s.phase[h] != Done)
  }

  ghost predicate Link(s: State, i: nat)
    requires Sized(s) && i < NUM
  {
    s.next[i].Some? && s.next[i].value < NUM
  }

  ghost predicate BufOk(s: State, g: nat, h: nat) {
    g in s.phase && h in s.phase && g < |s.buf| && h < |s.buf| && s.buf[g] == s.buf[h] ==> g == h
  }

  ghost predicate ChainsOk(s: State) {
    && Sized(s)
    && (forall i {:trigger DescOk(s, i)} :: DescOk(s, i))
    && (forall h {:trigger HeadOk(s, h)} :: HeadOk(s, h))
    && (forall g, h {:trigger BufOk(s, g, h)} :: BufOk(s, g, h))
    && |Busy(s.role)| == 3 * |s.phase|
  }

  ghost function Busy(role: seq<Role>): set<nat> {
    set i: nat | i < |role| && role[i].Part?
  }

  /** From `start` on, the ring holds `q`, and `end` is behind it, all modulo the size of the ring. */
  ghost predicate RingOk(ring: seq<nat>, start: nat, end: nat, q: seq<nat>) {
    && |ring| == NUM && end % NUM == (start + |q|) % NUM
    && forall k :: 0 <= k < |q| ==> ring[(start + k) % NUM] == q[k]
  }

  /** `q` lists the requests in phase `phase`, each once. */
  ghost predicate Lists(q: seq<nat>, phases: map<nat, Phase>, phase: Phase) {
    && (forall j, k :: 0 <= j < k < |q| ==> q[j] != q[k])
    && (forall k :: 0 <= k < |q| ==> q[k] in phases && phases[q[k]] == phase)
    && (forall h :: h in phases && phases[h] == phase ==> h in q)
  }

  ghost predicate RingsOk(s: State) {
    && RingOk(s.avail, s.taken, s.availIdx, s.queued) && Lists(s.queued, s.phase, Queued)
    && RingOk(s.used, s.usedIdx, s.usedId, s.pending) && Lists(s.pending, s.phase, Completed)
  }

  ghost predicate Valid(s: State) { ChainsOk(s) && RingsOk(s) }

  // ---------------------------------------------------------------------------
  // At most two requests are in flight

  /** Free and busy descriptors add up. */
  lemma {:induction false} CountBoth(free: seq<bool>, role: seq<Role>)
    requires |free| == |role| && forall i :: 0 <= i < |role| ==> (free[i] <==> role[i].Idle?)
    ensures |FreeSet(free)| + |Busy(role)| == |role|
    decreases |role|
  {
    if role == [] {
      assert FreeSet(free) == {} && Busy(role) == {};
    } else {
      var n := |role| - 1;
      CountBoth(free[..n], role[..n]);
      FreeCount(free);
      BusyCount(role);
    }
  }

  lemma {:induction false} FreeCount(free: seq<bool>)
    requires free != []
    ensures var n := |free| - 1; |FreeSet(free)| == |FreeSet(free[..n])| + if free[n] then 1 else 0
  {
    var n := |free| - 1;
    assert FreeSet(free) == FreeSet(free[..n]) + if free[n] then {n} else {};
  }

  lemma {:induction false} BusyCount(role: seq<Role>)
    requires role != []
    ensures var n := |role| - 1; |Busy(role)| == |Busy(role[..n])| + if role[n].Idle? then 0 else 1
  {
    var n := |role| - 1;
    assert Busy(role) == Busy(role[..n]) + if role[n].Idle? then {} else {n};
  }

  ghost function FreeSet(free: seq<bool>): set<nat> {
    set i: nat | i < |free| && free[i]
  }

  /** At most two requests are in flight, and two exactly if fewer than three descriptors are free. */
  lemma {:induction false} AtMostTwo(s: State)
    requires ChainsOk(s)
    ensures |s.phase| <= 2 && (|s.phase| == 2 <==> |FreeSet(s.free)| < 3)
  {
    forall i: nat | i < NUM ensures s.free[i] <==> s.role[i].Idle? { assert DescOk(s, i); }
    CountBoth(s.free, s.role);
  }

  lemma {:induction false} ListBound(q: seq<nat>, keys: set<nat>)
    requires (forall j, k :: 0 <= j < k < |q| ==> q[j] != q[k]) && (forall k :: 0 <= k < |q| ==> q[k] in keys)
    ensures |q| <= |keys|
    decreases |q|
  {
    if q != [] {
      var last := |q| - 1;
      ListBound(q[..last], keys - {q[last]});
    }
  }

  /** So neither ring ever holds more than two entries that the other side has not seen: the driver's test
      for new used entries, made modulo the size of the ring, is exact. */
  lemma {:induction false} UsedTestExact(s: State)
    requires Valid(s)
    ensures |s.queued| <= 2 && |s.pending| <= 2
    ensures s.usedIdx % NUM != s.usedId % NUM <==> s.pending != []
  {
    AtMostTwo(s);
    ListBound(s.queued, s.phase.Keys);
    ListBound(s.pending, s.phase.Keys);
    assert |s.phase.Keys| == |s.phase|;
  }

  // ---------------------------------------------------------------------------
  // The steps

  /** A request for buffer `b` on the free descriptors `i`, `j`, `k`. */
  ghost function Submitted(s: State, i: nat, j: nat, k: nat, b: nat): State
    requires Sized(s) && i < NUM && j < NUM && k < NUM
  {
    s.(free := s.free[i := false][j := false][k := false],
       next := s.next[i := Some(j)][j := Some(k)][k := None],
       buf := s.buf[i := Some(b)], waiting := s.waiting + {b},
       avail := s.avail[s.availIdx % NUM := i], availIdx := (s.availIdx + 1) % UINT16,
       role := s.role[i := Part(i, 0)][j := Part(i, 1)][k := Part(i, 2)],
       phase := s.phase[i := Queued], queued := s.queued + [i])
  }

  ghost predicate Fresh(s: State, i: nat, j: nat, k: nat, b: nat)
    requires Sized(s)
  {
    && i < NUM && j < NUM && k < NUM && i != j && i != k && j != k && s.free[i] && s.free[j] && s.free[k]
    && NotIn(s, b)
  }

  /** No request uses buffer `b`. */
  ghost predicate NotIn(s: State, b: nat) {
    forall h :: h in s.phase && h < |s.buf| ==> s.buf[h] != Some(b)
  }

  lemma {:induction false} SubmittedBusy(s: State, i: nat, j: nat, k: nat, b: nat)
    requires ChainsOk(s) && Fresh(s, i, j, k, b)
    ensures var s' := Submitted(s, i, j, k, b); |Busy(s'.role)| == 3 * |s'.phase| && i !in s.phase
  {
    assert DescOk(s, i) && DescOk(s, j) && DescOk(s, k) && HeadOk(s, i);
    var s' := Submitted(s, i, j, k, b);
    AddThree(Busy(s.role), i, j, k);
    BusyMore(s.role, i, j, k);
    OneMore(s.phase, i);
  }

  lemma {:induction false} OneMore(phase: map<nat, Phase>, i: nat)
    requires i !in phase
    ensures |phase[i := Queued]| == |phase| + 1
  {
    assert phase[i := Queued].Keys == phase.Keys + {i};
  }

  lemma {:induction false} AddThree(a: set<nat>, i: nat, j: nat, k: nat)
    requires i !in a && j !in a && k !in a && i != j && i != k && j != k
    ensures |a + {i, j, k}| == |a| + 3
  {
    assert a + {i, j, k} == a + {i} + {j} + {k};
  }

  lemma {:induction false} BusyMore(role: seq<Role>, i: nat, j: nat, k: nat)
    requires i < |role| && j < |role| && k < |role|
    ensures Busy(role[i := Part(i, 0)][j := Part(i, 1)][k := Part(i, 2)]) == Busy(role) + {i, j, k}
  {
  }

  lemma {:induction false} SubmittedChains(s: State, i: nat, j: nat, k: nat, b: nat)
    requires ChainsOk(s) && Fresh(s, i, j, k, b)
    ensures ChainsOk(Submitted(s, i, j, k, b))
  {
    var s' := Submitted(s, i, j, k, b);
    SubmittedBusy(s, i, j, k, b);
    assert DescOk(s, i) && DescOk(s, j) && DescOk(s, k);
    forall h ensures HeadOk(s', h) { assert HeadOk(s, h); }
    forall d: nat ensures DescOk(s', d) {
      assert DescOk(s, d);
      if d < NUM && s.role[d].Part? { NthKept(s, s', s.role[d].head, s.role[d].pos); } else { ChainNth(s', i); }
    }
    forall g, h ensures BufOk(s', g, h) { assert BufOk(s, g, h) && HeadOk(s, g) && HeadOk(s, h); }
  }

  /** The places of a chain, spelled out. */
  lemma {:induction false} ChainNth(s: State, h: nat)
    requires Sized(s) && HeadOk(s, h) && h in s.phase
    ensures Nth(s, h, 0) == Some(h) && Nth(s, h, 1) == s.next[h] && Nth(s, h, 2) == s.next[s.next[h].value]
  {
    assert Nth(s, h, 1) == s.next[h];
  }

  lemma {:induction false} NthKept(s: State, s': State, h: nat, pos: nat)
    requires Sized(s) && Sized(s') && HeadOk(s, h) && HeadOk(s', h) && h in s.phase && h in s'.phase && pos < 3
    requires s'.next[h] == s.next[h] && s'.next[s.next[h].value] == s.next[s.next[h].value]
    ensures Nth(s', h, pos) == Nth(s, h, pos)
  {
    ChainNth(s, h);
    ChainNth(s', h);
  }

  /** A new entry behind those in the ring. */
  lemma {:induction false} RingPut(ring: seq<nat>, start: nat, end: nat, q: seq<nat>, h: nat)
    requires RingOk(ring, start, end, q) && |q| < NUM && end < UINT16
    ensures RingOk(ring[end % NUM := h], start, (end + 1) % UINT16, q + [h])
  {
    var ring', q' := ring[end % NUM := h], q + [h];
    NextPlace(end);
    RingEnd(end, 0);
    RingEnd(start, |q|);
    forall k | 0 <= k < |q'| ensures ring'[(start + k) % NUM] == q'[k] {
      if k < |q| { PlacesDiffer(start + k, start + |q|); } else { assert k == |q|; }
    }
  }

  lemma {:induction false} NextPlace(end: nat)
    requires end < UINT16
    ensures (end + 1) % UINT16 % NUM == (end + 1) % NUM
  {
  }

  lemma {:induction false} TwiceMod(k: nat)
    ensures k % NUM % NUM == k % NUM && (k < NUM ==> k % NUM == k)
  {
  }

  lemma {:induction false} RingEnd(start: nat, n: nat)
    ensures ((start + n) % NUM + 1) % NUM == (start + (n + 1)) % NUM
  {
  }

  lemma {:induction false} PlacesDiffer(j: nat, k: nat)
    requires j < k < j + NUM
    ensures j % NUM != k % NUM
  {
  }

  /** The first entry taken out of the ring. */
  lemma {:induction false} RingTake(ring: seq<nat>, start: nat, end: nat, q: seq<nat>, start': nat)
    requires RingOk(ring, start, end, q) && q != [] && start' % NUM == (start + 1) % NUM
    ensures ring[start % NUM] == q[0] && RingOk(ring, start', end, q[1..])
  {
    assert ring[(start + 0) % NUM] == q[0];
    forall k | 0 <= k < |q[1..]| ensures ring[(start' + k) % NUM] == q[1..][k] {
      SamePlace(start', start + 1, k);
      assert ring[(start + (k + 1)) % NUM] == q[k + 1];
    }
    SamePlace(start', start + 1, |q| - 1);
  }

  lemma {:induction false} SamePlace(a: nat, b: nat, k: nat)
    requires a % NUM == b % NUM
    ensures (a + k) % NUM == (b + k) % NUM
  {
    assert a == a / NUM * NUM + a % NUM && b == b / NUM * NUM + b % NUM;
  }

  lemma {:induction false} ListPut(q: seq<nat>, phases: map<nat, Phase>, phase: Phase, h: nat)
    requires Lists(q, phases, phase) && (h in phases ==> phases[h] != phase)
    ensures Lists(q + [h], phases[h := phase], phase)
  {
    assert forall k :: 0 <= k < |q| ==> q[k] != h;
    forall g | g in phases[h := phase] && phases[h := phase][g] == phase ensures g in q + [h] {
      if g != h { assert g in q; }
    }
  }

  lemma {:induction false} ListTake(q: seq<nat>, phases: map<nat, Phase>, phase: Phase, to: Phase)
    requires Lists(q, phases, phase) && q != [] && to != phase
    ensures Lists(q[1..], phases[q[0] := to], phase)
  {
    forall g | g in phases[q[0] := to] && phases[q[0] := to][g] == phase ensures g in q[1..] {
      assert g in q && g != q[0];
      var k :| 0 <= k < |q| && q[k] == g;
      assert q[1..][k - 1] == g;
    }
  }

  /** A change of phase that does not concern a list. */
  lemma {:induction false} ListKept(q: seq<nat>, phases: map<nat, Phase>, phase: Phase, h: nat, to: Phase)
    requires Lists(q, phases, phase) && to != phase && (h in phases ==> phases[h] != phase)
    ensures Lists(q, phases[h := to], phase)
  {
  }

  /** A new request keeps everything in order. */
  lemma {:induction false} SubmittedOk(s: State, i: nat, j: nat, k: nat, b: nat)
    requires Valid(s) && Fresh(s, i, j, k, b)
    ensures Valid(Submitted(s, i, j, k, b))
  {
    UsedTestExact(s);
    SubmittedChains(s, i, j, k, b);
    SubmittedBusy(s, i, j, k, b);
    RingPut(s.avail, s.taken, s.availIdx, s.queued, i);
    ListPut(s.queued, s.phase, Queued, i);
    ListKept(s.pending, s.phase, Completed, i, Queued);
  }

  /** The device takes the next request off the avail ring. */
  ghost function DeviceTook(s: State): State
    requires s.queued != []
  {
    s.(taken := (s.taken + 1) % UINT16, queued := s.queued[1..], phase := s.phase[s.queued[0] := Taken])
  }

  /** The device completes request `h`. */
  ghost function DeviceDid(s: State, h: nat): State
    requires |s.used| == NUM
  {
    s.(used := s.used[s.usedId % NUM := h], usedId := (s.usedId + 1) % UINT16, phase := s.phase[h := Completed], pending := s.pending + [h])
  }

  /** The interrupt handler deals with one entry of the used ring. */
  ghost function Handled(s: State): State
    requires Sized(s) && s.pending != [] && s.pending[0] < NUM && s.buf[s.pending[0]].Some?
  {
    var h := s.pending[0];
    s.(waiting := s.waiting - {s.buf[h].value}, usedIdx := (s.usedIdx + 1) % NUM, phase := s.phase[h := Done], pending := s.pending[1..])
  }

  /** The chain of `h` is freed. */
  ghost function Freed(s: State, h: nat): State
    requires Sized(s) && h < NUM && Link(s, h) && Link(s, s.next[h].value)
  {
    var j := s.next[h].value;
    var k := s.next[j].value;
    s.(free := s.free[h := true][j := true][k := true], role := s.role[h := Idle][j := Idle][k := Idle],
       buf := s.buf[h := None], phase := s.phase - {h})
  }

  /** The chains do not move when a request only changes phase. */
  lemma {:induction false} PhaseChains(s: State, s': State, h: nat)
    requires ChainsOk(s) && h in s.phase && h < NUM && s.buf[h].Some? && Sized(s')
    requires s'.free == s.free && s'.next == s.next && s'.buf == s.buf && s'.role == s.role && h in s'.phase
    requires s'.phase == s.phase[h := s'.phase[h]]
    requires if s'.phase[h] == Done then s'.waiting == s.waiting - {s.buf[h].value} else s'.waiting == s.waiting && s.phase[h] != Done
    ensures ChainsOk(s')
  {
    assert HeadOk(s, h) && s'.phase.Keys == s.phase.Keys;
    forall g ensures HeadOk(s', g) { assert HeadOk(s, g) && BufOk(s, g, h); }
    forall d: nat ensures DescOk(s', d) {
      assert DescOk(s, d);
      if d < NUM && s.role[d].Part? { assert HeadOk(s, s.role[d].head); NthKept(s, s', s.role[d].head, s.role[d].pos); }
    }
    forall f, g ensures BufOk(s', f, g) { assert BufOk(s, f, g); }
  }

  lemma {:induction false} DeviceTookOk(s: State)
    requires Valid(s) && s.queued != []
    ensures s.avail[s.taken % NUM] == s.queued[0] && Valid(DeviceTook(s))
  {
    var h, s' := s.queued[0], DeviceTook(s);
    assert HeadOk(s, h);
    PhaseChains(s, s', h);
    NextPlace(s.taken);
    RingTake(s.avail, s.taken, s.availIdx, s.queued, s'.taken);
    ListTake(s.queued, s.phase, Queued, Taken);
    ListKept(s.pending, s.phase, Completed, h, Taken);
  }

  lemma {:induction false} DeviceDidOk(s: State, h: nat)
    requires Valid(s) && h in s.phase && s.phase[h] == Taken
    ensures Valid(DeviceDid(s, h))
  {
    assert HeadOk(s, h);
    UsedTestExact(s);
    PhaseChains(s, DeviceDid(s, h), h);
    RingPut(s.used, s.usedIdx, s.usedId, s.pending, h);
    ListPut(s.pending, s.phase, Completed, h);
    ListKept(s.queued, s.phase, Queued, h, Completed);
  }

  lemma {:induction false} HandledOk(s: State)
    requires Valid(s) && s.pending != []
    ensures s.used[s.usedIdx] == s.pending[0] && s.pending[0] < NUM && s.buf[s.pending[0]].Some? && Valid(Handled(s))
  {
    var h := s.pending[0];
    assert HeadOk(s, h);
    PhaseChains(s, Handled(s), h);
    TwiceMod(s.usedIdx + 1);
    TwiceMod(s.usedIdx);
    RingTake(s.used, s.usedIdx, s.usedId, s.pending, (s.usedIdx + 1) % NUM);
    ListTake(s.pending, s.phase, Completed, Done);
    ListKept(s.queued, s.phase, Queued, h, Done);
  }

  lemma {:induction false} FreedBusy(s: State, h: nat)
    requires ChainsOk(s) && h in s.phase && HeadOk(s, h)
    ensures |Busy(Freed(s, h).role)| == 3 * |Freed(s, h).phase|
  {
    var s' := Freed(s, h);
    var j := s.next[h].value;
    var k := s.next[j].value;
    BusyLess(s.role, h, j, k);
    AddThree(Busy(s'.role), h, j, k);
    assert s'.phase.Keys == s.phase.Keys - {h};
  }

  lemma {:induction false} BusyLess(role: seq<Role>, i: nat, j: nat, k: nat)
    requires i < |role| && j < |role| && k < |role| && role[i].Part? && role[j].Part? && role[k].Part?
    ensures var role' := role[i := Idle][j := Idle][k := Idle];
            Busy(role) == Busy(role') + {i, j, k} && i !in Busy(role') && j !in Busy(role') && k !in Busy(role')
  {
  }

  lemma {:induction false} FreedHead(s: State, h: nat, g: nat)
    requires ChainsOk(s) && h in s.phase && HeadOk(s, h)
    ensures HeadOk(Freed(s, h), g)
  {
    assert HeadOk(s, g);
  }

  lemma {:induction false} FreedDesc(s: State, h: nat, d: nat)
    requires ChainsOk(s) && h in s.phase && HeadOk(s, h)
    ensures DescOk(Freed(s, h), d)
  {
    var s' := Freed(s, h);
    assert DescOk(s, d);
    if d < NUM && s.role[d].Part? {
      var g := s.role[d].head;
      assert HeadOk(s, g);
      if g == h {
        ChainNth(s, h);
      } else {
        FreedHead(s, h, g);
        NthKept(s, s', g, s.role[d].pos);
      }
    }
  }

  lemma {:induction false} FreedOk(s: State, h: nat)
    requires Valid(s) && h in s.phase && s.phase[h] == Done && HeadOk(s, h)
    ensures Valid(Freed(s, h))
  {
    var s' := Freed(s, h);
    FreedBusy(s, h);
    forall g: nat ensures HeadOk(s', g) { FreedHead(s, h, g); }
    forall d: nat ensures DescOk(s', d) { FreedDesc(s, h, d); }
    forall f, g ensures BufOk(s', f, g) { assert BufOk(s, f, g) && HeadOk(s, f) && HeadOk(s, g); }
  }

  // ---------------------------------------------------------------------------
  // The driver and the device

  /** `Valid`, closed; an assertion of `Unfolded` opens it. */
  ghost predicate Sound(s: State) {
    forall k {:trigger Unfolded(k, s)} :: Unfolded(k, s) ==> Valid(s)
  }

  ghost predicate Unfolded(k: int, s: State) { true }

  lemma {:induction false} SubmitStep(s: State, i: nat, j: nat, k: nat, b: nat)
    requires Sized(s) && Sound(s) && Fresh(s, i, j, k, b)
    ensures var s' := Submitted(s, i, j, k, b); Sized(s') && Sound(s') && |s'.phase| <= 2 && i !in s.phase
  {
    assert Unfolded(0, s);
    SubmittedOk(s, i, j, k, b);
    SubmittedBusy(s, i, j, k, b);
    AtMostTwo(Submitted(s, i, j, k, b));
  }

  lemma {:induction false} TakeStep(s: State)
    requires Sized(s) && Sound(s) && s.queued != []
    ensures s.avail[s.taken % NUM] == s.queued[0] && s.queued[0] in s.phase && Sized(DeviceTook(s)) && Sound(DeviceTook(s))
  {
    assert Unfolded(0, s);
    DeviceTookOk(s);
  }

  lemma {:induction false} CompleteStep(s: State, h: nat)
    requires Sized(s) && Sound(s) && h in s.phase && s.phase[h] == Taken
    ensures Sized(DeviceDid(s, h)) && Sound(DeviceDid(s, h))
  {
    assert Unfolded(0, s);
    DeviceDidOk(s, h);
  }

  lemma {:induction false} HandleStep(s: State)
    requires Sized(s) && Sound(s) && s.pending != []
    ensures var h := s.pending[0]; s.used[s.usedIdx] == h && h < NUM && h in s.phase && s.buf[h].Some?
    ensures Sized(Handled(s)) && Sound(Handled(s))
  {
    assert Unfolded(0, s);
    HandledOk(s);
  }

  lemma {:induction false} TestStep(s: State)
    requires Sized(s) && Sound(s)
    ensures (s.usedIdx % NUM != s.usedId % NUM <==> s.pending != []) && Lists(s.pending, s.phase, Completed)
  {
    assert Unfolded(0, s);
    UsedTestExact(s);
  }

  /** What the buffers of requests say of their phase. */
  lemma {:induction false} BufferTells(s: State, h: nat)
    requires Sized(s) && Sound(s) && h in s.phase
    ensures h < NUM && s.buf[h].Some? && (s.buf[h].value in s.waiting <==> s.phase[h] != Done)
  {
    assert Unfolded(0, s);
    assert HeadOk(s, h);
  }

  /** The chain of a request: three descriptors in use, linked. */
  ghost predicate Chain(s: State, h: nat)
    requires Sized(s)
  {
    && h < NUM && Link(s, h) && Link(s, s.next[h].value)
    && var j := s.next[h].value;
    var k := s.next[j].value;
    h != j && h != k && j != k && !s.free[h] && !s.free[j] && !s.free[k] && s.next[k].None?
  }

  lemma {:induction false} FreeStep(s: State, h: nat)
    requires Sized(s) && Sound(s) && h in s.phase && s.phase[h] == Done
    ensures Chain(s, h) && Sized(Freed(s, h)) && Sound(Freed(s, h))
  {
    assert Unfolded(0, s);
    assert HeadOk(s, h);
    var j := s.next[h].value;
    var k := s.next[j].value;
    assert DescOk(s, h) && DescOk(s, j) && DescOk(s, k);
    FreedOk(s, h);
  }

  class Disk {
    var free: seq<bool>
    var next: seq<Option<nat>>
    var buf: seq<Option<nat>>
    var waiting: set<nat>
    var avail: seq<nat>
    var availIdx: nat
    var used: seq<nat>
    var usedId: nat
    var usedIdx: nat
    ghost var role: seq<Role>
    ghost var phase: map<nat, Phase>
    var taken: nat
    ghost var queued: seq<nat>
    ghost var pending: seq<nat>

    ghost function S(): State
      reads this
    {
      State(free, next, buf, waiting, avail, availIdx, used, usedId, usedIdx, role, phase, taken, queued, pending)
    }

    ghost predicate Ok() reads this { Sized(S()) && Sound(S()) }

    /** The end of `virtio_disk_init`. */
    constructor ()
      ensures Ok() && phase == map[] && waiting == {}
    {
      free, next, buf := seq(NUM, _ => true), seq(NUM, _ => None), seq(NUM, _ => None);
      waiting, avail, availIdx, used, usedId, usedIdx := {}, seq(NUM, _ => 0), 0, seq(NUM, _ => 0), 0, 0;
      role, phase, taken, queued, pending := seq(NUM, _ => Idle), map[], 0, [], [];
      new;
      assert Busy(role) == {};
    }

    /** `alloc_desc` */
    method AllocDesc() returns (i: Option<nat>)
      requires |free| == NUM
      modifies this`free
      ensures i.None? ==> free == old(free) && FreeSet(free) == {}
      ensures i.Some? ==> i.value < NUM && old(free)[i.value] && free == old(free)[i.value := false]
    {
      var k := 0;
      while k < NUM
        invariant k <= NUM && free == old(free) && forall j :: 0 <= j < k ==> !free[j]
      {
        if free[k] {
          free := free[k := false];
          return Some(k);
        }
        k := k + 1;
      }
      i := None;
    }

    /** `free_desc`; its two panics are the two cases of `panicked`. */
    method FreeDesc(i: nat) returns (panicked: bool)
      requires |free| == NUM
      modifies this`free
      ensures panicked <==> i >= NUM || old(free)[i]
      ensures free == if panicked then old(free) else old(free)[i := true]
    {
      if i >= NUM || free[i] {
        return true;
      }
      free := free[i := true];
      panicked := false;
    }

    /** `alloc3_desc`: three descriptors, or the free ones are as before and fewer than three. */
    method Alloc3Desc() returns (idx: Option<(nat, nat, nat)>, panicked: bool)
      requires |free| == NUM
      modifies this`free
      ensures !panicked
      ensures idx.None? ==> free == old(free) && |FreeSet(free)| < 3
      ensures idx.Some? ==>
                var (i, j, k) := idx.value;
                && i < NUM && j < NUM && k < NUM && i != j && i != k && j != k && old(free)[i] && old(free)[j] && old(free)[k]
                && free == old(free)[i := false][j := false][k := false]
    {
      ghost var was := free;
      panicked := false;
      var i := AllocDesc();
      if i.None? {
        return None, false;
      }
      var j := AllocDesc();
      if j.None? {
        OneLeft(was, i.value);
        panicked := FreeDesc(i.value);
        assert free == was;
        return None, panicked;
      }
      var k := AllocDesc();
      if k.None? {
        TwoLeft(was, i.value, j.value);
        panicked := FreeDesc(i.value);
        var again := FreeDesc(j.value);
        assert free == was;
        return None, panicked || again;
      }
      idx := Some((i.value, j.value, k.value));
    }

    /** The chain for the request is written into the descriptors. */
    method Describe(i: nat, j: nat, k: nat)
      requires |next| == NUM && |role| == NUM && i < NUM && j < NUM && k < NUM
      modifies this`next, this`role
      ensures next == old(next)[i := Some(j)][j := Some(k)][k := None]
      ensures role == old(role)[i := Part(i, 0)][j := Part(i, 1)][k := Part(i, 2)]
    {
      next := next[i := Some(j)][j := Some(k)][k := None];
      role := role[i := Part(i, 0)][j := Part(i, 1)][k := Part(i, 2)];
    }

    /** The request for `b` is recorded and announced. */
    method Announce(i: nat, b: nat)
      requires |buf| == NUM && |avail| == NUM && i < NUM
      modifies this`waiting, this`buf, this`avail, this`availIdx, this`phase, this`queued
      ensures waiting == old(waiting) + {b} && buf == old(buf)[i := Some(b)]
      ensures avail == old(avail)[old(availIdx) % NUM := i] && availIdx == (old(availIdx) + 1) % UINT16
      ensures phase == old(phase)[i := Queued] && queued == old(queued) + [i]
    {
      waiting := waiting + {b};
      buf := buf[i := Some(b)];
      avail := avail[availIdx % NUM := i];
      availIdx := (availIdx + 1) % UINT16;
      phase, queued := phase[i := Queued], queued + [i];
    }

    /** `virtio_disk_rw` for buffer `b` up to its wait, whose caller holds `b` alone.  Without three descriptors it
        sleeps, and then two requests are in flight. */
    method Submit(b: nat) returns (head: Option<nat>)
      requires Ok() && NotIn(S(), b)
      modifies this
      ensures Ok()
      ensures head.None? ==> S() == old(S()) && |phase| == 2
      ensures head.Some? ==> head.value !in old(phase) && phase == old(phase)[head.value := Queued] && |phase| <= 2
      ensures head.Some? ==> head.value < NUM && buf[head.value] == Some(b) && waiting == old(waiting) + {b}
    {
      ghost var s := S();
      var idx, panicked := Alloc3Desc();
      if idx.None? {
        FewFree(s);
        return None;
      }
      var (i, j, k) := idx.value;
      SubmitStep(s, i, j, k, b);
      Describe(i, j, k);
      Announce(i, b);
      assert S() == Submitted(s, i, j, k, b);
      head := Some(i);
    }

    /** The device takes the next request from the avail ring: the one announced first. */
    method DeviceTakes() returns (h: nat)
      requires Ok() && queued != []
      modifies this`taken, this`queued, this`phase
      ensures Ok() && h == old(queued)[0] && h in old(phase) && phase == old(phase)[h := Taken]
    {
      ghost var s := S();
      TakeStep(s);
      h := avail[taken % NUM];
      taken := (taken + 1) % UINT16;
      queued, phase := queued[1..], phase[h := Taken];
      assert S() == DeviceTook(s);
    }

    /** The device completes any request it has taken. */
    method DeviceCompletes(h: nat)
      requires Ok() && h in phase && phase[h] == Taken
      modifies this`used, this`usedId, this`phase, this`pending
      ensures Ok() && phase == old(phase)[h := Completed] && pending == old(pending) + [h]
    {
      ghost var s := S();
      CompleteStep(s, h);
      used := used[usedId % NUM := h];
      usedId := (usedId + 1) % UINT16;
      phase, pending := phase[h := Completed], pending + [h];
      assert S() == DeviceDid(s, h);
    }

    /** One turn of the loop of `virtio_disk_intr`. */
    method HandleOne()
      requires Ok() && pending != []
      modifies this`waiting, this`usedIdx, this`phase, this`pending
      ensures Ok() && pending == old(pending)[1..] && old(pending)[0] in old(phase) && phase == old(phase)[old(pending)[0] := Done]
    {
      ghost var s := S();
      HandleStep(s);
      var id := used[usedIdx];
      waiting := waiting - {buf[id].value};
      usedIdx := (usedIdx + 1) % NUM;
      phase, pending := phase[id := Done], pending[1..];
      assert S() == Handled(s);
    }

    /** `virtio_disk_intr`: the requests that the device completed, and no others, release their buffers. */
    method Intr()
      requires Ok()
      modifies this`waiting, this`usedIdx, this`phase, this`pending
      ensures Ok() && pending == [] && phase.Keys == old(phase).Keys
      ensures forall h :: h in phase ==> phase[h] == if old(phase)[h] == Completed then Done else old(phase)[h]
      ensures forall h :: h in phase && h < NUM && buf[h].Some? ==> (buf[h].value in waiting <==> old(phase)[h] in {Queued, Taken})
    {
      ghost var was := phase;
      TestStep(S());
      SoFarStart(phase, pending);
      while usedIdx % NUM != usedId % NUM
        invariant Ok() && SoFar(was, phase, pending) && (usedIdx % NUM != usedId % NUM <==> pending != [])
        decreases |pending|
      {
        TestStep(S());
        SoFarTurn(was, phase, pending);
        HandleOne();
        TestStep(S());
      }
      forall h | h in phase && h < NUM && buf[h].Some? ensures buf[h].value in waiting <==> was[h] in {Queued, Taken} { BufferTells(S(), h); }
    }

    /** `free_chain` */
    method FreeChain(h: nat) returns (panicked: bool)
      requires Sized(S()) && Chain(S(), h)
      modifies this`free
      ensures !panicked && free == Freed(old(S()), h).free
    {
      ghost var was := free;
      ghost var j := next[h].value;
      ghost var k := next[j].value;
      var i := h;
      ghost var pos := 0;
      while true
        invariant 0 <= pos < 3 && i == (if pos == 0 then h else if pos == 1 then j else k)
        invariant free == (if pos == 0 then was else if pos == 1 then was[h := true] else was[h := true][j := true])
        decreases 3 - pos
      {
        panicked := FreeDesc(i);
        if next[i].None? {
          return;
        }
        i := next[i].value;
        pos := pos + 1;
      }
    }

    /** The end of `virtio_disk_rw`, once the buffer of its request is no longer the disk's. */
    method Finish(h: nat) returns (panicked: bool)
      requires Ok() && h in phase && h < NUM && buf[h].Some? && buf[h].value !in waiting
      modifies this`free, this`buf, this`role, this`phase
      ensures Ok() && !panicked && phase == old(phase) - {h}
    {
      ghost var s := S();
      BufferTells(s, h);
      FreeStep(s, h);
      ghost var j := next[h].value;
      ghost var k := next[j].value;
      panicked := FreeChain(h);
      buf := buf[h := None];
      role, phase := role[h := Idle][j := Idle][k := Idle], phase - {h};
      assert S() == Freed(s, h);
    }
  }

  lemma {:induction false} HandledTurn(list: seq<nat>, now: map<nat, Phase>, h: nat)
    requires list != [] && Lists(list, now, Completed) && h in now
    ensures h in list[1..] <==> h in list && h != list[0]
    ensures h in list <==> now[h] == Completed
  {
    if h in list {
      var k :| 0 <= k < |list| && list[k] == h;
      if k > 0 { assert list[1..][k - 1] == h; }
    }
  }

  lemma {:induction false} OneLeft(free: seq<bool>, i: nat)
    requires i < |free| && FreeSet(free[i := false]) == {}
    ensures |FreeSet(free)| < 3
  {
    assert FreeSet(free) <= FreeSet(free[i := false]) + {i};
    SubsetSize(FreeSet(free), FreeSet(free[i := false]) + {i});
  }

  lemma {:induction false} TwoLeft(free: seq<bool>, i: nat, j: nat)
    requires i < |free| && j < |free| && FreeSet(free[i := false][j := false]) == {}
    ensures |FreeSet(free)| < 3
  {
    assert FreeSet(free) <= FreeSet(free[i := false][j := false]) + {i, j};
    SubsetSize(FreeSet(free), FreeSet(free[i := false][j := false]) + {i, j});
    assert |{i, j}| <= 2;
  }

  /** Fewer than three free descriptors mean two requests in flight. */
  lemma {:induction false} FewFree(s: State)
    requires Sized(s) && Sound(s) && |FreeSet(s.free)| < 3
    ensures |s.phase| == 2
  {
    assert Unfolded(0, s);
    AtMostTwo(s);
  }

  /** The interrupt handler has dealt with the completed requests that are no longer pending. */
  ghost predicate SoFar(was: map<nat, Phase>, phase: map<nat, Phase>, pending: seq<nat>) {
    && phase.Keys == was.Keys
    && forall h :: h in phase ==> phase[h] == if was[h] == Completed && h !in pending then Done else was[h]
  }

  lemma {:induction false} SoFarStart(phase: map<nat, Phase>, pending: seq<nat>)
    requires Lists(pending, phase, Completed)
    ensures SoFar(phase, phase, pending)
  {
  }

  lemma {:induction false} SoFarTurn(was: map<nat, Phase>, phase: map<nat, Phase>, pending: seq<nat>)
    requires SoFar(was, phase, pending) && pending != [] && Lists(pending, phase, Completed)
    ensures pending[0] in phase && SoFar(was, phase[pending[0] := Done], pending[1..])
  {
    assert pending[0] in phase && phase[pending[0]] == Completed;
    var phase' := phase[pending[0] := Done];
    forall h | h in phase' ensures phase'[h] == if was[h] == Completed && h !in pending[1..] then Done else was[h] {
      HandledTurn(pending, phase, h);
    }
  }
}
