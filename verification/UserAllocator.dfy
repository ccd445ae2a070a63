/** The Kernighan and Ritchie storage allocator of user/umalloc.c.

Addresses count `Header` units of 16 bytes; address 0 is the null pointer.
Memory is a map from unit address to the header stored there. */
module UserAllocator {
  import opened Options

  const HEADER_BYTES := 16
  const MIN_CORE := 4096
  const INT_LIMIT := 0x8000_0000

  datatype Header = Header(ptr: nat, size: nat)

  type Memory = map<nat, Header>

  /** Memory together with its division into blocks.  `own` sends every unit obtained from the
      system to the block it belongs to. */
  datatype View = View(hdr: Memory, free: set<nat>, live: map<nat, nat>, own: map<nat, nat>)

  // ---------------------------------------------------------------------------
  // The free list

  /** `q` follows `a` in address order, wrapping from the last free block to `base`. */
  ghost predicate IsNext(free: set<nat>, base: nat, a: nat, q: nat) {
    && q in free
    && (a < q ==> forall b :: b in free ==> !(a < b < q))
    && (q <= a ==> q == base && forall b :: b in free ==> b <= a)
  }

  ghost predicate NextOk(v: View, base: nat, a: nat) {
    a in v.free ==> a in v.hdr && IsNext(v.free, base, a, v.hdr[a].ptr)
  }

  /** The circular list: the free blocks are linked in address order through `ptr`, from `base`. */
  ghost predicate Linked(v: View, base: nat) {
    && base in v.free
    && (forall a :: a in v.free ==> a in v.hdr && base <= a)
    && (forall a {:trigger NextOk(v, base, a)} :: NextOk(v, base, a))
  }

  /** Free blocks do not overlap, and `base` is the only empty one. */
  ghost predicate Apart(v: View, base: nat) {
    && (forall a :: a in v.free ==> a in v.hdr && (v.hdr[a].size == 0 <==> a == base))
    && (forall a, b :: a in v.free && b in v.free && a < b ==> a + v.hdr[a].size <= b)
  }

  ghost predicate Inside(hdr: Memory, a: nat, u: nat) {
    a in hdr && a <= u < a + hdr[a].size
  }

  /** Since `own` is a function, blocks are disjoint; since it is total on the obtained units,
      none is lost. */
  ghost predicate Owned(v: View, base: nat) {
    UnitsOwned(v, base) && LiveOk(v) && BlocksOwn(v)
  }

  /** Every obtained unit lies in the block that owns it. */
  ghost predicate UnitsOwned(v: View, base: nat) {
    forall u :: u in v.own ==> base < u && Inside(v.hdr, v.own[u], u) && (v.own[u] in v.live || v.own[u] in v.free)
  }

  ghost predicate LiveOk(v: View) {
    forall a :: a in v.live ==> a in v.hdr && 0 < v.live[a] == v.hdr[a].size && a !in v.free
  }

  /** Every block owns its units. */
  ghost predicate BlocksOwn(v: View) {
    forall a, u :: (a in v.live || a in v.free) && Inside(v.hdr, a, u) ==> u in v.own && v.own[u] == a
  }

  ghost predicate ListOk(v: View, base: nat) {
    Linked(v, base) && Apart(v, base) && Owned(v, base)
  }

  /** Free block `a` ends where free block `b` begins. */
  ghost predicate Touch(v: View, a: nat, b: nat) {
    a in v.free && b in v.free && a in v.hdr && a < b && a + v.hdr[a].size == b
  }

  /** No free block ends where another begins. */
  ghost predicate Coalesced(v: View) {
    forall a, b :: !Touch(v, a, b)
  }

  /** No unit lies in two blocks, live or free. */
  lemma {:induction false} BlocksDisjoint(v: View, base: nat, a: nat, b: nat, u: nat)
    requires Owned(v, base) && a != b && (a in v.live || a in v.free) && (b in v.live || b in v.free)
    ensures !(Inside(v.hdr, a, u) && Inside(v.hdr, b, u))
  {
    assert Inside(v.hdr, a, u) ==> v.own[u] == a;
  }

  /** Any set of addresses that holds `base` and is closed under `ptr` holds every free block: the
      list is one ring. */
  lemma {:induction false} RingReachesAll(v: View, base: nat, reached: set<nat>)
    requires Linked(v, base) && base in reached
    requires forall a :: a in v.free && a in v.hdr && a in reached ==> v.hdr[a].ptr in reached
    ensures v.free <= reached
  {
    forall a | a in v.free ensures a in reached {
      RingReaches(v, base, reached, a);
    }
  }

  lemma {:induction false} RingReaches(v: View, base: nat, reached: set<nat>, a: nat)
    requires Linked(v, base) && base in reached && a in v.free
    requires forall b :: b in v.free && b in v.hdr && b in reached ==> v.hdr[b].ptr in reached
    ensures a in reached
    decreases a
  {
    if a != base {
      var below := set b | b in v.free && b < a;
      assert base in below;
      var m := Greatest(below);
      RingReaches(v, base, reached, m);
      assert NextOk(v, base, m);
      var next := v.hdr[m].ptr;
      assert a == next by { assert next < a ==> next in below; }
    }
  }

  lemma {:induction false} Greatest(s: set<nat>) returns (m: nat)
    requires s != {}
    ensures m in s && forall x :: x in s ==> x <= m
  {
    m :| m in s;
    if s != {m} {
      var first, rest := m, s - {m};
      var n := Greatest(rest);
      forall x | x in s ensures x <= n || x == first { assert x == first || x in rest; }
      m := if first < n then n else first;
    }
  }

  // ---------------------------------------------------------------------------
  // Inserting a block and merging neighbours

  ghost function Insert(v: View, p: nat, bp: nat): View
    requires p in v.hdr && bp in v.hdr
  {
    v.(hdr := v.hdr[bp := Header(v.hdr[p].ptr, v.hdr[bp].size)][p := Header(bp, v.hdr[p].size)],
    free := v.free + {bp}, live := v.live - {bp})
  }

  ghost function Merge(v: View, a: nat, b: nat): View
    requires a in v.hdr && b in v.hdr
  {
    v.(hdr := v.hdr[a := Header(v.hdr[b].ptr, v.hdr[a].size + v.hdr[b].size)],
    free := v.free - {b},
    own := map u | u in v.own :: if v.own[u] == b then a else v.own[u])
  }

  /** `p` is the free block that the live block `bp` has to be linked behind. */
  ghost predicate Before(v: View, p: nat, bp: nat) {
    p in v.free && p in v.hdr && p < bp && bp in v.live && (v.hdr[p].ptr <= p || bp < v.hdr[p].ptr)
  }

  lemma {:induction false} InsertLinked(v: View, base: nat, p: nat, bp: nat)
    requires ListOk(v, base) && Before(v, p, bp)
    ensures Linked(Insert(v, p, bp), base)
  {
    forall a ensures NextOk(Insert(v, p, bp), base, a) {
      assert NextOk(v, base, a) && NextOk(v, base, p);
    }
  }

  lemma {:induction false} InsertApart(v: View, base: nat, p: nat, bp: nat)
    requires ListOk(v, base) && Before(v, p, bp)
    ensures Apart(Insert(v, p, bp), base)
  {
    assert Inside(v.hdr, bp, bp);
    forall a | a in v.free
      ensures a < bp ==> a + v.hdr[a].size <= bp
      ensures bp < a ==> bp + v.hdr[bp].size <= a
    {
      assert a != base ==> Inside(v.hdr, a, a);
      assert !Inside(v.hdr, a, bp) && !Inside(v.hdr, bp, a);
    }
  }

  lemma {:induction false} InsertOwned(v: View, base: nat, p: nat, bp: nat)
    requires Owned(v, base) && Before(v, p, bp)
    ensures Owned(Insert(v, p, bp), base)
  {
    var w := Insert(v, p, bp);
    forall u: nat, a: nat ensures Inside(w.hdr, a, u) == Inside(v.hdr, a, u) {}
  }

  lemma {:induction false} InsertOk(v: View, base: nat, p: nat, bp: nat)
    requires ListOk(v, base) && Before(v, p, bp)
    ensures ListOk(Insert(v, p, bp), base)
  {
    InsertLinked(v, base, p, bp);
    InsertApart(v, base, p, bp);
    InsertOwned(v, base, p, bp);
  }

  /** A newly inserted block can only touch its two neighbours. */
  lemma {:induction false} InsertTouches(v: View, base: nat, p: nat, bp: nat, a: nat, b: nat)
    requires ListOk(v, base) && Coalesced(v) && Before(v, p, bp) && Touch(Insert(v, p, bp), a, b)
    ensures (a == p && b == bp) || (a == bp && b == v.hdr[p].ptr)
  {
    assert NextOk(v, base, p);
    InsertApart(v, base, p, bp);
    assert !Touch(v, a, b);
  }

  lemma {:induction false} MergeLinked(v: View, base: nat, a: nat, q: nat)
    requires Linked(v, base) && Touch(v, a, q) && v.hdr[a].ptr == q
    ensures Linked(Merge(v, a, q), base)
  {
    forall c ensures NextOk(Merge(v, a, q), base, c) {
      assert NextOk(v, base, a) && NextOk(v, base, q) && NextOk(v, base, c);
    }
  }

  lemma {:induction false} MergeApart(v: View, base: nat, a: nat, q: nat)
    requires Linked(v, base) && Apart(v, base) && Touch(v, a, q) && v.hdr[a].ptr == q
    ensures Apart(Merge(v, a, q), base)
  {
    assert NextOk(v, base, a);
  }

  lemma {:induction false} MergeOwned(v: View, base: nat, a: nat, q: nat)
    requires ListOk(v, base) && Touch(v, a, q)
    ensures Owned(Merge(v, a, q), base)
  {
    var w := Merge(v, a, q);
    forall u: nat | u in w.own
      ensures base < u && Inside(w.hdr, w.own[u], u) && (w.own[u] in w.live || w.own[u] in w.free)
    {
      assert Inside(v.hdr, v.own[u], u);
    }
    forall c: nat, u: nat | (c in w.live || c in w.free) && Inside(w.hdr, c, u)
      ensures u in w.own && w.own[u] == c
    {
      assert Inside(v.hdr, c, u) || (c == a && Inside(v.hdr, q, u));
    }
  }

  lemma {:induction false} MergeOk(v: View, base: nat, a: nat, q: nat)
    requires ListOk(v, base) && Touch(v, a, q) && v.hdr[a].ptr == q
    ensures ListOk(Merge(v, a, q), base)
  {
    MergeLinked(v, base, a, q);
    MergeApart(v, base, a, q);
    MergeOwned(v, base, a, q);
  }

  /** Merging leaves no new touching pair behind. */
  lemma {:induction false} MergeTouches(v: View, base: nat, a: nat, q: nat, c: nat, d: nat)
    requires Apart(v, base) && Touch(v, a, q) && Touch(Merge(v, a, q), c, d)
    ensures if c == a then Touch(v, q, d) else Touch(v, c, d)
  {
  }

  // ---------------------------------------------------------------------------
  // Freeing a block

  ghost function MergedRight(v: View, bp: nat): View
    requires bp in v.hdr && v.hdr[bp].ptr in v.hdr
  {
    if bp + v.hdr[bp].size == v.hdr[bp].ptr then Merge(v, bp, v.hdr[bp].ptr) else v
  }

  ghost function MergedLeft(v: View, p: nat, bp: nat): View
    requires p in v.hdr && bp in v.hdr
  {
    if p + v.hdr[p].size == bp then Merge(v, p, bp) else v
  }

  /** The block now holding `bp` is free and covers at least the `n` units from `bp`. */
  ghost predicate Holds(v: View, bp: nat, n: nat) {
    bp in v.own && v.own[bp] in v.free && v.own[bp] in v.hdr && v.own[bp] <= bp && bp + n <= v.own[bp] + v.hdr[v.own[bp]].size
  }

  lemma {:induction false} RightPhase(v: View, base: nat, p: nat, bp: nat)
    requires ListOk(v, base) && Coalesced(v) && Before(v, p, bp)
    ensures v.hdr[p].ptr in v.hdr
    ensures var w := MergedRight(Insert(v, p, bp), bp);
            && ListOk(w, base) && (forall a, b :: Touch(w, a, b) ==> a == p && b == bp)
            && p in w.free && bp in w.free && w.hdr[p].ptr == bp && Holds(w, bp, v.live[bp])
            && w.live == v.live - {bp} && w.own.Keys == v.own.Keys && w.free <= v.free + {bp}
  {
    var w := Insert(v, p, bp);
    var q := v.hdr[p].ptr;
    assert NextOk(v, base, p);
    InsertOk(v, base, p, bp);
    assert Inside(w.hdr, bp, bp);
    if bp + v.hdr[bp].size == q {
      assert Touch(w, bp, q);
      MergeOk(w, base, bp, q);
    }
    forall a, b | Touch(MergedRight(w, bp), a, b) ensures a == p && b == bp { RightTouches(v, base, p, bp, a, b); }
  }

  lemma {:induction false} RightTouches(v: View, base: nat, p: nat, bp: nat, a: nat, b: nat)
    requires ListOk(v, base) && Coalesced(v) && Before(v, p, bp) && bp in v.hdr && v.hdr[p].ptr in v.hdr
    requires Touch(MergedRight(Insert(v, p, bp), bp), a, b)
    ensures a == p && b == bp
  {
    var w, q := Insert(v, p, bp), v.hdr[p].ptr;
    if bp + v.hdr[bp].size == q {
      assert NextOk(v, base, p) && Touch(w, bp, q);
      InsertApart(v, base, p, bp);
      MergeTouches(w, base, bp, q, a, b);
      InsertTouches(v, base, p, bp, if a == bp then q else a, b);
    } else {
      InsertTouches(v, base, p, bp, a, b);
    }
  }

  lemma {:induction false} LeftPhase(v: View, base: nat, p: nat, bp: nat, n: nat)
    requires ListOk(v, base) && (forall a, b :: Touch(v, a, b) ==> a == p && b == bp)
    requires p in v.free && bp in v.free && p < bp && v.hdr[p].ptr == bp && Holds(v, bp, n)
    ensures var w := MergedLeft(v, p, bp);
            && ListOk(w, base) && Coalesced(w) && p in w.free && Holds(w, bp, n)
            && w.live == v.live && w.own.Keys == v.own.Keys && w.free <= v.free
  {
    if p + v.hdr[p].size == bp {
      assert Touch(v, p, bp);
      MergeOk(v, base, p, bp);
      forall a, b ensures !Touch(Merge(v, p, bp), a, b) {
        if Touch(Merge(v, p, bp), a, b) {
          MergeTouches(v, base, p, bp, a, b);
        }
      }
      assert Inside(v.hdr, bp, bp);
    } else {
      forall a, b ensures !Touch(v, a, b) {}
    }
  }

  /** Mentioned where the body of `HeapOk` is needed; elsewhere it stays out of the verifier's way. */
  ghost predicate Unfolded(k: nat) { true }

  /** The allocator's invariant once it has been initialised. */
  ghost predicate HeapOk(v: View, base: nat, brk: nat, freep: nat) {
    && freep in v.free && 0 !in v.free && (forall a :: a in v.free ==> a in v.hdr)
    && forall k {:trigger Unfolded(k)} :: Unfolded(k) ==> HeapBody(v, base, brk)
  }

  ghost predicate HeapBody(v: View, base: nat, brk: nat) {
    && 0 < base < brk
    && (forall u :: u in v.own || u in v.free ==> u < brk)
    && ListOk(v, base) && Coalesced(v)
  }

  ghost function Freed(v: View, p: nat, bp: nat): View
    requires p in v.hdr && bp in v.hdr && v.hdr[p].ptr in v.hdr && p != bp
  {
    MergedLeft(MergedRight(Insert(v, p, bp), bp), p, bp)
  }

  lemma {:induction false} FreedBody(v: View, base: nat, brk: nat, p: nat, bp: nat)
    requires HeapBody(v, base, brk) && Before(v, p, bp)
    ensures bp in v.hdr && bp in v.own && v.hdr[p].ptr in v.hdr && v.hdr[p].ptr != bp
    ensures v.hdr[p].ptr != p || bp + v.hdr[bp].size != p
    ensures var w := Freed(v, p, bp);
            && HeapBody(w, base, brk) && Holds(w, bp, v.live[bp]) && p in w.free
            && w.live == v.live - {bp} && w.own.Keys == v.own.Keys
  {
    FreedFits(v, base, p, bp);
    FreedList(v, base, p, bp);
  }

  lemma {:induction false} FreedFits(v: View, base: nat, p: nat, bp: nat)
    requires ListOk(v, base) && Before(v, p, bp)
    ensures bp in v.hdr && bp in v.own && v.hdr[p].ptr in v.hdr && v.hdr[p].ptr != bp
    ensures v.hdr[p].ptr != p || bp + v.hdr[bp].size != p
  {
    assert NextOk(v, base, p) && Inside(v.hdr, bp, bp);
  }

  lemma {:induction false} FreedList(v: View, base: nat, p: nat, bp: nat)
    requires ListOk(v, base) && Coalesced(v) && Before(v, p, bp) && bp in v.hdr && v.hdr[p].ptr in v.hdr
    ensures var w := Freed(v, p, bp);
            && ListOk(w, base) && Coalesced(w) && Holds(w, bp, v.live[bp]) && p in w.free
            && w.live == v.live - {bp} && w.own.Keys == v.own.Keys && w.free <= v.free + {bp}
  {
    RightPhase(v, base, p, bp);
    LeftPhase(MergedRight(Insert(v, p, bp), bp), base, p, bp, v.live[bp]);
  }

  lemma {:induction false} FreedOk(v: View, base: nat, brk: nat, freep: nat, p: nat, bp: nat)
    requires HeapOk(v, base, brk, freep) && Before(v, p, bp)
    ensures bp in v.hdr && bp in v.own && v.hdr[p].ptr in v.hdr && v.hdr[p].ptr != bp
    ensures v.hdr[p].ptr != p || bp + v.hdr[bp].size != p
    ensures HeapOk(Freed(v, p, bp), base, brk, p) && Holds(Freed(v, p, bp), bp, v.live[bp])
    ensures Freed(v, p, bp).live == v.live - {bp} && Freed(v, p, bp).own.Keys == v.own.Keys
  {
    assert Unfolded(0);
    FreedBody(v, base, brk, p, bp);
  }

  // ---------------------------------------------------------------------------
  // Taking a block

  ghost function TakenWhole(v: View, prev: nat, p: nat): View
    requires prev in v.hdr && p in v.hdr
  {
    v.(hdr := v.hdr[prev := Header(v.hdr[p].ptr, v.hdr[prev].size)],
    free := v.free - {p}, live := v.live[p := v.hdr[p].size])
  }

  /** The upper `n` units of `p` become a block of their own, whose header holds `junk` as pointer. */
  ghost function TakenTail(v: View, p: nat, n: nat, junk: nat): View
    requires p in v.hdr && 0 < n < v.hdr[p].size
  {
    var r := p + v.hdr[p].size - n;
    v.(hdr := v.hdr[p := Header(v.hdr[p].ptr, v.hdr[p].size - n)][r := Header(junk, n)],
    live := v.live[r := n],
    own := map u | u in v.own :: if r <= u < r + n then r else v.own[u])
  }

  lemma {:induction false} TakenWholeOk(v: View, base: nat, brk: nat, prev: nat, p: nat)
    requires HeapBody(v, base, brk) && prev in v.free && v.hdr[prev].ptr == p && p != base
    ensures p in v.free && prev != p && HeapBody(TakenWhole(v, prev, p), base, brk) && p !in v.live
  {
    assert NextOk(v, base, prev) && NextOk(v, base, p);
    TakenWholeLinked(v, base, prev, p);
    TakenWholeOwned(v, base, prev, p);
    var w := TakenWhole(v, prev, p);
    forall a, b ensures !Touch(w, a, b) { assert !Touch(v, a, b); }
  }

  lemma {:induction false} TakenWholeLinked(v: View, base: nat, prev: nat, p: nat)
    requires Linked(v, base) && Apart(v, base) && prev in v.free && v.hdr[prev].ptr == p && p in v.free && p != base && p != prev
    ensures Linked(TakenWhole(v, prev, p), base) && Apart(TakenWhole(v, prev, p), base)
  {
    var w := TakenWhole(v, prev, p);
    forall a ensures NextOk(w, base, a) { assert NextOk(v, base, a) && NextOk(v, base, prev) && NextOk(v, base, p); }
  }

  lemma {:induction false} TakenWholeOwned(v: View, base: nat, prev: nat, p: nat)
    requires Owned(v, base) && prev in v.hdr && p in v.free && p in v.hdr && v.hdr[p].size > 0 && p != prev
    ensures Owned(TakenWhole(v, prev, p), base) && p !in v.live
  {
    var w := TakenWhole(v, prev, p);
    forall u: nat, a: nat ensures Inside(w.hdr, a, u) == Inside(v.hdr, a, u) {}
  }

  lemma {:induction false} TakenTailOk(v: View, base: nat, brk: nat, p: nat, n: nat, junk: nat)
    requires HeapBody(v, base, brk) && p in v.free && 0 < n < v.hdr[p].size
    ensures HeapBody(TakenTail(v, p, n, junk), base, brk)
    ensures p + v.hdr[p].size - n !in v.live
  {
    TakenTailFresh(v, base, p, n);
    TakenTailLinked(v, base, p, n, junk);
    TakenTailOwned(v, base, p, n, junk);
  }

  /** `n` units taken from the free block `p`, which `prev` points to. */
  ghost function Taken(v: View, prev: nat, p: nat, n: nat, junk: nat): View
    requires prev in v.hdr && p in v.hdr && 0 < n <= v.hdr[p].size
  {
    if v.hdr[p].size == n then TakenWhole(v, prev, p) else TakenTail(v, p, n, junk)
  }

  lemma {:induction false} TakenShape(v: View, prev: nat, p: nat, n: nat, junk: nat)
    requires prev in v.hdr && p in v.hdr && 0 < n <= v.hdr[p].size
    ensures Taken(v, prev, p, n, junk).live == v.live[p + v.hdr[p].size - n := n]
    ensures Taken(v, prev, p, n, junk).own.Keys == v.own.Keys
  {
  }

  lemma {:induction false} TakenOk(v: View, base: nat, brk: nat, prev: nat, p: nat, n: nat, junk: nat)
    requires HeapOk(v, base, brk, prev) && v.hdr[prev].ptr == p && p in v.free && 0 < n <= v.hdr[p].size
    ensures HeapOk(Taken(v, prev, p, n, junk), base, brk, prev)
    ensures p + v.hdr[p].size - n !in v.live
  {
    assert Unfolded(0);
    if v.hdr[p].size == n {
      TakenWholeOk(v, base, brk, prev, p);
    } else {
      TakenTailOk(v, base, brk, p, n, junk);
    }
  }

  lemma {:induction false} TakenTailFresh(v: View, base: nat, p: nat, n: nat)
    requires ListOk(v, base) && p in v.free && 0 < n < v.hdr[p].size
    ensures p + v.hdr[p].size - n !in v.live && p + v.hdr[p].size - n !in v.free
  {
    var r := p + v.hdr[p].size - n;
    assert Inside(v.hdr, p, r);
    assert r in v.live ==> Inside(v.hdr, r, r);
  }

  lemma {:induction false} TakenTailLinked(v: View, base: nat, p: nat, n: nat, junk: nat)
    requires ListOk(v, base) && Coalesced(v) && p in v.free && 0 < n < v.hdr[p].size
    requires p + v.hdr[p].size - n !in v.free
    ensures var w := TakenTail(v, p, n, junk); Linked(w, base) && Apart(w, base) && Coalesced(w)
  {
    var w := TakenTail(v, p, n, junk);
    forall a ensures NextOk(w, base, a) { assert NextOk(v, base, a); }
    TakenTailApart(v, base, p, n, junk);
  }

  lemma {:induction false} TakenTailApart(v: View, base: nat, p: nat, n: nat, junk: nat)
    requires Apart(v, base) && Coalesced(v) && p in v.free && p in v.hdr && 0 < n < v.hdr[p].size && p + v.hdr[p].size - n !in v.free
    ensures var w := TakenTail(v, p, n, junk); Apart(w, base) && Coalesced(w)
  {
    var w := TakenTail(v, p, n, junk);
    forall a, b ensures !Touch(w, a, b) { assert !Touch(v, a, b); }
  }

  lemma {:induction false} TakenTailOwned(v: View, base: nat, p: nat, n: nat, junk: nat)
    requires ListOk(v, base) && p in v.free && 0 < n < v.hdr[p].size
    requires p + v.hdr[p].size - n !in v.live && p + v.hdr[p].size - n !in v.free
    ensures Owned(TakenTail(v, p, n, junk), base)
  {
    TakenTailUnits(v, base, p, n, junk);
    TakenTailBlocks(v, base, p, n, junk);
  }

  lemma {:induction false} TakenTailUnits(v: View, base: nat, p: nat, n: nat, junk: nat)
    requires Owned(v, base) && p in v.free && p in v.hdr && 0 < n < v.hdr[p].size
    requires p + v.hdr[p].size - n !in v.live && p + v.hdr[p].size - n !in v.free
    ensures UnitsOwned(TakenTail(v, p, n, junk), base)
  {
    var w := TakenTail(v, p, n, junk);
    forall u: nat | u in w.own
      ensures base < u && Inside(w.hdr, w.own[u], u) && (w.own[u] in w.live || w.own[u] in w.free)
    {
      assert Inside(v.hdr, v.own[u], u);
      assert Inside(v.hdr, p, u) <==> v.own[u] == p;
    }
  }

  lemma {:induction false} TakenTailBlocks(v: View, base: nat, p: nat, n: nat, junk: nat)
    requires Owned(v, base) && p in v.free && p in v.hdr && 0 < n < v.hdr[p].size
    requires p + v.hdr[p].size - n !in v.live && p + v.hdr[p].size - n !in v.free
    ensures BlocksOwn(TakenTail(v, p, n, junk))
  {
    var w := TakenTail(v, p, n, junk);
    var r := p + v.hdr[p].size - n;
    forall c: nat, u: nat | (c in w.live || c in w.free) && Inside(w.hdr, c, u)
      ensures u in w.own && w.own[u] == c
    {
      assert c == r ==> Inside(v.hdr, p, u);
      assert c != r ==> Inside(v.hdr, c, u);
      assert c != r && c != p ==> !Inside(v.hdr, p, u);
    }
  }

  // ---------------------------------------------------------------------------
  // Obtaining core

  ghost predicate InChunk(hp: nat, n: nat, u: nat) {
    hp <= u < hp + n
  }

  ghost function Chunk(hp: nat, n: nat): set<nat> {
    set u: nat | hp <= u < hp + n && InChunk(hp, n, u)
  }

  /** The memory after the system handed out `n` units at `hp`, not yet freed. */
  ghost function Grown(v: View, hp: nat, n: nat, junk: nat): View {
    v.(hdr := v.hdr[hp := Header(junk, n)], live := v.live[hp := n],
    own := v.own + (map u | u in Chunk(hp, n) :: hp))
  }

  lemma {:induction false} GrownOk(v: View, base: nat, brk: nat, freep: nat, hp: nat, n: nat, junk: nat)
    requires HeapOk(v, base, brk, freep) && brk <= hp && 0 < n
    ensures HeapOk(Grown(v, hp, n, junk), base, hp + n, freep)
    ensures hp !in v.live && Grown(v, hp, n, junk).own.Keys == v.own.Keys + Chunk(hp, n)
  {
    assert Unfolded(0);
    GrownBody(v, base, brk, hp, n, junk);
  }

  lemma {:induction false} GrownBody(v: View, base: nat, brk: nat, hp: nat, n: nat, junk: nat)
    requires HeapBody(v, base, brk) && brk <= hp && 0 < n
    ensures HeapBody(Grown(v, hp, n, junk), base, hp + n) && hp !in v.live
  {
    var w := Grown(v, hp, n, junk);
    assert hp !in v.live by { assert hp in v.live ==> Inside(v.hdr, hp, hp); }
    forall a ensures NextOk(w, base, a) { assert NextOk(v, base, a); }
    forall a, b ensures !Touch(w, a, b) { assert !Touch(v, a, b); }
    GrownOwned(v, base, brk, hp, n, junk);
  }

  lemma {:induction false} GrownOwned(v: View, base: nat, brk: nat, hp: nat, n: nat, junk: nat)
    requires HeapBody(v, base, brk) && brk <= hp && 0 < n && hp !in v.live
    ensures Owned(Grown(v, hp, n, junk), base)
  {
    GrownUnits(v, base, brk, hp, n, junk);
    GrownBlocks(v, base, brk, hp, n, junk);
  }

  lemma {:induction false} GrownUnits(v: View, base: nat, brk: nat, hp: nat, n: nat, junk: nat)
    requires Owned(v, base) && (forall u :: u in v.own ==> u < brk) && base < brk <= hp && 0 < n
    ensures UnitsOwned(Grown(v, hp, n, junk), base)
  {
    var w := Grown(v, hp, n, junk);
    forall u: nat | u in w.own ensures base < u && Inside(w.hdr, w.own[u], u) && (w.own[u] in w.live || w.own[u] in w.free) {
      if u in v.own { assert Inside(v.hdr, v.own[u], u); }
    }
  }

  lemma {:induction false} GrownBlocks(v: View, base: nat, brk: nat, hp: nat, n: nat, junk: nat)
    requires Owned(v, base) && (forall u :: u in v.own || u in v.free ==> u < brk) && base < brk <= hp && 0 < n && hp !in v.live
    ensures BlocksOwn(Grown(v, hp, n, junk)) && LiveOk(Grown(v, hp, n, junk))
  {
    var w := Grown(v, hp, n, junk);
    forall a: nat, u: nat | (a in w.live || a in w.free) && Inside(w.hdr, a, u) ensures u in w.own && w.own[u] == a {
      if a == hp { assert InChunk(hp, n, u); } else { assert Inside(v.hdr, a, u) && u < brk; }
    }
  }

  /** A scan that started behind `f` and is about to look at `p` has passed `a`. */
  ghost predicate Passed(f: nat, p: nat, a: nat) {
    if f < p then f < a < p else f < a || a < p
  }

  /** Every free block the scan has passed is too small. */
  ghost predicate Scanned(v: View, f: nat, p: nat, n: nat) {
    forall a :: a in v.free && a in v.hdr && Passed(f, p, a) ==> v.hdr[a].size < n
  }

  ghost predicate TooSmall(v: View, n: nat) {
    forall a :: a in v.free && a in v.hdr ==> v.hdr[a].size < n
  }

  lemma {:induction false} ScanStarts(v: View, base: nat, brk: nat, f: nat, n: nat)
    requires HeapOk(v, base, brk, f)
    ensures v.hdr[f].ptr in v.free && Scanned(v, f, v.hdr[f].ptr, n)
  {
    assert Unfolded(0) && NextOk(v, base, f);
  }

  lemma {:induction false} ScanAdvances(v: View, base: nat, brk: nat, f: nat, p: nat, n: nat)
    requires HeapOk(v, base, brk, f) && p in v.free && p != f && Scanned(v, f, p, n) && v.hdr[p].size < n
    ensures var q := v.hdr[p].ptr; q in v.free && Scanned(v, f, q, n)
                                   && (f < p < q < brk || q <= f < p < brk || p < q <= f)
  {
    assert Unfolded(0) && NextOk(v, base, p);
  }

  // ---------------------------------------------------------------------------
  // The allocator

  /** The number of units `malloc` looks for, header included. */
  function Units(nbytes: nat): (n: nat)
    ensures n >= 1 && nbytes <= (n - 1) * HEADER_BYTES < nbytes + HEADER_BYTES
  {
    (nbytes + HEADER_BYTES - 1) / HEADER_BYTES + 1
  }

  /** The units `morecore` asks for. */
  function CoreUnits(nu: nat): nat {
    if nu < MIN_CORE then MIN_CORE else nu
  }

  /** The argument `sbrk(int)` receives for `nu` units: the 64-bit product, truncated to 32 bits. */
  function SbrkArgument(nu: nat): int {
    var low := nu * HEADER_BYTES % (2 * INT_LIMIT);
    if low < INT_LIMIT then low else low - 2 * INT_LIMIT
  }

  const MAX_REQUEST := INT_LIMIT - 2 * HEADER_BYTES

  /** `sbrk` is asked for what `morecore` means exactly up to `MAX_REQUEST` bytes; beyond that it
      is at most 16, and for the smallest such request `-INT_LIMIT`, which would shrink the process. */
  lemma {:induction false} SbrkArgumentExact(nbytes: nat)
    requires nbytes < 2 * INT_LIMIT
    ensures SbrkArgument(CoreUnits(Units(nbytes))) == CoreUnits(Units(nbytes)) * HEADER_BYTES <==> nbytes <= MAX_REQUEST
    ensures nbytes > MAX_REQUEST ==> SbrkArgument(CoreUnits(Units(nbytes))) <= 16
  {
  }

  class Heap {
    const base: nat
    var freep: nat
    var hdr: Memory
    var brk: nat
    ghost var v: View

    ghost predicate Valid()
      reads this
    {
      && 0 < base < brk && v.hdr == hdr
      && (if freep == 0 then v.live == map[] && v.own == map[] else HeapOk(v, base, brk, freep))
    }

    constructor (base: nat, brk: nat)
      requires 0 < base < brk
      ensures Valid() && freep == 0 && this.base == base
    {
      this.base, this.brk := base, brk;
      freep, hdr, v := 0, map[], View(map[], {}, map[], map[]);
    }

    /** The search loop of `free`. */
    method FindBefore(bp: nat) returns (p: nat)
      requires Valid() && freep != 0 && bp in v.live
      ensures Before(v, p, bp)
    {
      p := freep;
      while !(bp > p && bp < hdr[p].ptr)
        invariant p in v.free
        decreases if p < bp then 0 else 1, if p < bp then bp - p else brk - p
      {
        assert Unfolded(0) && NextOk(v, base, p) && Inside(hdr, bp, bp);
        if p >= hdr[p].ptr && (bp > p || bp < hdr[p].ptr) {
          break;
        }
        p := hdr[p].ptr;
      }
    }

    /** The relinking part of `free`: link `bp` behind `p` and merge it with what it touches. */
    method Relink(p: nat, bp: nat)
      requires v.hdr == hdr
      requires p in hdr && bp in hdr && hdr[p].ptr in hdr && p != bp && hdr[p].ptr != bp
      requires hdr[p].ptr != p || bp + hdr[bp].size != p
      modifies this`hdr
      ensures hdr == Freed(v, p, bp).hdr
    {
      if bp + hdr[bp].size == hdr[p].ptr {
        hdr := hdr[bp := Header(hdr[hdr[p].ptr].ptr, hdr[bp].size + hdr[hdr[p].ptr].size)];
      } else {
        hdr := hdr[bp := Header(hdr[p].ptr, hdr[bp].size)];
      }
      if p + hdr[p].size == bp {
        hdr := hdr[p := Header(hdr[bp].ptr, hdr[p].size + hdr[bp].size)];
      } else {
        hdr := hdr[p := Header(bp, hdr[p].size)];
      }
    }

    /** `free`, on the header address `bp`. */
    method Free(bp: nat)
      requires Valid() && freep != 0 && bp in v.live
      modifies this`freep, this`hdr, this`v
      ensures Valid() && freep != 0
      ensures v.live == old(v.live) - {bp} && v.own.Keys == old(v.own.Keys)
      ensures Holds(v, bp, old(v.live[bp]))
    {
      var p := FindBefore(bp);
      FreedOk(v, base, brk, freep, p, bp);
      Relink(p, bp);
      v := Freed(v, p, bp);
      freep := p;
    }
  
    function Junk(a: nat): nat
      reads this
    {
      if a in hdr then hdr[a].ptr else 0
    }

    /** `morecore`; `core` is what `sbrk` answers. */
    method Morecore(nu: nat, core: Option<nat>) returns (r: nat)
      requires Valid() && freep != 0 && 0 < nu && (core.Some? ==> brk <= core.value)
      modifies this`freep, this`hdr, this`v, this`brk
      ensures Valid() && freep != 0 && v.live == old(v.live)
      ensures core.None? ==> r == 0 && v == old(v) && freep == old(freep)
      ensures core.Some? ==> r == freep && !TooSmall(v, nu)
      ensures core.Some? ==> v.own.Keys == old(v.own.Keys) + Chunk(core.value, CoreUnits(nu))
    {
      var n := CoreUnits(nu);
      if core.None? {
        return 0;
      }
      var hp := core.value;
      GrownOk(v, base, brk, freep, hp, n, Junk(hp));
      v := Grown(v, hp, n, Junk(hp));
      hdr := hdr[hp := Header(Junk(hp), n)];
      brk := hp + n;
      Free(hp);
      r := freep;
    }

    /** Cut `n` units off the free block `p`, which `prev` points to. */
    method Cut(prev: nat, p: nat, n: nat) returns (r: nat)
      requires v.hdr == hdr && prev in hdr && p in hdr && 0 < n <= hdr[p].size
      modifies this`hdr
      ensures r == p + old(hdr[p].size) - n
      ensures hdr == Taken(v, prev, p, n, old(Junk(p + hdr[p].size - n))).hdr
    {
      r := p + hdr[p].size - n;
      if hdr[p].size == n {
        hdr := hdr[prev := Header(hdr[p].ptr, hdr[prev].size)];
      } else {
        hdr := hdr[p := Header(hdr[p].ptr, hdr[p].size - n)];
        hdr := hdr[r := Header(Junk(r), n)];
      }
    }

    /** Allocate `n` units from the free block `p`, which `prev` points to. */
    method Take(prev: nat, p: nat, n: nat) returns (r: nat)
      requires Valid() && freep != 0 && prev in v.free && v.hdr[prev].ptr == p && p in v.free && 0 < n <= v.hdr[p].size
      modifies this`freep, this`hdr, this`v
      ensures Valid() && freep == prev
      ensures r !in old(v.live) && v.live == old(v.live)[r := n] && v.own.Keys == old(v.own.Keys)
    {
      ghost var was, junk := v, Junk(p + hdr[p].size - n);
      r := Cut(prev, p, n);
      v := Taken(was, prev, p, n, junk);
      freep := prev;
      assert HeapOk(was, base, brk, prev);
      TakenOk(was, base, brk, prev, p, n, junk);
      TakenShape(was, prev, p, n, junk);
    }

    method Initialise()
      requires Valid() && freep == 0
      modifies this`freep, this`hdr, this`v
      ensures Valid() && freep != 0 && v.live == old(v.live) && v.own == old(v.own)
    {
      hdr := hdr[base := Header(base, 0)];
      freep := base;
      v := View(hdr, {base}, map[], map[]);
      assert NextOk(v, base, base);
    }

    /** `malloc`; `core` is what `sbrk` answers if it is asked.  The result is the address behind
        the block's header, or null. */
    method Malloc(nbytes: nat, core: Option<nat>) returns (r: nat)
      requires Valid() && nbytes <= MAX_REQUEST && (core.Some? ==> brk <= core.value)
      modifies this`freep, this`hdr, this`v, this`brk
      ensures Valid()
      ensures r == 0 ==> core.None? && v.live == old(v.live) && TooSmall(v, Units(nbytes))
      ensures r != 0 ==> r - 1 !in old(v.live) && v.live == old(v.live)[r - 1 := Units(nbytes)]
      ensures v.own.Keys == old(v.own.Keys)
              || (core.Some? && v.own.Keys == old(v.own.Keys) + Chunk(core.value, CoreUnits(Units(nbytes))))
    {
      var n := Units(nbytes);
      if freep == 0 {
        Initialise();
      }
      var prevp := freep;
      var p := hdr[prevp].ptr;
      var grown := false;
      ScanStarts(v, base, brk, freep, n);
      while true
        invariant Valid() && freep != 0 && prevp in v.free && v.hdr[prevp].ptr == p && p in v.free
        invariant v.live == old(v.live) && Scanned(v, freep, p, n)
        invariant grown ==> !TooSmall(v, n) && core.Some?
        invariant !grown ==> (core.Some? ==> brk <= core.value) && v.own.Keys == old(v.own.Keys)
        invariant grown ==> v.own.Keys == old(v.own.Keys) + Chunk(core.value, CoreUnits(n))
        decreases if grown then 0 else 1, if freep < p then 1 else 0, if freep < p then brk - p else freep - p
      {
        if hdr[p].size >= n {
          r := Take(prevp, p, n);
          return r + 1;
        }
        if p == freep {
          assert TooSmall(v, n);
          p := Morecore(n, core);
          if p == 0 {
            return 0;
          }
          grown := true;
          ScanStarts(v, base, brk, p, n);
        } else {
          ScanAdvances(v, base, brk, freep, p, n);
        }
        prevp := p;
        p := hdr[p].ptr;
      }
    }
  }
}
