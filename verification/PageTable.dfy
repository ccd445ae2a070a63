/** Three-level page tables and the page allocator (kernel/vm.c, kernel/kalloc.c).

Physical addresses are page numbers where the code only ever uses page-aligned ones.  `tab` is the
memory of page-table pages, `free` the allocator's list.  `at` and `pos` say which page is the table
at each position of each tree, `role` what each page is used for. */
module PageTable {
  import opened Options
  import opened Sets

  const PGSIZE := 4096
  const ENTRIES := 512
  const PTE_V := 1
  const PTE_R := 2
  const PTE_W := 4
  const PTE_X := 8
  const PTE_U := 16
  /** One beyond the highest virtual page number, and the first of the two pages below it. */
  const MAXVPN := 0x400_0000
  const TRAPFRAME := MAXVPN - 2

  // ---------------------------------------------------------------------------
  // Page-table entries

  function PA2PTE(pa: nat): nat { pa / PGSIZE * 1024 }

  function PTE2PA(pte: nat): nat { pte / 1024 * PGSIZE }

  function PteFlags(pte: nat): nat { pte % 1024 }

  predicate Valid(pte: nat) { pte % 2 == 1 }

  /** Some of read, write and execute is set. */
  predicate Leaf(pte: nat) { pte / 2 % 8 != 0 }

  predicate UserPte(pte: nat) { pte / PTE_U % 2 == 1 }

  /** A page-aligned address survives the trip through an entry, whatever flags are added. */
  lemma {:induction false} PteRoundTrip(pa: nat, flags: nat)
    requires pa % PGSIZE == 0 && flags < 1024
    ensures PTE2PA(PA2PTE(pa) + flags) == pa && PteFlags(PA2PTE(pa) + flags) == flags
  {
  }

  function Ppn(pte: nat): nat { pte / 1024 }

  function MakePte(ppn: nat, flags: nat): nat { ppn * 1024 + flags }

  lemma {:induction false} MakePteParts(ppn: nat, flags: nat)
    requires flags < 1024
    ensures Ppn(MakePte(ppn, flags)) == ppn && PteFlags(MakePte(ppn, flags)) == flags
    ensures Valid(MakePte(ppn, flags)) <==> flags % 2 == 1
  {
  }

  /** The index `PX(level, va)` for the page number of `va`. */
  function PX(level: nat, vpn: nat): (i: nat)
    requires level <= 2
    ensures i < ENTRIES
  {
    if level == 0 then vpn % ENTRIES else if level == 1 then vpn / ENTRIES % ENTRIES else vpn / (ENTRIES * ENTRIES) % ENTRIES
  }

  // ---------------------------------------------------------------------------
  // Trees of tables

  /** A table of the tree at `root`: `prefix` are the index bits that lead to it. */
  datatype Pos = Pos(root: nat, level: nat, prefix: nat)

  datatype Role = FreePage | TablePage | UserPage(root: nat, vpn: nat) | KernelPage

  type Table = t: seq<nat> | |t| == ENTRIES witness seq(ENTRIES, _ => 0)

  datatype State = State(tab: map<nat, Table>, free: seq<nat>, pos: map<nat, Pos>, at: map<Pos, nat>, role: map<nat, Role>)

  function Root(root: nat): Pos { Pos(root, 2, 0) }

  function Child(x: Pos, i: nat): Pos
    requires x.level > 0
  {
    Pos(x.root, x.level - 1, x.prefix * ENTRIES + i)
  }

  function Parent(x: Pos): Pos { Pos(x.root, x.level + 1, x.prefix / ENTRIES) }

  /** The position of the table that a walk for `vpn` meets at `level`. */
  function On(root: nat, level: nat, vpn: nat): Pos
    requires level <= 2
  {
    Pos(root, level, if level == 0 then vpn / ENTRIES else if level == 1 then vpn / (ENTRIES * ENTRIES) else vpn / (ENTRIES * ENTRIES * ENTRIES))
  }

  ghost predicate PageOk(s: State, p: nat) {
    p in s.tab ==> p in s.pos && s.pos[p] in s.at && s.at[s.pos[p]] == p
  }

  ghost predicate PosOk(s: State, x: Pos) {
    x in s.at ==>
      && s.at[x] in s.tab && s.at[x] in s.pos && s.pos[s.at[x]] == x && x.level <= 2
      && (x.level == 2 ==> x == Root(s.at[x]))
      && (x.level < 2 ==> Parent(x) in s.at)
  }

  /** An upper-level entry is zero or points to the table at its position. */
  ghost predicate EntryOk(s: State, x: Pos, i: nat) {
    x in s.at && s.at[x] in s.tab && 0 < x.level && i < ENTRIES ==>
      s.tab[s.at[x]][i] == if Child(x, i) in s.at then MakePte(s.at[Child(x, i)], PTE_V) else 0
  }

  ghost predicate Tree(s: State) {
    && (forall p {:trigger PageOk(s, p)} :: PageOk(s, p))
    && (forall x {:trigger PosOk(s, x)} :: PosOk(s, x))
    && (forall x, i {:trigger EntryOk(s, x, i)} :: EntryOk(s, x, i))
  }

  /** The entry for `vpn` in the tree at `root`; 0 if a table on the way is missing.  This is the
      partial map that the tree represents. */
  ghost function Pte(s: State, root: nat, vpn: nat): nat {
    if On(root, 0, vpn) in s.at && s.at[On(root, 0, vpn)] in s.tab then s.tab[s.at[On(root, 0, vpn)]][vpn % ENTRIES] else 0
  }

  // ---------------------------------------------------------------------------
  // Adding a table, storing a leaf

  function ZeroTable(): Table { seq(ENTRIES, _ => 0) }

  lemma {:induction false} ParentOfChild(x: Pos, i: nat)
    requires 0 < x.level && i < ENTRIES
    ensures Parent(Child(x, i)) == x
  {
  }

  /** Page `p` becomes the empty table behind entry `i` of `x`. */
  ghost function Link(s: State, x: Pos, i: nat, p: nat): State
    requires x in s.at && s.at[x] in s.tab && 0 < x.level && i < ENTRIES
  {
    var t := s.at[x];
    s.(tab := s.tab[p := ZeroTable()][t := s.tab[t][i := MakePte(p, PTE_V)]],
    pos := s.pos[p := Child(x, i)], at := s.at[Child(x, i) := p], role := s.role[p := TablePage])
  }

  lemma {:induction false} LinkTree(s: State, x: Pos, i: nat, p: nat)
    requires Tree(s) && x in s.at && s.at[x] in s.tab && 0 < x.level && i < ENTRIES && Child(x, i) !in s.at && p !in s.tab
    ensures Tree(Link(s, x, i, p))
  {
    var s' := Link(s, x, i, p);
    assert PosOk(s, x);
    ParentOfChild(x, i);
    forall q ensures PageOk(s', q) { assert PageOk(s, q); }
    forall y ensures PosOk(s', y) { assert PosOk(s, y); }
    forall y: Pos, j: nat ensures EntryOk(s', y, j) {
      assert EntryOk(s, y, j) && PosOk(s, y);
      if y == Child(x, i) && 0 < y.level && j < ENTRIES {
        ParentOfChild(y, j);
        assert PosOk(s, Child(y, j));
      }
    }
  }

  /** A new table is empty, so no mapping changes. */
  lemma {:induction false} LinkPte(s: State, x: Pos, i: nat, p: nat, root: nat, vpn: nat)
    requires Tree(s) && x in s.at && s.at[x] in s.tab && 0 < x.level && i < ENTRIES && Child(x, i) !in s.at && p !in s.tab
    ensures Pte(Link(s, x, i, p), root, vpn) == Pte(s, root, vpn)
  {
    assert PosOk(s, x) && PosOk(s, On(root, 0, vpn));
  }

  /** Entry `i` of the bottom table at `x` becomes `pte`. */
  ghost function SetLeaf(s: State, x: Pos, i: nat, pte: nat): State
    requires x in s.at && s.at[x] in s.tab && i < ENTRIES
  {
    s.(tab := s.tab[s.at[x] := s.tab[s.at[x]][i := pte]])
  }

  lemma {:induction false} SetLeafTree(s: State, x: Pos, i: nat, pte: nat)
    requires Tree(s) && x in s.at && s.at[x] in s.tab && x.level == 0 && i < ENTRIES
    ensures Tree(SetLeaf(s, x, i, pte))
  {
    var s' := SetLeaf(s, x, i, pte);
    assert PosOk(s, x);
    forall q ensures PageOk(s', q) { assert PageOk(s, q); }
    forall y ensures PosOk(s', y) { assert PosOk(s, y); }
    forall y: Pos, j: nat ensures EntryOk(s', y, j) { assert EntryOk(s, y, j) && PosOk(s, y); }
  }

  /** Distinct page numbers have distinct entries: a store changes one mapping only. */
  lemma {:induction false} SetLeafPte(s: State, root: nat, vpn: nat, pte: nat, r: nat, v: nat)
    requires Tree(s) && On(root, 0, vpn) in s.at && s.at[On(root, 0, vpn)] in s.tab
    ensures Pte(SetLeaf(s, On(root, 0, vpn), vpn % ENTRIES, pte), r, v) == if r == root && v == vpn then pte else Pte(s, r, v)
  {
    assert PosOk(s, On(root, 0, vpn)) && PosOk(s, On(r, 0, v));
    assert v == v / ENTRIES * ENTRIES + v % ENTRIES && vpn == vpn / ENTRIES * ENTRIES + vpn % ENTRIES;
  }

  // ---------------------------------------------------------------------------
  // What each page is used for

  ghost predicate RoleOk(s: State, p: nat) {
    && (p in s.free <==> p in s.role && s.role[p] == FreePage)
    && (p in s.tab <==> p in s.role && s.role[p] == TablePage)
    && (p in s.role && s.role[p].UserPage? ==>
          var r := s.role[p];
          r.vpn < TRAPFRAME && Valid(Pte(s, r.root, r.vpn)) && Ppn(Pte(s, r.root, r.vpn)) == p)
  }

  ghost predicate LeafOk(s: State, root: nat, vpn: nat) {
    && (!Valid(Pte(s, root, vpn)) ==> Pte(s, root, vpn) == 0)
    && (vpn < TRAPFRAME && Valid(Pte(s, root, vpn)) ==>
          Ppn(Pte(s, root, vpn)) in s.role && s.role[Ppn(Pte(s, root, vpn))] == UserPage(root, vpn))
  }

  /** `role` is a function, so the pages of the allocator are divided among the free list, tables,
      user memory and the rest of the kernel; user memory is exactly what trees map below the
      trap frame, each page once. */
  ghost predicate MemOk(s: State) {
    && Tree(s) && 0 !in s.role
    && (forall i, j :: 0 <= i < j < |s.free| ==> s.free[i] != s.free[j])
    && (forall p {:trigger RoleOk(s, p)} :: RoleOk(s, p))
    && (forall r, v {:trigger LeafOk(s, r, v)} :: LeafOk(s, r, v))
  }

  ghost function Popped(s: State): State
    requires s.free != []
  {
    s.(free := s.free[1..], role := s.role[s.free[0] := KernelPage])
  }

  ghost function Pushed(s: State, p: nat): State {
    s.(free := [p] + s.free, role := s.role[p := FreePage])
  }

  lemma {:induction false} SameTree(s: State, s': State)
    requires Tree(s) && s'.tab == s.tab && s'.pos == s.pos && s'.at == s.at
    ensures Tree(s')
  {
    forall q ensures PageOk(s', q) { assert PageOk(s, q); }
    forall y ensures PosOk(s', y) { assert PosOk(s, y); }
    forall y: Pos, j: nat ensures EntryOk(s', y, j) { assert EntryOk(s, y, j); }
  }

  lemma {:induction false} PoppedOk(s: State)
    requires MemOk(s) && s.free != []
    ensures MemOk(Popped(s)) && s.free[0] in s.role && s.free[0] !in s.tab
  {
    var s', p := Popped(s), s.free[0];
    SameTree(s, s');
    assert RoleOk(s, p);
    forall q ensures RoleOk(s', q) {
      assert RoleOk(s, q);
      assert s.free == [p] + s'.free;
    }
    forall r, v ensures LeafOk(s', r, v) { assert LeafOk(s, r, v); }
  }

  lemma {:induction false} PushedOk(s: State, p: nat)
    requires MemOk(s) && p in s.role && s.role[p] == KernelPage
    ensures MemOk(Pushed(s, p))
  {
    var s' := Pushed(s, p);
    SameTree(s, s');
    assert RoleOk(s, p);
    forall q ensures RoleOk(s', q) { assert RoleOk(s, q); }
    forall r, v ensures LeafOk(s', r, v) { assert LeafOk(s, r, v); }
  }

  lemma {:induction false} LinkOk(s: State, x: Pos, i: nat, p: nat)
    requires MemOk(s) && x in s.at && s.at[x] in s.tab && 0 < x.level && i < ENTRIES && Child(x, i) !in s.at
    requires p in s.role && s.role[p] == KernelPage
    ensures p !in s.tab && MemOk(Link(s, x, i, p))
  {
    assert RoleOk(s, p);
    var s' := Link(s, x, i, p);
    LinkTree(s, x, i, p);
    forall q ensures RoleOk(s', q) {
      assert RoleOk(s, q);
      if q in s.role && s.role[q].UserPage? { LinkPte(s, x, i, p, s.role[q].root, s.role[q].vpn); }
    }
    forall r, v ensures LeafOk(s', r, v) {
      assert LeafOk(s, r, v);
      LinkPte(s, x, i, p, r, v);
    }
  }

  /** The table for `vpn` exists. */
  ghost predicate Reaches(s: State, root: nat, vpn: nat) {
    On(root, 0, vpn) in s.at && s.at[On(root, 0, vpn)] in s.tab
  }

  /** The entry of `vpn` becomes `pte`; page `p` changes its role. */
  ghost function Assign(s: State, root: nat, vpn: nat, pte: nat, p: nat, role: Role): State
    requires Reaches(s, root, vpn)
  {
    SetLeaf(s, On(root, 0, vpn), vpn % ENTRIES, pte).(role := s.role[p := role])
  }

  lemma {:induction false} AssignPte(s: State, root: nat, vpn: nat, pte: nat, p: nat, role: Role, r: nat, v: nat)
    requires Tree(s) && Reaches(s, root, vpn)
    ensures Tree(Assign(s, root, vpn, pte, p, role))
    ensures Pte(Assign(s, root, vpn, pte, p, role), r, v) == if r == root && v == vpn then pte else Pte(s, r, v)
  {
    var s' := SetLeaf(s, On(root, 0, vpn), vpn % ENTRIES, pte);
    SetLeafTree(s, On(root, 0, vpn), vpn % ENTRIES, pte);
    SetLeafPte(s, root, vpn, pte, r, v);
    SameTree(s', Assign(s, root, vpn, pte, p, role));
  }

  /** Mapping a page the kernel holds into user memory. */
  lemma {:induction false} MapUserOk(s: State, root: nat, vpn: nat, p: nat, flags: nat)
    requires MemOk(s) && Reaches(s, root, vpn) && vpn < TRAPFRAME && !Valid(Pte(s, root, vpn))
    requires p in s.role && s.role[p] == KernelPage && flags < 1024 && flags % 2 == 1
    ensures MemOk(Assign(s, root, vpn, MakePte(p, flags), p, UserPage(root, vpn)))
  {
    var pte := MakePte(p, flags);
    MakePteParts(p, flags);
    var s' := Assign(s, root, vpn, pte, p, UserPage(root, vpn));
    AssignPte(s, root, vpn, pte, p, UserPage(root, vpn), root, vpn);
    forall q ensures RoleOk(s', q) {
      assert RoleOk(s, q) && RoleOk(s, p);
      if q in s.role && s.role[q].UserPage? { AssignPte(s, root, vpn, pte, p, UserPage(root, vpn), s.role[q].root, s.role[q].vpn); }
    }
    forall r, v ensures LeafOk(s', r, v) {
      assert LeafOk(s, r, v);
      AssignPte(s, root, vpn, pte, p, UserPage(root, vpn), r, v);
    }
  }

  /** Unmapping a user page hands it back to the kernel. */
  lemma {:induction false} UnmapUserOk(s: State, root: nat, vpn: nat)
    requires MemOk(s) && Reaches(s, root, vpn) && vpn < TRAPFRAME && Valid(Pte(s, root, vpn))
    ensures var p := Ppn(Pte(s, root, vpn));
            p in s.role && s.role[p] == UserPage(root, vpn) && MemOk(Assign(s, root, vpn, 0, p, KernelPage))
  {
    var p := Ppn(Pte(s, root, vpn));
    assert LeafOk(s, root, vpn);
    var s' := Assign(s, root, vpn, 0, p, KernelPage);
    AssignPte(s, root, vpn, 0, p, KernelPage, root, vpn);
    forall q ensures RoleOk(s', q) {
      assert RoleOk(s, q) && RoleOk(s, p);
      if q in s.role && s.role[q].UserPage? { AssignPte(s, root, vpn, 0, p, KernelPage, s.role[q].root, s.role[q].vpn); }
    }
    forall r, v ensures LeafOk(s', r, v) {
      assert LeafOk(s, r, v);
      AssignPte(s, root, vpn, 0, p, KernelPage, r, v);
    }
  }

  /** Above user memory, and for a change of flags, an entry may be stored without changing roles. */
  lemma {:induction false} StorePteOk(s: State, root: nat, vpn: nat, pte: nat)
    requires MemOk(s) && Reaches(s, root, vpn)
    requires Valid(pte) || pte == 0
    requires vpn >= TRAPFRAME || (Valid(pte) == Valid(Pte(s, root, vpn)) && Ppn(pte) == Ppn(Pte(s, root, vpn)))
    ensures MemOk(SetLeaf(s, On(root, 0, vpn), vpn % ENTRIES, pte))
  {
    var s' := SetLeaf(s, On(root, 0, vpn), vpn % ENTRIES, pte);
    SetLeafTree(s, On(root, 0, vpn), vpn % ENTRIES, pte);
    forall q ensures RoleOk(s', q) {
      assert RoleOk(s, q) && RoleOk(s, s.at[On(root, 0, vpn)]);
      if q in s.role && s.role[q].UserPage? { SetLeafPte(s, root, vpn, pte, s.role[q].root, s.role[q].vpn); }
    }
    forall r, v ensures LeafOk(s', r, v) {
      assert LeafOk(s, r, v);
      SetLeafPte(s, root, vpn, pte, r, v);
    }
  }

  // ---------------------------------------------------------------------------
  // Virtual memory

  /** Mapping `v` of tree `r` moved from `s` to `s'` as the changes `m` to tree `root` say. */
  ghost predicate PteMoved(s: State, s': State, root: nat, m: map<nat, nat>, r: nat, v: nat) {
    Pte(s', r, v) == if r == root && v in m then m[v] else Pte(s, r, v)
  }

  ghost predicate AtKept(s: State, s': State, x: Pos) {
    x in s.at ==> x in s'.at && s'.at[x] == s.at[x]
  }

  ghost predicate RoleKept(s: State, s': State, root: nat, moved: set<nat>, p: nat) {
    p in s.role && p !in moved ==> p in s'.role && (s'.role[p] == s.role[p] || (s.role[p] == FreePage && TableOf(s', root, p)))
  }

  ghost predicate TableOf(s: State, root: nat, p: nat) {
    p in s.role && s.role[p] == TablePage && p in s.pos && s.pos[p].root == root
  }

  /** From `s` to `s'` the tree at `root` took the changes `m` and other mappings stay; tables are
      only added, from free pages; other pages than `moved` keep their use. */
  ghost predicate Changes(s: State, s': State, root: nat, m: map<nat, nat>, moved: set<nat>) {
    && MemOk(s') && s'.role.Keys == s.role.Keys
    && (forall x {:trigger AtKept(s, s', x)} :: AtKept(s, s', x))
    && (forall p {:trigger RoleKept(s, s', root, moved, p)} :: RoleKept(s, s', root, moved, p))
    && (forall r, v {:trigger PteMoved(s, s', root, m, r, v)} :: PteMoved(s, s', root, m, r, v))
  }

  /** No mapping and no page in use changed. */
  ghost predicate Keeps(s: State, s': State, root: nat) {
    Changes(s, s', root, map[], {})
  }

  lemma {:induction false} ChangesTwice(s: State, s': State, s'': State, root: nat, m: map<nat, nat>, moved: set<nat>,
                                        m': map<nat, nat>, moved': set<nat>)
    requires Changes(s, s', root, m, moved) && Changes(s', s'', root, m', moved')
    ensures Changes(s, s'', root, m + m', moved + moved')
  {
    forall x ensures AtKept(s, s'', x) { assert AtKept(s, s', x) && AtKept(s', s'', x); }
    forall p ensures RoleKept(s, s'', root, moved + moved', p) {
      assert RoleKept(s, s', root, moved, p) && RoleKept(s', s'', root, moved', p) && RoleOk(s', p) && PageOk(s', p);
      if TableOf(s', root, p) { assert AtKept(s', s'', s'.pos[p]) && PosOk(s'', s'.pos[p]); }
    }
    forall r, v ensures PteMoved(s, s'', root, m + m', r, v) {
      assert PteMoved(s, s', root, m, r, v) && PteMoved(s', s'', root, m', r, v);
    }
  }

  lemma {:induction false} KeepsThen(s: State, s': State, s'': State, root: nat, m: map<nat, nat>, moved: set<nat>)
    requires Keeps(s, s', root) && Changes(s', s'', root, m, moved)
    ensures Changes(s, s'', root, m, moved)
  {
    ChangesTwice(s, s', s'', root, map[], {}, m, moved);
    assert map[] + m == m && {} + moved == moved;
  }

  lemma {:induction false} ThenKeeps(s: State, s': State, s'': State, root: nat, m: map<nat, nat>, moved: set<nat>)
    requires Changes(s, s', root, m, moved) && Keeps(s', s'', root)
    ensures Changes(s, s'', root, m, moved)
  {
    ChangesTwice(s, s', s'', root, m, moved, map[], {});
    assert m + map[] == m && moved + {} == moved;
  }

  lemma {:induction false} ChangesMore(s: State, s': State, root: nat, m: map<nat, nat>, moved: set<nat>, moved': set<nat>)
    requires Changes(s, s', root, m, moved) && moved <= moved'
    ensures Changes(s, s', root, m, moved')
  {
    forall p ensures RoleKept(s, s', root, moved', p) { assert RoleKept(s, s', root, moved, p); }
  }

  lemma {:induction false} KeepsItself(s: State, root: nat)
    requires MemOk(s)
    ensures Keeps(s, s, root)
  {
    forall r, v ensures PteMoved(s, s, root, map[], r, v) {}
  }

  /** Pages that were free and are free, and changes that repeat the mapping, need not be mentioned. */
  lemma {:induction false} ChangesLess(s: State, s': State, root: nat, m: map<nat, nat>, moved: set<nat>)
    requires Changes(s, s', root, m, moved)
    requires forall p :: p in moved && p in s.role ==> s.role[p] == FreePage && p in s'.role && s'.role[p] == FreePage
    requires forall v :: v in m ==> m[v] == Pte(s, root, v)
    ensures Keeps(s, s', root)
  {
    forall x ensures AtKept(s, s', x) { assert AtKept(s, s', x); }
    forall p ensures RoleKept(s, s', root, {}, p) { assert RoleKept(s, s', root, moved, p); }
    forall r, v ensures PteMoved(s, s', root, map[], r, v) { assert PteMoved(s, s', root, m, r, v); }
  }

  lemma {:induction false} PoppedLinkKeeps(s: State, x: Pos, i: nat, root: nat)
    requires MemOk(s) && x in s.at && s.at[x] in s.tab && 0 < x.level && i < ENTRIES && Child(x, i) !in s.at && s.free != [] && x.root == root
    ensures s.free[0] !in s.tab && Keeps(s, Link(Popped(s), x, i, s.free[0]), root)
  {
    var m := Popped(s);
    var s', p := Link(m, x, i, s.free[0]), s.free[0];
    PoppedOk(s);
    LinkOk(m, x, i, p);
    assert RoleOk(s, p);
    forall r, v ensures PteMoved(s, s', root, map[], r, v) { LinkPte(m, x, i, p, r, v); }
  }

  lemma {:induction false} WalkDown(s: State, root: nat, level: nat, vpn: nat)
    requires MemOk(s) && 0 < level <= 2 && On(root, level, vpn) in s.at
    ensures var x, i := On(root, level, vpn), PX(level, vpn);
            && s.at[x] in s.tab && Child(x, i) == On(root, level - 1, vpn)
            && var pte := s.tab[s.at[x]][i];
            && (Valid(pte) <==> Child(x, i) in s.at)
            && (Valid(pte) ==> Ppn(pte) == s.at[Child(x, i)])
  {
    ChildOn(root, level, vpn);
    EntryLeads(s, On(root, level, vpn), PX(level, vpn));
  }

  lemma {:induction false} EntryLeads(s: State, x: Pos, i: nat)
    requires Tree(s) && x in s.at && 0 < x.level <= 2 && i < ENTRIES
    ensures s.at[x] in s.tab
    ensures var pte := s.tab[s.at[x]][i]; (Valid(pte) <==> Child(x, i) in s.at) && (Valid(pte) ==> Ppn(pte) == s.at[Child(x, i)])
  {
    assert PosOk(s, x) && EntryOk(s, x, i);
    if Child(x, i) in s.at { MakePteParts(s.at[Child(x, i)], PTE_V); }
  }

  lemma {:induction false} ChildOn(root: nat, level: nat, vpn: nat)
    requires 0 < level <= 2
    ensures Child(On(root, level, vpn), PX(level, vpn)) == On(root, level - 1, vpn)
  {
  }

  datatype WalkResult = Panic | Null | Entry(table: nat)

  /** The contents of a page that is not a table. */
  type Page = seq<int>

  /** Pages in use keep their contents. */
  ghost predicate Intact(role: map<nat, Role>, data: map<nat, Page>, data': map<nat, Page>) {
    forall p :: p in data && p in role && role[p] != FreePage ==> p in data' && data'[p] == data[p]
  }

  ghost function Reserved(from: nat, n: nat): (role: map<nat, Role>)
    ensures forall p :: (p in role <==> from <= p < from + n) && (p in role ==> role[p] == KernelPage)
  {
    map p | p in Range(from, n) && Within(p, from, n) :: KernelPage
  }

  lemma {:induction false} NothingYet(s: State)
    requires s.tab == map[] && s.free == [] && s.pos == map[] && s.at == map[] && 0 !in s.role
    requires forall p :: p in s.role ==> s.role[p] == KernelPage
    ensures MemOk(s)
  {
    forall p ensures PageOk(s, p) {}
    forall x ensures PosOk(s, x) {}
    forall x: Pos, i: nat ensures EntryOk(s, x, i) {}
    forall p ensures RoleOk(s, p) {}
    forall r, v ensures LeafOk(s, r, v) {}
  }

  class Vm {
    var tab: map<nat, Table>
    var free: seq<nat>
    var data: map<nat, Page>
    ghost var pos: map<nat, Pos>
    ghost var at: map<Pos, nat>
    ghost var role: map<nat, Role>

    ghost function S(): State
      reads this
    {
      State(tab, free, pos, at, role)
    }

    /** `kinit`: every page from `first` to `last` is put on the free list. */
    constructor (first: nat, last: nat)
      requires 0 < first <= last
      ensures MemOk(S()) && tab == map[] && forall p :: (p in role <==> first <= p < last) && (p in role ==> role[p] == FreePage)
    {
      tab, free, data := map[], [], map[];
      pos, at, role := map[], map[], Reserved(first, last - first);
      new;
      NothingYet(S());
      var p := first;
      while p < last
        invariant first <= p <= last && MemOk(S()) && tab == map[]
        invariant forall q :: (q in role <==> first <= q < last) && (q in role ==> role[q] == if q < p then FreePage else KernelPage)
      {
        Kfree(p);
        p := p + 1;
      }
    }

    /** `kalloc`. */
    method Kalloc() returns (r: Option<nat>)
      requires MemOk(S())
      modifies this`free, this`role
      ensures r.None? ==> S() == old(S()) && free == []
      ensures r.Some? ==> old(free) != [] && r.value == old(free)[0] && S() == Popped(old(S())) && MemOk(S())
    {
      if free == [] {
        return None;
      }
      PoppedOk(S());
      r := Some(free[0]);
      role := role[free[0] := KernelPage];
      free := free[1..];
    }

    /** `kfree`. */
    method Kfree(p: nat)
      requires MemOk(S()) && p in role && role[p] == KernelPage
      modifies this`free, this`role
      ensures S() == Pushed(old(S()), p) && MemOk(S())
    {
      PushedOk(S(), p);
      free := [p] + free;
      role := role[p := FreePage];
    }

    /** The allocating branch of `walk`: a new, empty table behind entry `i` of `t`. */
    method AddTable(t: nat, i: nat, ghost x: Pos) returns (p: Option<nat>)
      requires MemOk(S()) && x in at && at[x] == t && t in tab && 0 < x.level && i < ENTRIES && Child(x, i) !in at
      modifies this`tab, this`free, this`pos, this`at, this`role
      ensures Keeps(old(S()), S(), x.root)
      ensures p.None? ==> S() == old(S()) && free == []
      ensures p.Some? ==> Child(x, i) in at && at[Child(x, i)] == p.value
    {
      ghost var s := S();
      p := Kalloc();
      if p.Some? {
        PoppedLinkKeeps(s, x, i, x.root);
        tab := tab[p.value := ZeroTable()];
        tab := tab[t := tab[t][i := MakePte(p.value, PTE_V)]];
        pos, at, role := pos[p.value := Child(x, i)], at[Child(x, i) := p.value], role[p.value := TablePage];
        assert S() == Link(Popped(s), x, i, p.value);
      }
    }

    /** `walk` for the page number of the address. */
    method Walk(root: nat, vpn: nat, alloc: bool) returns (r: WalkResult)
      requires MemOk(S()) && Root(root) in at
      modifies this`tab, this`free, this`pos, this`at, this`role
      ensures Keeps(old(S()), S(), root) && (!alloc ==> S() == old(S()))
      ensures r.Panic? <==> vpn >= MAXVPN
      ensures r.Entry? ==> On(root, 0, vpn) in at && at[On(root, 0, vpn)] == r.table
      ensures r.Null? && !alloc ==> On(root, 0, vpn) !in at
      ensures r.Null? && alloc ==> free == []
    {
      if vpn >= MAXVPN {
        return Panic;
      }
      ghost var s := S();
      var level, t := 2, root;
      assert On(root, 2, vpn) == Root(root) && PosOk(s, Root(root));
      while level > 0
        invariant level <= 2 && Keeps(s, S(), root) && (!alloc ==> S() == s)
        invariant On(root, level, vpn) in at && at[On(root, level, vpn)] == t
      {
        ghost var now, x := S(), On(root, level, vpn);
        WalkDown(now, root, level, vpn);
        var i := PX(level, vpn);
        var pte := tab[t][i];
        if Valid(pte) {
          t := Ppn(pte);
        } else {
          if !alloc {
            NoTableBelow(s, root, level, vpn);
            return Null;
          }
          var p := AddTable(t, i, x);
          if p.None? {
            return Null;
          }
          KeepsThen(s, now, S(), root, map[], {});
          t := p.value;
        }
        level := level - 1;
      }
      r := Entry(t);
    }

    /** `walkaddr`: the user page mapped at `vpn`, or 0. */
    method Walkaddr(root: nat, vpn: nat) returns (p: nat)
      requires MemOk(S()) && Root(root) in at
      modifies this`tab, this`free, this`pos, this`at, this`role
      ensures S() == old(S())
      ensures p == if vpn < MAXVPN && Valid(Pte(S(), root, vpn)) && UserPte(Pte(S(), root, vpn)) then Ppn(Pte(S(), root, vpn)) else 0
    {
      if vpn >= MAXVPN {
        return 0;
      }
      var e := Walk(root, vpn, false);
      if e == Null {
        return 0;
      }
      assert PosOk(S(), On(root, 0, vpn));
      var pte := tab[e.table][PX(0, vpn)];
      if !Valid(pte) || !UserPte(pte) {
        return 0;
      }
      return Ppn(pte);
    }

    /** The body of the loop of `mappages`. */
    method MapPage(root: nat, vpn: nat, p: nat, perm: nat) returns (r: MapResult)
      requires MemOk(S()) && Root(root) in at && perm < 1024 && (vpn < TRAPFRAME ==> p in role && role[p] == KernelPage)
      modifies this`tab, this`free, this`pos, this`at, this`role
      ensures r == OutOfMemory ==> free == []
      ensures r == MapPanic <==> vpn >= MAXVPN || (r != OutOfMemory && Valid(Pte(old(S()), root, vpn)))
      ensures r != Mapped ==> Keeps(old(S()), S(), root)
      ensures r == Mapped ==> Changes(old(S()), S(), root, map[vpn := MakePte(p, WithV(perm))], Moving(vpn, p))
      ensures r == Mapped && vpn < TRAPFRAME ==> role[p] == UserPage(root, vpn)
    {
      var e := Walk(root, vpn, true);
      if e == Panic {
        return MapPanic;
      }
      if e == Null {
        return OutOfMemory;
      }
      ghost var s := S();
      assert PosOk(s, On(root, 0, vpn)) && PteMoved(old(S()), s, root, map[], root, vpn) && RoleKept(old(S()), s, root, {}, p);
      if Valid(tab[e.table][PX(0, vpn)]) {
        return MapPanic;
      }
      MapPageChanges(s, root, vpn, p, WithV(perm));
      KeepsThen(old(S()), s, MapPageState(s, root, vpn, p, WithV(perm)), root, map[vpn := MakePte(p, WithV(perm))], Moving(vpn, p));
      tab := tab[e.table := tab[e.table][PX(0, vpn) := MakePte(p, WithV(perm))]];
      if vpn < TRAPFRAME {
        role := role[p := UserPage(root, vpn)];
      }
      assert S() == MapPageState(s, root, vpn, p, WithV(perm));
      r := Mapped;
    }

    /** Turn `a` of the loop of `mappages`. */
    method MapNext(root: nat, vpn: nat, a: nat, p: nat, perm: nat, ghost s: State) returns (r: MapResult)
      requires perm < 1024 && Root(root) in s.at && Changes(s, S(), root, RangeMap(vpn, a, p, WithV(perm)), Range(p, a))
      requires vpn < TRAPFRAME ==> p + a in s.role && s.role[p + a] == KernelPage
      modifies this`tab, this`free, this`pos, this`at, this`role
      ensures Changes(s, S(), root, RangeMap(vpn, if r == Mapped then a + 1 else a, p, WithV(perm)), Range(p, if r == Mapped then a + 1 else a))
      ensures r == OutOfMemory ==> free == []
      ensures r == MapPanic ==> vpn + a >= MAXVPN || Valid(Pte(s, root, vpn + a))
    {
      ghost var now := S();
      assert PteMoved(s, now, root, RangeMap(vpn, a, p, WithV(perm)), root, vpn + a);
      assert AtKept(s, now, Root(root)) && RoleKept(s, now, root, Range(p, a), p + a);
      r := MapPage(root, vpn + a, p + a, perm);
      if r == Mapped {
        ChangesMore(now, S(), root, map[vpn + a := MakePte(p + a, WithV(perm))], Moving(vpn + a, p + a), {p + a});
        MappedMore(s, now, S(), root, vpn, a, p, WithV(perm));
      } else {
        ThenKeeps(s, now, S(), root, RangeMap(vpn, a, p, WithV(perm)), Range(p, a));
      }
    }

    /** `mappages` for the `n` pages from `vpn`; `done` pages were mapped when it returned. */
    method Mappages(root: nat, vpn: nat, n: nat, p: nat, perm: nat) returns (r: MapResult, ghost done: nat)
      requires MemOk(S()) && Root(root) in at && perm < 1024 && 0 < n
      requires forall k :: p <= k < p + n && vpn < TRAPFRAME ==> k in role && role[k] == KernelPage
      modifies this`tab, this`free, this`pos, this`at, this`role
      ensures done <= n && (r == Mapped <==> done == n)
      ensures Changes(old(S()), S(), root, RangeMap(vpn, done, p, WithV(perm)), Range(p, done))
      ensures r == OutOfMemory ==> free == []
      ensures r == MapPanic ==> vpn + done >= MAXVPN || Valid(Pte(old(S()), root, vpn + done))
    {
      ghost var s := S();
      NothingMapped(s, root, vpn, p, WithV(perm));
      var a := 0;
      while true
        invariant a < n && Changes(s, S(), root, RangeMap(vpn, a, p, WithV(perm)), Range(p, a))
        decreases n - a
      {
        r := MapNext(root, vpn, a, p, perm, s);
        if r != Mapped {
          return r, a;
        }
        if a == n - 1 {
          return r, n;
        }
        a := a + 1;
      }
    }

    /** The body of the loop of `uvmunmap`; user memory is freed, other mappings are not. */
    method UnmapPage(root: nat, vpn: nat) returns (panicked: bool)
      requires MemOk(S()) && Root(root) in at
      modifies this`tab, this`free, this`pos, this`at, this`role
      ensures panicked <==> vpn >= MAXVPN || NoLeaf(Pte(old(S()), root, vpn))
      ensures panicked ==> S() == old(S())
      ensures !panicked ==> Changes(old(S()), S(), root, map[vpn := 0], Freeing(old(S()), root, vpn))
      ensures !panicked ==> StillFree(old(role), role, Freeing(old(S()), root, vpn))
    {
      var e := Walk(root, vpn, false);
      if e == Panic || e == Null {
        return true;
      }
      ghost var s := S();
      assert PosOk(s, On(root, 0, vpn));
      var pte := tab[e.table][PX(0, vpn)];
      if !Valid(pte) || PteFlags(pte) == PTE_V {
        return true;
      }
      UnmapChanges(s, root, vpn);
      if vpn < TRAPFRAME {
        free := [Ppn(pte)] + free;
        role := role[Ppn(pte) := FreePage];
      }
      tab := tab[e.table := tab[e.table][PX(0, vpn) := 0]];
      assert S() == UnmapState(s, root, vpn);
      panicked := false;
    }

    /** Turn `a` of the loop of `uvmunmap`. */
    method UnmapNext(root: nat, vpn: nat, a: nat, ghost s: State) returns (panicked: bool)
      requires Root(root) in s.at && Unmapping(s, S(), root, vpn, a)
      modifies this`tab, this`free, this`pos, this`at, this`role
      ensures panicked <==> Blocked(s, root, vpn + a)
      ensures panicked ==> S() == old(S())
      ensures !panicked ==> Unmapping(s, S(), root, vpn, a + 1)
    {
      ghost var now := S();
      assert AtKept(s, now, Root(root)) && !Within(vpn + a, vpn, a);
      assert PteMoved(s, now, root, Unmapped(vpn, a), root, vpn + a);
      panicked := UnmapPage(root, vpn + a);
      if !panicked {
        UnmappedMore(s, now, S(), root, vpn, a);
      }
    }

    /** `uvmunmap`; `done` mappings were removed when it returned. */
    method Uvmunmap(root: nat, vpn: nat, n: nat) returns (panicked: bool, ghost done: nat)
      requires MemOk(S()) && Root(root) in at
      modifies this`tab, this`free, this`pos, this`at, this`role
      ensures done <= n && (panicked <==> done < n)
      ensures panicked ==> Blocked(old(S()), root, vpn + done)
      ensures NoneBlocked(old(S()), root, vpn, vpn + done)
      ensures Unmapping(old(S()), S(), root, vpn, done)
    {
      ghost var s := S();
      NothingMapped(s, root, vpn, 0, 1);
      var a := 0;
      while a < n
        invariant a <= n && Unmapping(s, S(), root, vpn, a) && NoneBlocked(s, root, vpn, vpn + a)
      {
        panicked := UnmapNext(root, vpn, a, s);
        if panicked {
          return true, a;
        }
        a := a + 1;
      }
      return false, n;
    }

    /** `kalloc` and `mappages` of one user page filled with `content`, undone if the second fails. */
    method GrowPage(root: nat, vpn: nat, flags: nat, content: Page) returns (ok: bool, ghost p: nat)
      requires MemOk(S()) && Root(root) in at && vpn < TRAPFRAME && !Valid(Pte(S(), root, vpn)) && flags < 1024
      modifies this
      ensures !ok ==> Keeps(old(S()), S(), root)
      ensures ok ==> Changes(old(S()), S(), root, map[vpn := MakePte(p, WithV(flags))], {p})
      ensures ok ==> p in old(role) && old(role)[p] == FreePage && p in role && role[p] == UserPage(root, vpn)
      ensures Intact(old(role), old(data), data) && (ok ==> p in data && data[p] == content)
    {
      ghost var s := S();
      KeepsItself(s, root);
      p := 0;
      var mem := Kalloc();
      if mem.None? {
        return false, 0;
      }
      p := mem.value;
      data := data[mem.value := content];
      ghost var popped := S();
      PoppedChanges(s, root);
      assert PteMoved(s, popped, root, map[], root, vpn);
      var r := MapPage(root, vpn, mem.value, flags);
      ghost var after := S();
      if r != Mapped {
        assert RoleKept(popped, after, root, {}, p);
        Kfree(mem.value);
        PushedChanges(after, p, root);
        TakenBack(s, popped, after, S(), root, p);
        return false, p;
      }
      ChangesTwice(s, popped, after, root, map[], {p}, map[vpn := MakePte(p, WithV(flags))], {p});
      assert map[] + map[vpn := MakePte(p, WithV(flags))] == map[vpn := MakePte(p, WithV(flags))] && {p} + {p} == {p};
      ok := true;
    }

    /** `uvmunmap` of pages just added. */
    method Shrink(root: nat, lo: nat, n: nat, ghost s: State, ghost pages: seq<nat>, ghost flags: seq<nat>)
      requires MemOk(s) && Root(root) in s.at && Grew(s, S(), root, lo, pages, flags) && n == |pages| && lo + n <= TRAPFRAME
      requires (forall k :: 0 <= k < n ==> flags[k] != PTE_V) && (forall v :: lo <= v < lo + n ==> !Valid(Pte(s, root, v)))
      modifies this`tab, this`free, this`pos, this`at, this`role
      ensures Keeps(s, S(), root)
    {
      ghost var before := S();
      GrewFrame(s, before, root, lo, pages, flags, lo + n);
      var panicked; ghost var done;
      panicked, done := Uvmunmap(root, lo, n);
      if panicked {
        GrewLeaf(s, before, root, lo, pages, flags, done);
        MakePteParts(pages[done], flags[done]);
        assert false;
      }
      GrewUndone(s, before, S(), root, lo, pages, flags);
    }

    /** The next page of a growing range; if there is no memory for it, the whole range is undone. */
    method GrowNext(root: nat, lo: nat, a: nat, perm: nat, content: Page,
                    ghost s: State, ghost d: map<nat, Page>, ghost pages: seq<nat>, ghost flags: seq<nat>, ghost contents: seq<Page>)
      returns (ok: bool, ghost p: nat)
      requires GrowingClosed(s, S(), root, lo, pages, flags, d, data, contents) && a == lo + |pages| < TRAPFRAME
      requires perm < 1024 && (forall v :: lo <= v <= a ==> !Valid(Pte(s, root, v)))
      modifies this
      ensures !ok ==> Keeps(s, S(), root) && Intact(s.role, d, data)
      ensures ok && WithV(perm) != PTE_V ==>
                GrowingClosed(s, S(), root, lo, pages + [p], flags + [WithV(perm)], d, data, contents + [content])
    {
      ghost var now, was := S(), data;
      assert Unfolded(0, now, pages);
      GrewFrame(s, now, root, lo, pages, flags, a);
      ok, p := GrowPage(root, a, perm, content);
      GrewIntact(s, now, root, lo, pages, flags, d, was, data);
      if ok {
        GrewMore(s, now, S(), root, lo, pages, flags, p, WithV(perm));
      } else {
        GrewKeeps(s, now, S(), root, lo, pages, flags);
        Shrink(root, lo, a - lo, s, pages, flags);
      }
    }

    /** The next zeroed page of `uvmalloc`. */
    method GrowZeroed(root: nat, lo: nat, a: nat, ghost s: State, ghost d: map<nat, Page>, ghost pages: seq<nat>) returns (ok: bool, ghost p: nat)
      requires a == lo + |pages| < TRAPFRAME && (forall v :: lo <= v <= a ==> !Valid(Pte(s, root, v)))
      requires Zeroing(s, S(), root, lo, pages, d, data)
      modifies this
      ensures !ok ==> Keeps(s, S(), root) && Intact(s.role, d, data)
      ensures ok ==> Zeroing(s, S(), root, lo, pages + [p], d, data)
    {
      RepeatMore(USER_RWX, a - lo);
      RepeatMore(ZeroPage(), a - lo);
      ok, p := GrowNext(root, lo, a, USER_RWX - 1, ZeroPage(), s, d, pages, Repeat(USER_RWX, a - lo), Repeat(ZeroPage(), a - lo));
    }

    /** The loop of `uvmalloc`: zeroed pages `lo` to `hi` are added, or nothing is. */
    method GrowRange(root: nat, lo: nat, hi: nat) returns (ok: bool, ghost pages: seq<nat>)
      requires MemOk(S()) && Root(root) in at && lo <= hi && InRange(S(), root, lo, hi)
      requires forall v :: lo <= v < hi && v < TRAPFRAME ==> !Valid(Pte(S(), root, v))
      modifies this
      ensures Intact(old(role), old(data), data)
      ensures !ok ==> Keeps(old(S()), S(), root)
      ensures ok ==> hi <= TRAPFRAME && |pages| == hi - lo && Grew(old(S()), S(), root, lo, pages, Repeat(USER_RWX, hi - lo))
      ensures ok ==> Filled(data, pages, Repeat(ZeroPage(), hi - lo))
    {
      ghost var s, d := S(), data;
      pages := [];
      ZeroingStart(s, root, lo, d);
      var a := lo;
      while a < hi
        invariant lo <= a <= hi && a <= TRAPFRAME && |pages| == a - lo && Zeroing(s, S(), root, lo, pages, d, data)
      {
        ghost var p;
        StaysInRange(s, S(), root, lo, hi, pages, d, data);
        ok, p := GrowZeroed(root, lo, a, s, d, pages);
        if !ok {
          return false, [];
        }
        pages := pages + [p];
        a := a + 1;
      }
      ZeroingEnd(s, S(), root, lo, pages, d, data);
      ok := true;
    }

    /** `uvmalloc`: user memory grows from `oldsz` to `newsz` bytes, or no mapping changes. */
    method Uvmalloc(root: nat, oldsz: nat, newsz: nat) returns (sz: nat, ghost pages: seq<nat>)
      requires MemOk(S()) && Root(root) in at && InRange(S(), root, PagesUp(oldsz), PagesUp(newsz))
      requires forall v :: PagesUp(oldsz) <= v < PagesUp(newsz) && v < TRAPFRAME ==> !Valid(Pte(S(), root, v))
      modifies this
      ensures newsz < oldsz ==> sz == oldsz && S() == old(S())
      ensures oldsz <= newsz && sz == newsz && newsz != 0 ==>
                && PagesUp(newsz) <= TRAPFRAME && |pages| == PagesUp(newsz) - PagesUp(oldsz)
                && Grew(old(S()), S(), root, PagesUp(oldsz), pages, Repeat(USER_RWX, |pages|))
                && Filled(data, pages, Repeat(ZeroPage(), |pages|))
      ensures oldsz <= newsz && sz != newsz ==> sz == 0
      ensures oldsz <= newsz && sz == 0 ==> Keeps(old(S()), S(), root)
      ensures Intact(old(role), old(data), data)
    {
      pages := [];
      if newsz < oldsz {
        return oldsz, [];
      }
      PagesUpMono(oldsz, newsz);
      var ok;
      ok, pages := GrowRange(root, PagesUp(oldsz), PagesUp(newsz));
      sz := if ok then newsz else 0;
      if ok && newsz == 0 {
        assert pages == [] && Range(0, 0) == {};
        assert PageMap(0, pages, Repeat(USER_RWX, 0)) == map[] && PageSet(pages) == {};
      }
    }

    /** `uvmdealloc`: user memory shrinks from `oldsz` to `newsz` bytes. */
    method Uvmdealloc(root: nat, oldsz: nat, newsz: nat) returns (sz: nat, panicked: bool)
      requires MemOk(S()) && Root(root) in at && oldsz <= TRAPFRAME * PGSIZE
      modifies this
      ensures panicked <==> newsz < oldsz && !NoneBlocked(old(S()), root, PagesUp(newsz), PagesUp(oldsz))
      ensures !panicked ==> sz == if newsz < oldsz then newsz else oldsz
      ensures newsz >= oldsz ==> S() == old(S())
      ensures newsz < oldsz && !panicked ==>
                var lo, n := PagesUp(newsz), PagesUp(oldsz) - PagesUp(newsz);
                && n >= 0
                && Unmapping(old(S()), S(), root, lo, n)
    {
      if newsz >= oldsz {
        return oldsz, false;
      }
      ghost var done;
      ghost var s := S();
      PagesUpMono(newsz, oldsz);
      NothingMapped(s, root, PagesUp(newsz), 0, 1);
      panicked, done := false, 0;
      if PagesUp(newsz) < PagesUp(oldsz) {
        panicked, done := Uvmunmap(root, PagesUp(newsz), PagesUp(oldsz) - PagesUp(newsz));
      }
      sz := newsz;
    }

    /** `walk` without allocation, and the entry found there. */
    method ReadPte(root: nat, vpn: nat) returns (pte: nat)
      requires MemOk(S()) && Root(root) in at && vpn < MAXVPN
      modifies this`tab, this`free, this`pos, this`at, this`role
      ensures S() == old(S()) && pte == Pte(S(), root, vpn)
    {
      var e := Walk(root, vpn, false);
      if e == Null {
        return 0;
      }
      assert PosOk(S(), On(root, 0, vpn));
      pte := tab[e.table][PX(0, vpn)];
    }

    /** Turn `i` of the loop of `uvmcopy`. */
    method CopyNext(from: nat, to: nat, i: nat, ghost s: State, ghost d: map<nat, Page>, ghost pages: seq<nat>) returns (ok: bool, ghost p: nat)
      requires |pages| == i < TRAPFRAME && Root(from) in s.at && from != to
      requires Growing(s, S(), to, 0, pages, FlagsOf(s, from, i), d, data, ContentsOf(s, from, i, d))
      requires !NoLeaf(Pte(s, from, i)) && Ppn(Pte(s, from, i)) in d && forall v :: 0 <= v <= i ==> !Valid(Pte(s, to, v))
      modifies this
      ensures !ok ==> Keeps(s, S(), to) && Intact(s.role, d, data)
      ensures ok ==> Growing(s, S(), to, 0, pages + [p], FlagsOf(s, from, i + 1), d, data, ContentsOf(s, from, i + 1, d))
    {
      OtherTreeKept(s, S(), to, 0, pages, FlagsOf(s, from, i), from, i, d, data);
      var pte := ReadPte(from, i);
      FlagsBound(pte);
      ok, p := GrowNext(to, 0, i, PteFlags(pte), data[Ppn(pte)], s, d, pages, FlagsOf(s, from, i), ContentsOf(s, from, i, d));
      assert Unfolded(0, S(), pages + [p]);
    }

    /** `uvmcopy`: tree `to` gets a copy of the first `n` pages of tree `from`, with their permissions
        and contents, or no mapping changes. */
    method Uvmcopy(from: nat, to: nat, n: nat) returns (ok: bool, ghost pages: seq<nat>)
      requires MemOk(S()) && Root(from) in at && Root(to) in at && from != to && n <= TRAPFRAME
      requires forall v :: 0 <= v < n ==> !NoLeaf(Pte(S(), from, v)) && Ppn(Pte(S(), from, v)) in data && !Valid(Pte(S(), to, v))
      modifies this
      ensures Intact(old(role), old(data), data)
      ensures !ok ==> Keeps(old(S()), S(), to)
      ensures ok ==> Grew(old(S()), S(), to, 0, pages, FlagsOf(old(S()), from, n)) && Filled(data, pages, ContentsOf(old(S()), from, n, old(data)))
    {
      ghost var s, d := S(), data;
      pages := [];
      GrewNothing(s, to, 0);
      var i := 0;
      while i < n
        invariant i <= n && |pages| == i
        invariant Growing(s, S(), to, 0, pages, FlagsOf(s, from, i), d, data, ContentsOf(s, from, i, d))
      {
        ghost var p;
        ok, p := CopyNext(from, to, i, s, d, pages);
        if !ok {
          return false, [];
        }
        pages := pages + [p];
        i := i + 1;
      }
      ok := true;
    }

    /** Turn `i` of the loop of `freewalk`. */
    method FreeChild(t: nat, i: nat, ghost x: Pos, ghost holes: set<Pos>) returns (panicked: bool, ghost gone: set<Pos>)
      requires Freeable(S(), holes, x) && at[x] == t && i < ENTRIES
      modifies this`tab, this`free, this`pos, this`at, this`role
      ensures !panicked && Freeable(S(), holes, x) && TablesFreed(old(S()), S(), gone) && gone <= old(at).Keys
      ensures forall y :: y in gone ==> y.root == x.root && y.level < x.level
      ensures 0 < x.level ==> Child(x, i) !in at
      decreases x.level, 0
    {
      ghost var s := S();
      FreewalkReads(s, holes, x, i);
      var pte := tab[t][i];
      if Valid(pte) && !Leaf(pte) {
        ghost var c := Child(x, i);
        HolesMore(s, holes, x, c);
        panicked, gone := Freewalk(Ppn(pte), c, holes + {c});
        ghost var freed := S();
        assert PosOk(freed, x);
        ClearedOk(freed, holes, x, i);
        ClearedFrees(freed, holes + {c}, x, i);
        tab := tab[t := tab[t][i := 0]];
        assert S() == SetLeaf(freed, x, i, 0);
        TablesFreedTwice(s, holes, freed, holes + {c}, S(), gone, {});
        assert gone + {} == gone;
        StillFreeable(s, S(), holes, x, gone);
      } else if Valid(pte) {
        return true, {};
      } else {
        panicked, gone := false, {};
        NothingFreed(s);
      }
    }

    /** `freewalk`: every table at or below `x` goes back to the free list, once. */
    method Freewalk(t: nat, ghost x: Pos, ghost holes: set<Pos>) returns (panicked: bool, ghost gone: set<Pos>)
      requires Freeable(S(), holes, x) && at[x] == t
      modifies this`tab, this`free, this`pos, this`at, this`role
      ensures !panicked && MemH(S(), holes) && TablesFreed(old(S()), S(), gone) && x in gone && gone <= old(at).Keys
      ensures forall y :: y in gone ==> y.root == x.root && y.level <= x.level
      decreases x.level, 1
    {
      ghost var s := S();
      gone := {};
      NothingFreed(s);
      var i := 0;
      while i < ENTRIES
        invariant i <= ENTRIES && Freeable(S(), holes, x) && at[x] == t && TablesFreed(s, S(), gone) && gone <= s.at.Keys
        invariant forall y :: y in gone ==> y.root == x.root && y.level < x.level
        invariant 0 < x.level ==> forall j :: 0 <= j < i ==> Child(x, j) !in at
      {
        ghost var now, more := S(), {};
        panicked, more := FreeChild(t, i, x, holes);
        TablesFreedTwice(s, holes, now, holes, S(), gone, more);
        gone := gone + more;
        i := i + 1;
      }
      ghost var now := S();
      DroppedOk(now, holes, x);
      DroppedFrees(now, holes, x);
      TablesFreedTwice(s, holes, now, holes, Dropped(now, x), gone, {x});
      tab := tab - {t};
      free := [t] + free;
      pos, at, role := pos - {t}, at - {x}, role[t := FreePage];
      assert S() == Dropped(now, x);
      gone := gone + {x};
      panicked := false;
    }

    // -------------------------------------------------------------------------
    // Address spaces of processes

    /** `uvmcreate`. */
    method Uvmcreate() returns (root: Option<nat>)
      requires MemOk(S())
      modifies this`tab, this`free, this`pos, this`at, this`role
      ensures MemOk(S()) && (root.None? ==> S() == old(S()))
      ensures root.Some? ==> Local(old(S()), S(), root.value) && NoMapping(S(), root.value)
      ensures root.Some? ==> Root(root.value) in at && Root(root.value) !in old(at)
    {
      ghost var s := S();
      root := Kalloc();
      if root.Some? {
        LocalCreate(s);
        tab := tab[root.value := ZeroTable()];
        pos, at, role := pos[root.value := Root(root.value)], at[Root(root.value) := root.value], role[root.value := TablePage];
        assert S() == NewRoot(Popped(s), root.value);
      }
    }

    /** `freewalk` on a whole tree. */
    method FreeTree(root: nat)
      requires MemOk(S()) && Root(root) in at && NoMapping(S(), root)
      modifies this`tab, this`free, this`pos, this`at, this`role
      ensures MemOk(S()) && Local(old(S()), S(), root) && Root(root) !in at
    {
      ghost var s := S();
      ghost var gone; var panicked;
      HolesOpen(s, {Root(root)});
      assert PosOk(s, Root(root));
      panicked, gone := Freewalk(root, Root(root), {Root(root)});
      HolesClose(S(), root);
      LocalFreed(s, S(), root, gone);
    }

    /** `mappages` of a page that the tree does not own, above user memory. */
    method MapFixed(root: nat, vpn: nat, p: nat, perm: nat) returns (r: MapResult)
      requires MemOk(S()) && Root(root) in at && TRAPFRAME <= vpn < MAXVPN && perm < 1024 && Pte(S(), root, vpn) == 0
      modifies this`tab, this`free, this`pos, this`at, this`role
      ensures MemOk(S()) && Local(old(S()), S(), root) && Root(root) in at && (r == Mapped || r == OutOfMemory)
      ensures forall v {:trigger Pte(S(), root, v)} ::
                Pte(S(), root, v) == if r == Mapped && v == vpn then MakePte(p, WithV(perm)) else Pte(old(S()), root, v)
    {
      ghost var s := S();
      r := MapPage(root, vpn, p, perm);
      ghost var m := if r == Mapped then map[vpn := MakePte(p, WithV(perm))] else map[];
      LocalChanges(s, S(), root, m, {});
      assert AtKept(s, S(), Root(root));
      forall v ensures Pte(S(), root, v) == if r == Mapped && v == vpn then MakePte(p, WithV(perm)) else Pte(s, root, v) {
        assert PteMoved(s, S(), root, m, root, v);
      }
    }

    /** `uvmunmap` of such a page. */
    method UnmapFixed(root: nat, vpn: nat)
      requires MemOk(S()) && Root(root) in at && TRAPFRAME <= vpn < MAXVPN && !NoLeaf(Pte(S(), root, vpn))
      modifies this`tab, this`free, this`pos, this`at, this`role
      ensures MemOk(S()) && Local(old(S()), S(), root) && Root(root) in at
      ensures forall v {:trigger Pte(S(), root, v)} :: Pte(S(), root, v) == if v == vpn then 0 else Pte(old(S()), root, v)
    {
      ghost var s := S();
      var panicked := UnmapPage(root, vpn);
      LocalChanges(s, S(), root, map[vpn := 0], {});
      assert AtKept(s, S(), Root(root));
      forall v ensures Pte(S(), root, v) == if v == vpn then 0 else Pte(s, root, v) {
        assert PteMoved(s, S(), root, map[vpn := 0], root, v);
      }
    }

    /** `uvmfree(pagetable, 0)` of a tree built since `s`. */
    method Discard(root: nat, ghost s: State)
      requires MemOk(s) && Root(root) !in s.at && Local(s, S(), root)
      requires MemOk(S()) && Root(root) in at && NoMapping(S(), root)
      modifies this`tab, this`free, this`pos, this`at, this`role
      ensures MemOk(S()) && role == s.role && SamePtes(s, S())
    {
      ghost var now := S();
      FreeTree(root);
      LocalTwice(s, now, S(), root);
      LocalGone(s, S(), root);
    }

    /** `proc_pagetable`: a tree with the trampoline and the trap frame, or every page returned. */
    method ProcPagetable(trampoline: nat, trapframe: nat) returns (root: Option<nat>)
      requires MemOk(S())
      modifies this`tab, this`free, this`pos, this`at, this`role
      ensures MemOk(S()) && (root.None? ==> role == old(role) && SamePtes(old(S()), S()))
      ensures root.Some? ==> Local(old(S()), S(), root.value) && UserTree(S(), root.value, 0)
      ensures root.Some? ==> Root(root.value) in at && Root(root.value) !in old(at)
    {
      ghost var s := S();
      SamePtesItself(s);
      root := Uvmcreate();
      if root.None? {
        return;
      }
      ghost var now := S();
      var r := MapFixed(root.value, TRAMPOLINE, trampoline, PTE_R + PTE_X);
      LocalTwice(s, now, S(), root.value);
      if r != Mapped {
        Discard(root.value, s);
        return None;
      }
      MakePteParts(trampoline, PTE_V + PTE_R + PTE_X);
      now := S();
      r := MapFixed(root.value, TRAPFRAME, trapframe, PTE_R + PTE_W);
      LocalTwice(s, now, S(), root.value);
      if r != Mapped {
        now := S();
        UnmapFixed(root.value, TRAMPOLINE);
        LocalTwice(s, now, S(), root.value);
        Discard(root.value, s);
        return None;
      }
      MakePteParts(trapframe, PTE_V + PTE_R + PTE_W);
    }

    /** `uvmfree` */
    method Uvmfree(root: nat, n: nat)
      requires MemOk(S()) && Root(root) in at && MapsUser(S(), root, n)
      modifies this`tab, this`free, this`pos, this`at, this`role
      ensures MemOk(S()) && Local(old(S()), S(), root) && Root(root) !in at
    {
      ghost var s := S();
      if n > 0 {
        var panicked; ghost var done;
        panicked, done := Uvmunmap(root, 0, n);
        assert Pte(s, root, done) == Pte(s, root, done);
        assert done == n;
        UserUnmapped(s, S(), root, n);
        assert AtKept(s, S(), Root(root));
      } else {
        KeepsItself(s, root);
        LocalChanges(s, s, root, map[], {});
      }
      ghost var now := S();
      FreeTree(root);
      LocalTwice(s, now, S(), root);
    }

    /** `proc_freepagetable` */
    method ProcFreepagetable(root: nat, n: nat)
      requires MemOk(S()) && Root(root) in at && UserTree(S(), root, n)
      modifies this`tab, this`free, this`pos, this`at, this`role
      ensures MemOk(S()) && Local(old(S()), S(), root) && Root(root) !in at
    {
      ghost var s := S();
      UnmapFixed(root, TRAMPOLINE);
      ghost var s1 := S();
      UnmapFixed(root, TRAPFRAME);
      ghost var s2 := S();
      LocalTwice(s, s1, s2, root);
      Uvmfree(root, n);
      LocalTwice(s, s2, S(), root);
    }

    /** `uvmclear` */
    method Uvmclear(root: nat, vpn: nat) returns (panicked: bool)
      requires MemOk(S()) && Root(root) in at
      modifies this`tab, this`free, this`pos, this`at, this`role
      ensures panicked ==> S() == old(S()) && (vpn >= MAXVPN || !Valid(Pte(S(), root, vpn)))
      ensures !panicked ==> Changes(old(S()), S(), root, map[vpn := WithoutU(Pte(old(S()), root, vpn))], {}) && role == old(role)
    {
      var e := Walk(root, vpn, false);
      if e == Panic || e == Null {
        return true;
      }
      ghost var s := S();
      assert PosOk(s, On(root, 0, vpn)) && LeafOk(s, root, vpn);
      var pte := tab[e.table][PX(0, vpn)];
      WithoutUParts(pte);
      StorePteOk(s, root, vpn, WithoutU(pte));
      StoreChanges(s, root, vpn, WithoutU(pte));
      tab := tab[e.table := tab[e.table][PX(0, vpn) := WithoutU(pte)]];
      assert S() == SetLeaf(s, On(root, 0, vpn), vpn % ENTRIES, WithoutU(pte));
      panicked := false;
    }

    /** `freeproc` of the memory of a process. */
    method Freeproc(trapframe: nat, root: nat, n: nat)
      requires MemOk(S()) && Root(root) in at && UserTree(S(), root, n) && trapframe in role && role[trapframe] == KernelPage
      modifies this`tab, this`free, this`pos, this`at, this`role
      ensures MemOk(S()) && Local(Pushed(old(S()), trapframe), S(), root) && Root(root) !in at
    {
      ghost var s := S();
      Kfree(trapframe);
      assert forall v: nat {:trigger Pte(S(), root, v)} :: Pte(S(), root, v) == Pte(s, root, v);
      ProcFreepagetable(root, n);
    }

    /** The memory that `allocproc` takes: a trap frame and a tree, or nothing. */
    method Allocproc(trampoline: nat) returns (root: Option<nat>, trapframe: nat)
      requires MemOk(S())
      modifies this`tab, this`free, this`pos, this`at, this`role
      ensures MemOk(S())
      ensures root.None? ==> role == old(role) && SamePtes(old(S()), S())
      ensures root.Some? ==> old(free) != [] && trapframe == old(free)[0] && Local(Popped(old(S())), S(), root.value)
      ensures root.Some? ==> Root(root.value) in at && Root(root.value) !in old(at) && UserTree(S(), root.value, 0)
    {
      ghost var s := S();
      SamePtesItself(s);
      var mem := Kalloc();
      if mem.None? {
        return None, 0;
      }
      trapframe := mem.value;
      root := ProcPagetable(trampoline, trapframe);
      if root.None? {
        PopPush(s, S());
        Kfree(trapframe);
      }
    }

    /** The memory side of `fork`: the child gets its own trap frame, tree and copies of the
        parent's pages, or every page taken for it is free again. */
    method Fork(parent: nat, n: nat, trampoline: nat) returns (child: Option<nat>, trapframe: nat)
      requires MemOk(S()) && Root(parent) in at && UserTree(S(), parent, n)
      requires forall v :: 0 <= v < n ==> Ppn(Pte(S(), parent, v)) in data
      modifies this
      ensures MemOk(S()) && Intact(old(role), old(data), data)
      ensures child.None? ==> role == old(role) && SamePtes(old(S()), S())
      ensures child.Some? ==> old(free) != [] && trapframe == old(free)[0] && Local(Popped(old(S())), S(), child.value)
      ensures child.Some? ==> Root(child.value) in at && Root(child.value) !in old(at) && UserTree(S(), child.value, n)
      ensures child.Some? ==> forall v :: 0 <= v < n ==> SamePage(old(S()), old(data), parent, S(), data, child.value, v)
    {
      ghost var s, d := S(), data;
      child, trapframe := Allocproc(trampoline);
      if child.None? {
        return;
      }
      ghost var ready := S();
      var ok; ghost var pages;
      ForkReady(s, ready, parent, child.value, n);
      ok, pages := Uvmcopy(parent, child.value, n);
      IntactPopped(s, ready, child.value, d, data);
      ghost var copied := S();
      if !ok {
        KeptUserTree(ready, copied, child.value, 0);
        LocalTwice(Popped(s), ready, copied, child.value);
        assert LocalRole(Popped(s), copied, child.value, trapframe);
        Freeproc(trapframe, child.value, 0);
        ForkUndone(s, copied, S(), child.value);
        return None, trapframe;
      }
      ForkCopied(ready, d, parent, copied, data, child.value, n, pages);
      LocalTwice(Popped(s), ready, copied, child.value);
      forall v | 0 <= v < n ensures SamePage(s, d, parent, copied, data, child.value, v) {
        assert SamePage(ready, d, parent, copied, data, child.value, v);
      }
    }

    /** One growth step of `exec`: `uvmalloc` on the image being built since `s`.  However large `newsz` is, there
        is no page for it long before the image could reach the trap frame. */
    method GrowImage(root: nat, sz: nat, newsz: nat, ghost s: State) returns (r: nat)
      requires Image(s, S(), root, sz) && |role| <= TRAPFRAME
      modifies this
      ensures |role| == |old(role)|
      ensures r == 0 ==> Image(s, S(), root, sz)
      ensures r != 0 ==> Image(s, S(), root, r) && r == (if newsz < sz then sz else newsz)
      ensures Intact(old(role), old(data), data)
      ensures r != 0 && sz <= newsz ==> forall v :: PagesUp(sz) <= v < PagesUp(newsz) ==> PteFlags(Pte(S(), root, v)) == USER_RWX
      ensures r != 0 && AllUser(old(S()), root, PagesUp(sz)) ==> AllUser(S(), root, PagesUp(r))
    {
      ghost var now := S();
      ghost var pages;
      PagesUpMono(sz, newsz);
      ImageInRange(now, root, PagesUp(sz), PagesUp(newsz));
      r, pages := Uvmalloc(root, sz, newsz);
      if newsz < sz {
      } else if r == 0 {
        KeptUserTree(now, S(), root, PagesUp(sz));
        LocalTwice(s, now, S(), root);
      } else {
        ImageGrew(s, now, S(), root, PagesUp(sz), PagesUp(newsz), pages);
      }
    }

    /** `loadseg`, of which only the first `readable` bytes can be read from the file; `None` is its panic. */
    method LoadSeg(root: nat, va: nat, filesz: nat, readable: nat, ghost n: nat) returns (r: Option<bool>)
      requires MemOk(S()) && Root(root) in at && va % PGSIZE == 0
      requires n <= TRAPFRAME && AllUser(S(), root, n) && va + filesz <= n * PGSIZE
      modifies this`tab, this`free, this`pos, this`at, this`role
      ensures S() == old(S()) && r == Some(readable >= filesz)
    {
      ghost var s := S();
      var i := 0;
      while i < filesz
        invariant S() == s && i % PGSIZE == 0 && (i == 0 || i <= readable || filesz <= readable)
        decreases filesz - i
      {
        PageBelow(va, i, n);
        var pa := Walkaddr(root, (va + i) / PGSIZE);
        if pa == 0 {
          AllUserMapped(s, root, n, (va + i) / PGSIZE);
          return None;
        }
        var m := if filesz - i < PGSIZE then filesz - i else PGSIZE;
        if i + m > readable {
          return Some(false);
        }
        i := i + PGSIZE;
      }
      r := Some(true);
    }

    /** The loop of `exec` over the program segments; the panics of `loadseg` are out of reach. */
    method LoadSegments(root: nat, segs: seq<Segment>, ghost s: State) returns (ok: bool, sz: nat, panicked: bool)
      requires Image(s, S(), root, 0) && |role| <= TRAPFRAME
      modifies this
      ensures !panicked && Image(s, S(), root, sz) && |role| == |old(role)|
    {
      sz, panicked := 0, false;
      var i := 0;
      while i < |segs|
        invariant i <= |segs| && !panicked && Image(s, S(), root, sz) && AllUser(S(), root, PagesUp(sz)) && |role| == |old(role)|
      {
        if !segs[i].header || segs[i].memsz < segs[i].filesz || segs[i].vaddr + segs[i].memsz >= ADDRESSES {
          return false, sz, false;
        }
        var sz1 := GrowImage(root, sz, segs[i].vaddr + segs[i].memsz, s);
        if sz1 == 0 {
          return false, sz, false;
        }
        sz := sz1;
        if segs[i].vaddr % PGSIZE != 0 {
          return false, sz, false;
        }
        PagesUpAtLeast(sz);
        var r := LoadSeg(root, segs[i].vaddr, segs[i].filesz, segs[i].readable, PagesUp(sz));
        if r == None {
          return false, sz, true;
        }
        if !r.value {
          return false, sz, false;
        }
        i := i + 1;
      }
      ok := true;
    }

    /** The failure exit of `exec`. */
    method Abandon(root: nat, sz: nat, ghost s: State)
      requires Image(s, S(), root, sz) && MemOk(s) && Root(root) !in s.at
      modifies this`tab, this`free, this`pos, this`at, this`role
      ensures MemOk(S()) && role == s.role && SamePtes(s, S())
    {
      ghost var now := S();
      ProcFreepagetable(root, PagesUp(sz));
      LocalTwice(s, now, S(), root);
      LocalGone(s, S(), root);
    }

    /** The guard page and the stack of `exec`. */
    method AddStack(root: nat, sz: nat, ghost s: State) returns (r: nat)
      requires Image(s, S(), root, sz) && |role| <= TRAPFRAME
      modifies this
      ensures r == 0 ==> Image(s, S(), root, PagesUp(sz) * PGSIZE)
      ensures r != 0 ==> r == (PagesUp(sz) + 2) * PGSIZE && Image(s, S(), root, r)
      ensures r != 0 ==> !UserPte(Pte(S(), root, PagesUp(sz))) && UserPte(Pte(S(), root, PagesUp(sz) + 1))
    {
      var top := PagesUp(sz) * PGSIZE;
      PagesUpWhole(PagesUp(sz));
      PagesUpWhole(PagesUp(sz) + 2);
      r := GrowImage(root, top, top + 2 * PGSIZE, s);
      if r != 0 {
        ghost var now := S();
        var panicked := Uvmclear(root, PagesUp(sz));
        GuardedImage(s, now, S(), root, r, PagesUp(sz));
      }
    }

    /** The memory side of `exec`: a new image replaces the old one, whose pages are released, or
        every page is back where it was.  `argsFit` is the outcome of copying the arguments. */
    method Exec(oldRoot: nat, oldPages: nat, trampoline: nat, trapframe: nat, segs: seq<Segment>, argsFit: bool)
      returns (root: Option<nat>, sz: nat, panicked: bool, ghost built: State)
      requires MemOk(S()) && Root(oldRoot) in at && UserTree(S(), oldRoot, oldPages)
      requires |role| <= TRAPFRAME
      modifies this
      ensures MemOk(S()) && !panicked
      ensures root.None? ==> role == old(role) && SamePtes(old(S()), S())
      ensures root.Some? ==> Root(root.value) !in old(at) && Root(oldRoot) !in at && UserTree(S(), root.value, PagesUp(sz))
      ensures root.Some? ==> Local(old(S()), built, root.value) && Local(built, S(), oldRoot)
    {
      ghost var s := S();
      built := s;
      sz, panicked := 0, false;
      root := ProcPagetable(trampoline, trapframe);
      if root.None? {
        return;
      }
      var ok;
      ok, sz, panicked := LoadSegments(root.value, segs, s);
      if panicked {
        return;
      }
      if !ok {
        Abandon(root.value, sz, s);
        return None, 0, false, s;
      }
      var top := AddStack(root.value, sz, s);
      if top == 0 || !argsFit {
        Abandon(root.value, if top == 0 then PagesUp(sz) * PGSIZE else top, s);
        return None, 0, false, s;
      }
      sz := top;
      built := S();
      OldImage(s, built, oldRoot, root.value, oldPages);
      ProcFreepagetable(oldRoot, oldPages);
      NewImage(built, S(), oldRoot, root.value, PagesUp(sz));
    }

    /** `copyout`: the bytes of `src` up to the first page that is not mapped for the user are in user
        memory at `dst`, and no other byte of any process has changed. */
    method Copyout(root: nat, dst: nat, src: seq<int>) returns (ok: bool, ghost done: nat)
      requires MemOk(S()) && Root(root) in at && DataOk(S(), data) && NoUserAbove(S(), root)
      modifies this
      ensures S() == old(S()) && done <= |src| && Written(S(), old(data), data, root, dst, src[..done])
      ensures ok <==> done == |src|
      ensures !ok ==> !UserMapped(S(), root, (dst + done) / PGSIZE)
    {
      ghost var s, d := S(), data;
      WrittenNothing(s, d, root, dst);
      var k := 0;
      assert src[..0] == [];
      while k < |src|
        invariant k <= |src| && S() == s && Written(s, d, data, root, dst, src[..k])
        decreases |src| - k
      {
        var p := Walkaddr(root, (dst + k) / PGSIZE);
        if p == 0 {
          ZeroIsNoPage(s, root, (dst + k) / PGSIZE);
          return false, k;
        }
        var n := PGSIZE - (dst + k) % PGSIZE;
        if n > |src| - k { n := |src| - k; }
        WrittenMore(s, d, data, root, dst, src[..k], p, src[k..k + n]);
        data := data[p := Splice(data[p], (dst + k) % PGSIZE, src[k..k + n])];
        assert src[..k] + src[k..k + n] == src[..k + n];
        k := k + n;
      }
      return true, k;
    }

    /** `copyin`: the bytes of user memory from `src` on, up to the first page not mapped for the user. */
    method Copyin(root: nat, src: nat, len: nat) returns (ok: bool, out: seq<int>)
      requires MemOk(S()) && Root(root) in at && DataOk(S(), data) && NoUserAbove(S(), root)
      modifies this`tab, this`free, this`pos, this`at, this`role
      ensures S() == old(S()) && |out| <= len && Reads(S(), data, root, src, out)
      ensures ok <==> |out| == len
      ensures !ok ==> !UserMapped(S(), root, (src + |out|) / PGSIZE)
    {
      ghost var s := S();
      out := [];
      while |out| < len
        invariant |out| <= len && S() == s && Reads(s, data, root, src, out)
        decreases len - |out|
      {
        var va := src + |out|;
        var p := Walkaddr(root, va / PGSIZE);
        if p == 0 {
          ZeroIsNoPage(s, root, va / PGSIZE);
          return false, out;
        }
        var n := PGSIZE - va % PGSIZE;
        if n > len - |out| { n := len - |out|; }
        ReadMore(s, data, root, src, out, p, n);
        out := out + data[p][va % PGSIZE..va % PGSIZE + n];
      }
      ok := true;
    }

    /** The inner loop of `copyinstr`: up to `n` bytes of a page from `at0` on, up to a NUL. */
    method CopyString(page: Page, at0: nat, n: nat) returns (k: nat, gotNull: bool)
      requires at0 + n <= |page|
      ensures k <= n && 0 !in page[at0..at0 + k] && (gotNull <==> k < n) && (gotNull ==> page[at0 + k] == 0)
    {
      k := 0;
      while k < n
        invariant k <= n && 0 !in page[at0..at0 + k]
      {
        if page[at0 + k] == 0 {
          return k, true;
        }
        assert page[at0..at0 + (k + 1)] == page[at0..at0 + k] + [page[at0 + k]];
        k := k + 1;
      }
      gotNull := false;
    }

    /** `copyinstr`: if it succeeds, the user memory at `src` holds `out` and then a NUL, within `max` bytes. */
    method Copyinstr(root: nat, src: nat, max: nat) returns (ok: bool, out: seq<int>)
      requires MemOk(S()) && Root(root) in at && DataOk(S(), data) && NoUserAbove(S(), root)
      modifies this`tab, this`free, this`pos, this`at, this`role
      ensures S() == old(S()) && |out| <= max && 0 !in out && Reads(S(), data, root, src, out)
      ensures ok ==> |out| < max && ByteAt(S(), data, root, src + |out|) == Some(0)
      ensures !ok ==> |out| == max || !UserMapped(S(), root, (src + |out|) / PGSIZE)
    {
      ghost var s := S();
      out := [];
      while |out| < max
        invariant |out| <= max && S() == s && 0 !in out && Reads(s, data, root, src, out)
        decreases max - |out|
      {
        var done;
        ok, done, out := CopyinstrTurn(root, src, max, out);
        if done {
          return;
        }
      }
      ok := false;
    }

    /** One turn of the loop of `copyinstr`. */
    method CopyinstrTurn(root: nat, src: nat, max: nat, sofar: seq<int>) returns (ok: bool, done: bool, out: seq<int>)
      requires MemOk(S()) && Root(root) in at && DataOk(S(), data) && NoUserAbove(S(), root)
      requires |sofar| < max && 0 !in sofar && Reads(S(), data, root, src, sofar)
      modifies this`tab, this`free, this`pos, this`at, this`role
      ensures S() == old(S()) && |sofar| <= |out| <= max && 0 !in out && Reads(S(), data, root, src, out)
      ensures !done ==> |sofar| < |out|
      ensures done && ok ==> |out| < max && ByteAt(S(), data, root, src + |out|) == Some(0)
      ensures done && !ok ==> !UserMapped(S(), root, (src + |out|) / PGSIZE)
    {
      ghost var s := S();
      out := sofar;
      var va := src + |out|;
      var p := Walkaddr(root, va / PGSIZE);
      if p == 0 {
        ZeroIsNoPage(s, root, va / PGSIZE);
        return false, true, out;
      }
      var n := PGSIZE - va % PGSIZE;
      if n > max - |out| { n := max - |out|; }
      ReadMore(s, data, root, src, out, p, n);
      var k, gotNull := CopyString(data[p], va % PGSIZE, n);
      ReadMore(s, data, root, src, out, p, k);
      out := out + data[p][va % PGSIZE..va % PGSIZE + k];
      if gotNull {
        ReadNext(s, data, root, va, p, k);
        return true, true, out;
      }
      ok, done := false, false;
    }
  }

  // ---------------------------------------------------------------------------
  // User memory, byte by byte

  /** The user may reach page `vpn`. */
  ghost predicate UserMapped(s: State, root: nat, vpn: nat) {
    vpn < MAXVPN && Valid(Pte(s, root, vpn)) && UserPte(Pte(s, root, vpn))
  }

  /** The trap frame and the trampoline are not for the user. */
  ghost predicate NoUserAbove(s: State, root: nat) {
    forall v {:trigger Pte(s, root, v)} :: v >= TRAPFRAME ==> !UserMapped(s, root, v)
  }

  /** The allocator knows the contents of user pages. */
  ghost predicate DataOk(s: State, d: map<nat, Page>) {
    forall p :: p in s.role && s.role[p].UserPage? ==> p in d && |d[p]| == PGSIZE
  }

  /** The byte at user address `va`, if there is one. */
  ghost function ByteAt(s: State, d: map<nat, Page>, root: nat, va: nat): Option<int> {
    var p := Ppn(Pte(s, root, va / PGSIZE));
    if va / PGSIZE < TRAPFRAME && UserMapped(s, root, va / PGSIZE) && p in d && |d[p]| == PGSIZE then Some(d[p][va % PGSIZE]) else None
  }

  function Splice(page: Page, off: nat, chunk: seq<int>): (r: Page)
    requires off + |chunk| <= |page|
    ensures |r| == |page| && forall i :: 0 <= i < |page| ==> r[i] == if off <= i < off + |chunk| then chunk[i - off] else page[i]
  {
    page[..off] + chunk + page[off + |chunk|..]
  }

  ghost predicate ByteMoved(s: State, d: map<nat, Page>, d': map<nat, Page>, root: nat, dst: nat, bytes: seq<int>, r: nat, va: nat) {
    ByteAt(s, d', r, va) == if r == root && dst <= va < dst + |bytes| then Some(bytes[va - dst]) else ByteAt(s, d, r, va)
  }

  /** From `d` to `d'` the bytes at `dst` of tree `root` became `bytes`, and no other byte of any tree changed. */
  ghost predicate Written(s: State, d: map<nat, Page>, d': map<nat, Page>, root: nat, dst: nat, bytes: seq<int>) {
    DataOk(s, d') && forall r, va {:trigger ByteMoved(s, d, d', root, dst, bytes, r, va)} :: ByteMoved(s, d, d', root, dst, bytes, r, va)
  }

  /** User memory at `src` holds `bytes`. */
  ghost predicate Reads(s: State, d: map<nat, Page>, root: nat, src: nat, bytes: seq<int>) {
    forall i :: 0 <= i < |bytes| ==> ByteAt(s, d, root, src + i) == Some(bytes[i])
  }

  lemma {:induction false} ZeroIsNoPage(s: State, root: nat, vpn: nat)
    requires MemOk(s) && NoUserAbove(s, root) && (UserMapped(s, root, vpn) ==> Ppn(Pte(s, root, vpn)) == 0)
    ensures !UserMapped(s, root, vpn)
  {
    assert LeafOk(s, root, vpn) && Pte(s, root, vpn) == Pte(s, root, vpn);
  }

  lemma {:induction false} WrittenNothing(s: State, d: map<nat, Page>, root: nat, dst: nat)
    requires DataOk(s, d)
    ensures Written(s, d, d, root, dst, [])
  {
    forall r, va ensures ByteMoved(s, d, d, root, dst, [], r, va) {}
  }

  /** The addresses of a stretch within one page. */
  lemma {:induction false} InPage(va: nat, n: nat, x: nat)
    requires va % PGSIZE + n <= PGSIZE
    ensures va <= x < va + n <==> x / PGSIZE == va / PGSIZE && va % PGSIZE <= x % PGSIZE < va % PGSIZE + n
    ensures x / PGSIZE == va / PGSIZE ==> x - va == x % PGSIZE - va % PGSIZE
  {
  }

  /** The page behind a user mapping, which no other mapping shares. */
  lemma {:induction false} UserFrame(s: State, d: map<nat, Page>, root: nat, vpn: nat)
    requires MemOk(s) && DataOk(s, d) && NoUserAbove(s, root) && UserMapped(s, root, vpn)
    ensures vpn < TRAPFRAME
    ensures var p := Ppn(Pte(s, root, vpn));
            && p in d && |d[p]| == PGSIZE
            && forall r: nat, v: nat {:trigger Pte(s, r, v)} ::
                 v < TRAPFRAME && Valid(Pte(s, r, v)) && Ppn(Pte(s, r, v)) == p ==> r == root && v == vpn
  {
    assert Pte(s, root, vpn) == Pte(s, root, vpn) && LeafOk(s, root, vpn);
    var p := Ppn(Pte(s, root, vpn));
    forall r: nat, v: nat | v < TRAPFRAME && Valid(Pte(s, r, v)) && Ppn(Pte(s, r, v)) == p ensures r == root && v == vpn { assert LeafOk(s, r, v); }
  }

  lemma {:induction false} ByteWritten(s: State, d: map<nat, Page>, root: nat, va: nat, chunk: seq<int>, r: nat, x: nat)
    requires MemOk(s) && DataOk(s, d) && NoUserAbove(s, root) && UserMapped(s, root, va / PGSIZE) && va % PGSIZE + |chunk| <= PGSIZE
    ensures var p := Ppn(Pte(s, root, va / PGSIZE));
            && p in d && |d[p]| == PGSIZE
            && ByteMoved(s, d, d[p := Splice(d[p], va % PGSIZE, chunk)], root, va, chunk, r, x)
  {
    UserFrame(s, d, root, va / PGSIZE);
    InPage(va, |chunk|, x);
  }

  lemma {:induction false} WrittenMore(s: State, d: map<nat, Page>, d1: map<nat, Page>, root: nat, dst: nat, bytes: seq<int>, p: nat, chunk: seq<int>)
    requires MemOk(s) && NoUserAbove(s, root) && Written(s, d, d1, root, dst, bytes)
    requires var va := dst + |bytes|; UserMapped(s, root, va / PGSIZE) && va % PGSIZE + |chunk| <= PGSIZE && p == Ppn(Pte(s, root, va / PGSIZE))
    ensures p in d1 && |d1[p]| == PGSIZE
    ensures Written(s, d, d1[p := Splice(d1[p], (dst + |bytes|) % PGSIZE, chunk)], root, dst, bytes + chunk)
  {
    var va := dst + |bytes|;
    UserFrame(s, d1, root, va / PGSIZE);
    var d2 := d1[p := Splice(d1[p], va % PGSIZE, chunk)];
    forall r, x ensures ByteMoved(s, d, d2, root, dst, bytes + chunk, r, x) {
      ByteWritten(s, d1, root, va, chunk, r, x);
      assert ByteMoved(s, d, d1, root, dst, bytes, r, x);
    }
  }

  lemma {:induction false} ReadNext(s: State, d: map<nat, Page>, root: nat, va: nat, p: nat, k: nat)
    requires MemOk(s) && DataOk(s, d) && NoUserAbove(s, root) && UserMapped(s, root, va / PGSIZE) && p == Ppn(Pte(s, root, va / PGSIZE))
    requires va % PGSIZE + k < PGSIZE
    ensures p in d && |d[p]| == PGSIZE && ByteAt(s, d, root, va + k) == Some(d[p][va % PGSIZE + k])
  {
    UserFrame(s, d, root, va / PGSIZE);
    InPage(va, k + 1, va + k);
  }

  lemma {:induction false} ReadMore(s: State, d: map<nat, Page>, root: nat, src: nat, out: seq<int>, p: nat, n: nat)
    requires MemOk(s) && DataOk(s, d) && NoUserAbove(s, root) && Reads(s, d, root, src, out)
    requires var va := src + |out|; UserMapped(s, root, va / PGSIZE) && va % PGSIZE + n <= PGSIZE && p == Ppn(Pte(s, root, va / PGSIZE))
    ensures p in d && |d[p]| == PGSIZE
    ensures Reads(s, d, root, src, out + d[p][(src + |out|) % PGSIZE..(src + |out|) % PGSIZE + n])
  {
    var va := src + |out|;
    UserFrame(s, d, root, va / PGSIZE);
    var out' := out + d[p][va % PGSIZE..va % PGSIZE + n];
    forall i | 0 <= i < |out'| ensures ByteAt(s, d, root, src + i) == Some(out'[i]) {
      if i >= |out| { ReadNext(s, d, root, va, p, i - |out|); }
    }
  }

  /** What `copyout` stored, `copyin` reads back. */
  lemma {:induction false} CopyRoundTrip(s: State, d: map<nat, Page>, d': map<nat, Page>, root: nat, va: nat, bytes: seq<int>, out: seq<int>)
    requires Written(s, d, d', root, va, bytes) && Reads(s, d', root, va, out) && |out| <= |bytes|
    ensures out == bytes[..|out|]
  {
    forall i | 0 <= i < |out| ensures out[i] == bytes[i] {
      assert ByteMoved(s, d, d', root, va, bytes, root, va + i);
    }
  }

  const ADDRESSES := 0x1_0000_0000_0000_0000

  /** A program segment to load: whether its header can be read, its place, its size in memory and in the file, and
      how much of the latter can be read. */
  datatype Segment = Segment(header: bool, vaddr: nat, memsz: nat, filesz: nat, readable: nat)

  /** The first `n` pages of the tree `root` are for the user. */
  ghost predicate AllUser(s: State, root: nat, n: nat) {
    forall v: nat {:trigger Pte(s, root, v)} :: v < n ==> PteFlags(Pte(s, root, v)) == USER_RWX
  }

  lemma {:induction false} PageBelow(va: nat, i: nat, n: nat)
    requires va % PGSIZE == 0 && i % PGSIZE == 0 && va + i < n * PGSIZE
    ensures (va + i) / PGSIZE < n && (i + PGSIZE) % PGSIZE == 0
  {
  }

  lemma {:induction false} PagesUpAtLeast(sz: nat)
    ensures sz <= PagesUp(sz) * PGSIZE
  {
  }

  lemma {:induction false} AllUserMapped(s: State, root: nat, n: nat, v: nat)
    requires MemOk(s) && AllUser(s, root, n) && v < n <= TRAPFRAME
    ensures UserMapped(s, root, v) && Ppn(Pte(s, root, v)) != 0
  {
    var pte := Pte(s, root, v);
    UserRwx(pte);
    assert LeafOk(s, root, v);
    assert Valid(pte) by { assert pte == 1024 * (pte / 1024) + 31; }
  }

  // ---------------------------------------------------------------------------
  // A tree that is mapped from the bottom up cannot outgrow physical memory

  /** The pages behind the first `n` pages of a tree. */
  ghost function Behind(s: State, root: nat, n: nat): set<nat> {
    if n == 0 then {} else Behind(s, root, n - 1) + {Ppn(Pte(s, root, n - 1))}
  }

  /** The first `n` pages of a tree are mapped. */
  ghost predicate Bottom(s: State, root: nat, n: nat) {
    forall v: nat {:trigger Pte(s, root, v)} :: v < n ==> Valid(Pte(s, root, v))
  }

  lemma {:induction false} BehindAre(s: State, root: nat, n: nat, p: nat)
    requires MemOk(s) && n <= TRAPFRAME && Bottom(s, root, n) && p in Behind(s, root, n)
    ensures p in s.role && s.role[p].UserPage? && s.role[p].vpn < n
  {
    if p !in Behind(s, root, n - 1) {
      BehindOne(s, root, n, n - 1);
    } else {
      BehindAre(s, root, n - 1, p);
    }
  }

  lemma {:induction false} BehindOne(s: State, root: nat, n: nat, v: nat)
    requires MemOk(s) && v < n <= TRAPFRAME && Bottom(s, root, n)
    ensures var p := Ppn(Pte(s, root, v)); p in s.role && s.role[p] == UserPage(root, v)
  {
    assert LeafOk(s, root, v) && Valid(Pte(s, root, v));
  }

  lemma {:induction false} BehindSize(s: State, root: nat, n: nat)
    requires MemOk(s) && n <= TRAPFRAME && Bottom(s, root, n)
    ensures |Behind(s, root, n)| == n
  {
    if n > 0 {
      BehindSize(s, root, n - 1);
      BehindNew(s, root, n - 1);
    }
  }

  lemma {:induction false} BehindNew(s: State, root: nat, n: nat)
    requires MemOk(s) && n < TRAPFRAME && Bottom(s, root, n + 1)
    ensures Ppn(Pte(s, root, n)) !in Behind(s, root, n)
  {
    BehindOne(s, root, n + 1, n);
    if Ppn(Pte(s, root, n)) in Behind(s, root, n) { BehindAre(s, root, n, Ppn(Pte(s, root, n))); }
  }

  /** Each mapped page takes a page of memory of its own, and the root of the tree takes another. */
  lemma {:induction false} MappedFitsMemory(s: State, root: nat, n: nat)
    requires MemOk(s) && Root(root) in s.at && n <= TRAPFRAME && Bottom(s, root, n)
    ensures n < |s.role|
  {
    BehindSize(s, root, n);
    var top := s.at[Root(root)];
    assert PosOk(s, Root(root)) && RoleOk(s, top);
    var behind := Behind(s, root, n);
    forall p | p in behind ensures p in s.role.Keys && p != top { BehindAre(s, root, n, p); }
    SubsetSize(behind + {top}, s.role.Keys);
  }

  /** Growing a tree from page `lo` to `hi` stays below the trap frame, if only because memory runs out. */
  ghost predicate InRange(s: State, root: nat, lo: nat, hi: nat) {
    hi <= TRAPFRAME || (lo <= TRAPFRAME && |s.role| <= TRAPFRAME && Bottom(s, root, lo))
  }

  lemma {:induction false} GrewBelow(s: State, s': State, root: nat, lo: nat, pages: seq<nat>, flags: seq<nat>, v: nat)
    requires Grew(s, s', root, lo, pages, flags) && v < lo + |pages| && (v < lo ==> Valid(Pte(s, root, v)))
    ensures Valid(Pte(s', root, v))
  {
    if v < lo {
      assert !Within(v, lo, |pages|);
      assert PteMoved(s, s', root, PageMap(lo, pages, flags), root, v);
    } else {
      GrewLeaf(s, s', root, lo, pages, flags, v - lo);
      MakePteParts(pages[v - lo], flags[v - lo]);
    }
  }

  lemma {:induction false} StaysInRange(s: State, s': State, root: nat, lo: nat, hi: nat, pages: seq<nat>, d: map<nat, Page>, d': map<nat, Page>)
    requires Zeroing(s, s', root, lo, pages, d, d') && InRange(s, root, lo, hi) && lo + |pages| < hi && lo + |pages| <= TRAPFRAME
    ensures lo + |pages| < TRAPFRAME
  {
    assert Unfolded(0, s', pages);
    if hi > TRAPFRAME {
      forall v: nat | v < lo + |pages| ensures Valid(Pte(s', root, v)) { GrewBelow(s, s', root, lo, pages, Repeat(USER_RWX, |pages|), v); }
      GrewFrame(s, s', root, lo, pages, Repeat(USER_RWX, |pages|), lo + |pages|);
      MappedFitsMemory(s', root, lo + |pages|);
      assert s'.role.Keys == s.role.Keys;
    }
  }

  lemma {:induction false} ImageInRange(s: State, root: nat, n: nat, hi: nat)
    requires MemOk(s) && UserTree(s, root, n) && |s.role| <= TRAPFRAME
    ensures InRange(s, root, n, hi) && forall v :: n <= v < hi && v < TRAPFRAME ==> !Valid(Pte(s, root, v))
  {
    forall v: nat | v < n ensures Valid(Pte(s, root, v)) { assert !NoLeaf(Pte(s, root, v)) && LeafOk(s, root, v); }
  }

  lemma {:induction false} ImageGrew(s: State, now: State, s': State, root: nat, lo: nat, hi: nat, pages: seq<nat>)
    requires MemOk(now) && UserTree(now, root, lo) && Local(s, now, root) && Root(root) in now.at
    requires lo <= hi <= TRAPFRAME && |pages| == hi - lo && Grew(now, s', root, lo, pages, Repeat(USER_RWX, |pages|))
    ensures MemOk(s') && Local(s, s', root) && Root(root) in s'.at && UserTree(s', root, hi)
    ensures forall v :: lo <= v < hi ==> PteFlags(Pte(s', root, v)) == USER_RWX
    ensures AllUser(now, root, lo) ==> AllUser(s', root, hi)
  {
    var flags := Repeat(USER_RWX, |pages|);
    GrewUserTree(now, s', root, lo, pages, flags);
    LocalTwice(s, now, s', root);
    assert AtKept(now, s', Root(root));
    forall v: nat | lo <= v < hi ensures PteFlags(Pte(s', root, v)) == USER_RWX {
      GrewLeaf(now, s', root, lo, pages, flags, v - lo);
      MakePteParts(pages[v - lo], USER_RWX);
    }
    forall v: nat | v < lo ensures Pte(s', root, v) == Pte(now, root, v) {
      assert !Within(v, lo, |pages|);
      assert PteMoved(now, s', root, PageMap(lo, pages, flags), root, v);
    }
  }

  /** The tree `root`, built since `s`, is a process image of `sz` bytes. */
  ghost predicate Image(s: State, s': State, root: nat, sz: nat) {
    MemOk(s') && Local(s, s', root) && Root(root) in s'.at && UserTree(s', root, PagesUp(sz))
  }

  lemma {:induction false} PagesUpMono(a: nat, b: nat)
    ensures a <= b ==> PagesUp(a) <= PagesUp(b)
    ensures PagesUp(TRAPFRAME * PGSIZE) == TRAPFRAME
    ensures 2 * PGSIZE <= a ==> PagesUp(a) == PagesUp(a - 2 * PGSIZE) + 2
  {
  }

  lemma {:induction false} PagesUpWhole(n: nat)
    ensures PagesUp(n * PGSIZE) == n
  {
  }

  lemma {:induction false} GuardedImage(s: State, now: State, s': State, root: nat, sz: nat, guard: nat)
    requires MemOk(now) && Image(s, now, root, sz) && guard + 1 < PagesUp(sz)
    requires Changes(now, s', root, map[guard := WithoutU(Pte(now, root, guard))], {})
    requires PteFlags(Pte(now, root, guard)) == USER_RWX && PteFlags(Pte(now, root, guard + 1)) == USER_RWX
    ensures Image(s, s', root, sz) && !UserPte(Pte(s', root, guard)) && UserPte(Pte(s', root, guard + 1))
  {
    var m := map[guard := WithoutU(Pte(now, root, guard))];
    LocalChanges(now, s', root, m, {});
    LocalTwice(s, now, s', root);
    assert AtKept(now, s', Root(root)) && PteMoved(now, s', root, m, root, guard) && PteMoved(now, s', root, m, root, guard + 1);
    WithoutUParts(Pte(now, root, guard));
    UserRwx(Pte(now, root, guard));
    UserRwx(Pte(now, root, guard + 1));
    forall v: nat ensures v != guard ==> Pte(s', root, v) == Pte(now, root, v) { assert PteMoved(now, s', root, m, root, v); }
  }

  lemma {:induction false} UserRwx(pte: nat)
    requires PteFlags(pte) == USER_RWX
    ensures UserPte(pte) && !NoLeaf(WithoutU(pte))
  {
    var k := pte / 1024;
    assert pte == 1024 * k + 31;
    assert pte / 16 == 64 * k + 1;
  }

  lemma {:induction false} OldImage(s: State, built: State, oldRoot: nat, root: nat, n: nat)
    requires MemOk(s) && MemOk(built) && Root(oldRoot) in s.at && UserTree(s, oldRoot, n)
    requires Root(root) !in s.at && Local(s, built, root)
    ensures oldRoot != root && Root(oldRoot) in built.at && UserTree(built, oldRoot, n)
  {
    forall v: nat ensures Pte(built, oldRoot, v) == Pte(s, oldRoot, v) { assert OtherPte(s, built, root, oldRoot, v); }
    assert !NoLeaf(Pte(s, oldRoot, TRAMPOLINE));
    if Root(oldRoot) !in built.at { NoRootNoTable(built, oldRoot, TRAMPOLINE); }
  }

  lemma {:induction false} NewImage(built: State, s': State, oldRoot: nat, root: nat, n: nat)
    requires Local(built, s', oldRoot) && root != oldRoot && UserTree(built, root, n)
    ensures UserTree(s', root, n)
  {
    forall v: nat ensures Pte(s', root, v) == Pte(built, root, v) { assert OtherPte(built, s', oldRoot, root, v); }
  }

  /** Entry `pte'` is another page with the flags and the contents of `pte`. */
  ghost predicate Copy(pte: nat, d: map<nat, Page>, pte': nat, d': map<nat, Page>) {
    && PteFlags(pte') == PteFlags(pte) && Ppn(pte') != Ppn(pte)
    && Ppn(pte') in d' && Ppn(pte) in d && d'[Ppn(pte')] == d[Ppn(pte)]
  }

  ghost predicate SamePage(s: State, d: map<nat, Page>, parent: nat, s': State, d': map<nat, Page>, child: nat, v: nat) {
    Copy(Pte(s, parent, v), d, Pte(s', child, v), d')
  }

  lemma {:induction false} CopyMade(pte: nat, d: map<nat, Page>, p: nat, d': map<nat, Page>)
    requires Ppn(pte) in d && p in d' && d'[p] == d[Ppn(pte)] && p != Ppn(pte)
    ensures Copy(pte, d, MakePte(p, PteFlags(pte)), d')
  {
    MakePteParts(p, PteFlags(pte));
  }

  lemma {:induction false} FlagsAt(s: State, root: nat, n: nat, k: nat)
    requires k < n
    ensures FlagsOf(s, root, n)[k] == PteFlags(Pte(s, root, k))
  {
    if k < n - 1 { FlagsAt(s, root, n - 1, k); }
  }

  lemma {:induction false} ContentsAt(s: State, root: nat, n: nat, d: map<nat, Page>, k: nat)
    requires k < n && Ppn(Pte(s, root, k)) in d
    ensures ContentsOf(s, root, n, d)[k] == d[Ppn(Pte(s, root, k))]
  {
    if k < n - 1 { ContentsAt(s, root, n - 1, d, k); }
  }

  lemma {:induction false} CopiedPage(s: State, d: map<nat, Page>, parent: nat, s': State, d': map<nat, Page>, child: nat,
                                      pages: seq<nat>, flags: seq<nat>, contents: seq<Page>, v: nat)
    requires v < |pages| && LeafOk(s, parent, v) && Valid(Pte(s, parent, v)) && v < TRAPFRAME && Ppn(Pte(s, parent, v)) in d
    requires Grew(s, s', child, 0, pages, flags) && Filled(d', pages, contents)
    requires flags[v] == PteFlags(Pte(s, parent, v)) && contents[v] == d[Ppn(Pte(s, parent, v))]
    ensures SamePage(s, d, parent, s', d', child, v)
  {
    assert pages[v] in d' && d'[pages[v]] == contents[v];
    assert s.role[pages[v]] == FreePage && s.role[Ppn(Pte(s, parent, v))].UserPage?;
    GrewLeaf(s, s', child, 0, pages, flags, v);
    CopyMade(Pte(s, parent, v), d, pages[v], d');
  }

  /** What the copy of `fork` makes of the child. */
  lemma {:induction false} ForkCopied(s: State, d: map<nat, Page>, parent: nat, s': State, d': map<nat, Page>, child: nat, n: nat, pages: seq<nat>)
    requires MemOk(s) && n <= TRAPFRAME && UserTree(s, child, 0)
    requires forall v :: 0 <= v < n ==> !NoLeaf(Pte(s, parent, v)) && Ppn(Pte(s, parent, v)) in d
    requires Grew(s, s', child, 0, pages, FlagsOf(s, parent, n)) && Filled(d', pages, ContentsOf(s, parent, n, d))
    ensures UserTree(s', child, n) && Local(s, s', child) && (Root(child) in s.at ==> Root(child) in s'.at)
    ensures forall v :: 0 <= v < n ==> SamePage(s, d, parent, s', d', child, v)
  {
    assert AtKept(s, s', Root(child));
    forall k | 0 <= k < n ensures FlagsOf(s, parent, n)[k] != PTE_V { FlagsAt(s, parent, n, k); }
    GrewUserTree(s, s', child, 0, pages, FlagsOf(s, parent, n));
    forall v | 0 <= v < n ensures SamePage(s, d, parent, s', d', child, v) {
      assert LeafOk(s, parent, v);
      FlagsAt(s, parent, n, v);
      ContentsAt(s, parent, n, d, v);
      CopiedPage(s, d, parent, s', d', child, pages, FlagsOf(s, parent, n), ContentsOf(s, parent, n, d), v);
    }
  }

  /** The page tables just before the copy of `fork`. */
  lemma {:induction false} ForkReady(s: State, ready: State, parent: nat, child: nat, n: nat)
    requires MemOk(s) && s.free != [] && Root(parent) in s.at && UserTree(s, parent, n)
    requires MemOk(ready) && Local(Popped(s), ready, child) && Root(child) !in s.at && UserTree(ready, child, 0)
    ensures parent != child && Root(parent) in ready.at
    ensures forall v: nat {:trigger Pte(ready, parent, v)} :: Pte(ready, parent, v) == Pte(s, parent, v)
    ensures forall v :: 0 <= v < n ==> Pte(ready, child, v) == 0
  {
    forall v: nat ensures Pte(ready, parent, v) == Pte(s, parent, v) { assert OtherPte(Popped(s), ready, child, parent, v); }
    assert !NoLeaf(Pte(s, parent, TRAMPOLINE));
    if Root(parent) !in ready.at { NoRootNoTable(ready, parent, TRAMPOLINE); }
  }

  lemma {:induction false} PopPush(s: State, s': State)
    requires MemOk(s) && s.free != [] && s'.role == Popped(s).role && SamePtes(Popped(s), s')
    ensures s.free[0] in s'.role && s'.role[s.free[0]] == KernelPage
    ensures Pushed(s', s.free[0]).role == s.role && SamePtes(s, Pushed(s', s.free[0]))
  {
    assert RoleOk(s, s.free[0]);
    forall r, v ensures PteKept(s, Pushed(s', s.free[0]), r, v) { assert PteKept(Popped(s), s', r, v); }
  }

  lemma {:induction false} IntactPopped(s: State, ready: State, child: nat, d: map<nat, Page>, d': map<nat, Page>)
    requires MemOk(s) && MemOk(ready) && s.free != [] && Local(Popped(s), ready, child) && Root(child) !in s.at && Intact(ready.role, d, d')
    ensures Intact(s.role, d, d')
  {
    PoppedOk(s);
    forall p | p in d && p in s.role && s.role[p] != FreePage ensures p in d' && d'[p] == d[p] {
      assert LocalRole(Popped(s), ready, child, p);
      NoTreeMine(Popped(s), child, p);
    }
  }

  lemma {:induction false} KeptUserTree(s: State, s': State, root: nat, n: nat)
    requires MemOk(s) && UserTree(s, root, n) && Keeps(s, s', root)
    ensures UserTree(s', root, n) && Local(s, s', root) && (Root(root) in s.at ==> Root(root) in s'.at)
  {
    assert AtKept(s, s', Root(root));
    forall v: nat ensures Pte(s', root, v) == Pte(s, root, v) { assert PteMoved(s, s', root, map[], root, v); }
    LocalChanges(s, s', root, map[], {});
  }

  lemma {:induction false} GrewUserTree(s: State, s': State, root: nat, lo: nat, pages: seq<nat>, flags: seq<nat>)
    requires MemOk(s) && UserTree(s, root, lo) && Grew(s, s', root, lo, pages, flags) && lo + |pages| <= TRAPFRAME
    requires forall k :: 0 <= k < |flags| ==> flags[k] != PTE_V
    ensures UserTree(s', root, lo + |pages|) && Local(s, s', root)
  {
    forall v: nat ensures if lo <= v < lo + |pages| then !NoLeaf(Pte(s', root, v)) else Pte(s', root, v) == Pte(s, root, v) {
      assert PteMoved(s, s', root, PageMap(lo, pages, flags), root, v) && (Within(v, lo, |pages|) || !Within(v, lo, |pages|));
      if lo <= v < lo + |pages| { MakePteParts(pages[v - lo], flags[v - lo]); }
    }
    LocalChanges(s, s', root, PageMap(lo, pages, flags), PageSet(pages));
  }

  /** A process created by taking a trap frame and building a tree, then freed, leaves every page
      and every mapping as it was. */
  lemma {:induction false} ForkUndone(s: State, s': State, s'': State, root: nat)
    requires MemOk(s) && s.free != [] && MemOk(s'') && Root(root) !in s.at && Root(root) !in s''.at
    requires Local(Popped(s), s', root) && Local(Pushed(s', s.free[0]), s'', root)
    ensures s''.role == s.role && SamePtes(s, s'')
  {
    var p := s.free[0];
    PoppedOk(s);
    var back := Pushed(Popped(s), p);
    assert RoleOk(s, p);
    PushedOk(Popped(s), p);
    assert back.role == s.role;
    forall q ensures LocalRole(back, Pushed(s', p), root, q) { assert LocalRole(Popped(s), s', root, q); }
    forall r, v ensures OtherPte(back, Pushed(s', p), root, r, v) { assert OtherPte(Popped(s), s', root, r, v); }
    LocalTwice(back, Pushed(s', p), s'', root);
    LocalGone(back, s'', root);
    forall r, v ensures PteKept(s, s'', r, v) { assert PteKept(back, s'', r, v); }
  }

  function WithoutU(pte: nat): nat { if UserPte(pte) then pte - PTE_U else pte }

  lemma {:induction false} WithoutUSplit(pte: nat) returns (k: nat, low: nat)
    requires UserPte(pte)
    ensures pte == 32 * k + 16 + low && low < 16 && WithoutU(pte) == 32 * k + low
  {
    k, low := pte / 32, pte % 16;
    assert pte / 16 == 2 * k + 1;
  }

  lemma {:induction false} WithoutUParts(pte: nat)
    ensures Valid(WithoutU(pte)) == Valid(pte) && Ppn(WithoutU(pte)) == Ppn(pte)
    ensures !UserPte(WithoutU(pte))
  {
    if UserPte(pte) {
      var k, low := WithoutUSplit(pte);
      assert (32 * k + low) / 1024 == k / 32 && (32 * k + 16 + low) / 1024 == k / 32;
      assert (32 * k + low) / 16 == 2 * k;
    }
  }

  lemma {:induction false} StoreChanges(s: State, root: nat, vpn: nat, pte: nat)
    requires MemOk(s) && Reaches(s, root, vpn)
    requires MemOk(SetLeaf(s, On(root, 0, vpn), vpn % ENTRIES, pte))
    ensures Changes(s, SetLeaf(s, On(root, 0, vpn), vpn % ENTRIES, pte), root, map[vpn := pte], {})
  {
    var s' := SetLeaf(s, On(root, 0, vpn), vpn % ENTRIES, pte);
    forall r, v ensures PteMoved(s, s', root, map[vpn := pte], r, v) { SetLeafPte(s, root, vpn, pte, r, v); }
    forall x ensures AtKept(s, s', x) {}
    forall p ensures RoleKept(s, s', root, {}, p) {}
  }

  /** Tree `root` maps the first `n` pages and nothing else. */
  ghost predicate MapsUser(s: State, root: nat, n: nat) {
    && n <= TRAPFRAME
    && forall v: nat {:trigger Pte(s, root, v)} :: if v < n then !NoLeaf(Pte(s, root, v)) else Pte(s, root, v) == 0
  }

  lemma {:induction false} FramesInTree(s: State, root: nat, n: nat, p: nat)
    requires MemOk(s) && MapsUser(s, root, n) && p in Frames(s, root, 0, n)
    ensures Mine(s, root, p)
  {
    FramesFind(s, root, n, n, p);
  }

  lemma {:induction false} FramesFind(s: State, root: nat, n: nat, k: nat, p: nat)
    requires MemOk(s) && MapsUser(s, root, n) && k <= n && p in Frames(s, root, 0, k)
    ensures Mine(s, root, p)
    decreases k
  {
    if p in Frames(s, root, 0, k - 1) {
      FramesFind(s, root, n, k - 1, p);
    } else {
      assert LeafOk(s, root, k - 1) && !NoLeaf(Pte(s, root, k - 1));
    }
  }

  lemma {:induction false} UserUnmapped(s: State, s': State, root: nat, n: nat)
    requires MemOk(s) && MapsUser(s, root, n)
    requires Changes(s, s', root, Unmapped(0, n), Frames(s, root, 0, n)) && StillFree(s.role, s'.role, Frames(s, root, 0, n))
    ensures Local(s, s', root) && NoMapping(s', root)
  {
    forall p | p in Frames(s, root, 0, n) ensures Mine(s, root, p) && Mine(s', root, p) { FramesInTree(s, root, n, p); }
    LocalChanges(s, s', root, Unmapped(0, n), Frames(s, root, 0, n));
    forall v: nat ensures Pte(s', root, v) == 0 {
      assert PteMoved(s, s', root, Unmapped(0, n), root, v);
      assert Within(v, 0, n) <==> v < n;
    }
  }

  const TRAMPOLINE := MAXVPN - 1

  ghost predicate SamePtes(s: State, s': State) {
    forall r, v {:trigger PteKept(s, s', r, v)} :: PteKept(s, s', r, v)
  }

  lemma {:induction false} SamePtesItself(s: State)
    ensures SamePtes(s, s)
  {
    forall r, v ensures PteKept(s, s, r, v) {}
  }

  /** A process image: the first `n` pages, the trap frame and the trampoline, all leaves. */
  ghost predicate UserTree(s: State, root: nat, n: nat) {
    && n <= TRAPFRAME
    && forall v: nat {:trigger Pte(s, root, v)} ::
         if v < n || v == TRAPFRAME || v == TRAMPOLINE then !NoLeaf(Pte(s, root, v)) else Pte(s, root, v) == 0
  }

  /** The tree of `x` maps nothing, and only entries above `x` may dangle. */
  ghost predicate Freeable(s: State, holes: set<Pos>, x: Pos) {
    && MemH(s, holes) && x in holes && x in s.at && x.level <= 2 && s.at[x] in s.tab
    && (forall h :: h in holes ==> h.level >= x.level)
    && (forall v {:trigger Pte(s, x.root, v)} :: Pte(s, x.root, v) == 0)
  }

  lemma {:induction false} NothingFreed(s: State)
    ensures TablesFreed(s, s, {})
  {
    assert s.at - {} == s.at;
    forall p ensures RoleFreed(s, s, {}, p) {}
    forall r, v ensures PteKept(s, s, r, v) {}
  }

  /** What `freewalk` finds in a table of a tree that maps nothing. */
  lemma {:induction false} FreewalkReads(s: State, holes: set<Pos>, x: Pos, i: nat)
    requires Freeable(s, holes, x) && i < ENTRIES
    ensures var pte := s.tab[s.at[x]][i];
            && (Valid(pte) ==> 0 < x.level && Child(x, i) in s.at && s.at[Child(x, i)] == Ppn(pte) && !Leaf(pte) && Ppn(pte) in s.tab)
            && (!Valid(pte) && 0 < x.level ==> Child(x, i) !in s.at)
  {
    if x.level == 0 {
      var v := x.prefix * ENTRIES + i;
      assert On(x.root, 0, v) == x && v % ENTRIES == i;
      assert Pte(s, x.root, v) == 0;
    } else {
      assert EntryH(s, holes, x, i) && PosOk(s, Child(x, i));
    }
  }

  lemma {:induction false} StillFreeable(s: State, s': State, holes: set<Pos>, x: Pos, gone: set<Pos>)
    requires Freeable(s, holes, x) && TablesFreed(s, s', gone) && MemH(s', holes) && x in s'.at
    ensures Freeable(s', holes, x)
  {
    assert PosOk(s', x);
    forall v ensures Pte(s', x.root, v) == 0 { assert PteKept(s, s', x.root, v) && Pte(s, x.root, v) == 0; }
  }

  lemma {:induction false} HolesMore(s: State, holes: set<Pos>, x: Pos, c: Pos)
    requires Freeable(s, holes, x) && c in s.at && c.level < x.level && c.root == x.root
    ensures Freeable(s, holes + {c}, c)
  {
    assert PosOk(s, c);
    forall y: Pos, j: nat ensures EntryH(s, holes + {c}, y, j) { assert EntryH(s, holes, y, j); }
  }

  /** The flags of the first `n` mappings of a tree. */
  ghost function FlagsOf(s: State, root: nat, n: nat): (flags: seq<nat>)
    ensures |flags| == n
  {
    if n == 0 then [] else FlagsOf(s, root, n - 1) + [PteFlags(Pte(s, root, n - 1))]
  }

  ghost function ContentsOf(s: State, root: nat, n: nat, data: map<nat, Page>): (contents: seq<Page>)
    ensures |contents| == n
  {
    if n == 0 then []
    else ContentsOf(s, root, n - 1, data) + [if Ppn(Pte(s, root, n - 1)) in data then data[Ppn(Pte(s, root, n - 1))] else []]
  }

  lemma {:induction false} FlagsBound(pte: nat)
    ensures PteFlags(pte) < 1024
    ensures Valid(pte) ==> PteFlags(pte) % 2 == 1 && WithV(PteFlags(pte)) == PteFlags(pte)
  {
  }

  /** While tree `to` grows, the mappings of another tree and the pages behind them stay. */
  lemma {:induction false} OtherTreeKept(s: State, s': State, to: nat, lo: nat, pages: seq<nat>, flags: seq<nat>, from: nat, v: nat,
                                         d: map<nat, Page>, d': map<nat, Page>)
    requires MemOk(s) && Grew(s, s', to, lo, pages, flags) && Intact(s.role, d, d') && from != to && Root(from) in s.at
    ensures Pte(s', from, v) == Pte(s, from, v) && Root(from) in s'.at
    ensures var p := Ppn(Pte(s, from, v));
            v < TRAPFRAME && Valid(Pte(s, from, v)) && p in d ==> p in d' && d'[p] == d[p]
  {
    assert AtKept(s, s', Root(from)) && LeafOk(s, from, v);
    assert PteMoved(s, s', to, PageMap(lo, pages, flags), from, v);
  }

  ghost function Repeat<T>(x: T, n: nat): (r: seq<T>)
    ensures |r| == n && forall k :: 0 <= k < n ==> r[k] == x
  {
    if n == 0 then [] else Repeat(x, n - 1) + [x]
  }

  lemma {:induction false} RepeatMore<T>(x: T, n: nat)
    ensures Repeat(x, n) + [x] == Repeat(x, n + 1)
  {
  }

  function ZeroPage(): Page { seq(PGSIZE, _ => 0) }

  /** `PGROUNDUP(sz) / PGSIZE`. */
  function PagesUp(sz: nat): nat { (sz + PGSIZE - 1) / PGSIZE }

  /** `PTE_W|PTE_X|PTE_R|PTE_U`, with the valid bit. */
  const USER_RWX := 31

  ghost function PageMap(lo: nat, pages: seq<nat>, flags: seq<nat>): map<nat, nat>
    requires |pages| == |flags|
  {
    map v | v in Range(lo, |pages|) :: MakePte(pages[v - lo], flags[v - lo])
  }

  ghost function PageSet(pages: seq<nat>): set<nat> {
    set p | p in pages
  }

  /** The tree at `root` gained the user `pages`, from `lo` on, all of them taken from the free list. */
  ghost predicate Grew(s: State, s': State, root: nat, lo: nat, pages: seq<nat>, flags: seq<nat>) {
    && |pages| == |flags| && (forall k :: 0 <= k < |flags| ==> flags[k] < 1024 && flags[k] % 2 == 1)
    && Changes(s, s', root, PageMap(lo, pages, flags), PageSet(pages))
    && (forall k :: 0 <= k < |pages| ==> pages[k] in s.role && s.role[pages[k]] == FreePage)
    && (forall k :: 0 <= k < |pages| ==> pages[k] in s'.role && s'.role[pages[k]] == UserPage(root, lo + k))
  }

  lemma {:induction false} PageSetGrows(pages: seq<nat>, p: nat)
    ensures PageSet(pages + [p]) == PageSet(pages) + {p}
  {
  }

  lemma {:induction false} PageMapGrows(lo: nat, pages: seq<nat>, flags: seq<nat>, p: nat, flag: nat)
    requires |pages| == |flags|
    ensures PageMap(lo, pages + [p], flags + [flag]) == PageMap(lo, pages, flags) + map[lo + |pages| := MakePte(p, flag)]
  {
    RangeGrows(lo, |pages|);
    assert !Within(lo + |pages|, lo, |pages|);
  }

  /** The pages hold the contents. */
  ghost predicate Filled(data: map<nat, Page>, pages: seq<nat>, contents: seq<Page>) {
    |pages| == |contents| && forall k :: 0 <= k < |pages| ==> pages[k] in data && data[pages[k]] == contents[k]
  }

  /** A range of user pages in the making, none of them without permissions. */
  ghost predicate Growing(s: State, s': State, root: nat, lo: nat, pages: seq<nat>, flags: seq<nat>,
                          d: map<nat, Page>, d': map<nat, Page>, contents: seq<Page>)
  {
    && MemOk(s) && Root(root) in s.at && Grew(s, s', root, lo, pages, flags) && (forall k :: 0 <= k < |flags| ==> flags[k] != PTE_V)
    && Filled(d', pages, contents) && Intact(s.role, d, d')
  }

  /** `Growing`, closed; an assertion of `Unfolded` opens it. */
  ghost predicate GrowingClosed(s: State, s': State, root: nat, lo: nat, pages: seq<nat>, flags: seq<nat>,
                                d: map<nat, Page>, d': map<nat, Page>, contents: seq<Page>)
  {
    forall k {:trigger Unfolded(k, s', pages)} :: Unfolded(k, s', pages) ==> Growing(s, s', root, lo, pages, flags, d, d', contents)
  }

  /** The same with zeroed pages. */
  ghost predicate Zeroing(s: State, s': State, root: nat, lo: nat, pages: seq<nat>, d: map<nat, Page>, d': map<nat, Page>) {
    GrowingClosed(s, s', root, lo, pages, Repeat(USER_RWX, |pages|), d, d', Repeat(ZeroPage(), |pages|))
  }

  ghost predicate Unfolded(k: int, s: State, pages: seq<nat>) { true }

  lemma {:induction false} ZeroingStart(s: State, root: nat, lo: nat, d: map<nat, Page>)
    requires MemOk(s) && Root(root) in s.at
    ensures Zeroing(s, s, root, lo, [], d, d)
  {
    GrewNothing(s, root, lo);
  }

  lemma {:induction false} ZeroingEnd(s: State, s': State, root: nat, lo: nat, pages: seq<nat>, d: map<nat, Page>, d': map<nat, Page>)
    requires Zeroing(s, s', root, lo, pages, d, d')
    ensures Intact(s.role, d, d') && Grew(s, s', root, lo, pages, Repeat(USER_RWX, |pages|)) && Filled(d', pages, Repeat(ZeroPage(), |pages|))
  {
    assert Unfolded(0, s', pages);
  }

  lemma {:induction false} GrewNothing(s: State, root: nat, lo: nat)
    requires MemOk(s)
    ensures Grew(s, s, root, lo, [], [])
  {
    KeepsItself(s, root);
    RangeGrows(lo, 0);
    assert PageMap(lo, [], []) == map[] && PageSet([]) == {};
  }

  /** Outside the new pages nothing has moved. */
  lemma {:induction false} GrewFrame(s: State, s': State, root: nat, lo: nat, pages: seq<nat>, flags: seq<nat>, v: nat)
    requires Grew(s, s', root, lo, pages, flags) && v >= lo + |pages| && Root(root) in s.at
    ensures Pte(s', root, v) == Pte(s, root, v) && Root(root) in s'.at
  {
    assert AtKept(s, s', Root(root)) && !Within(v, lo, |pages|);
    assert PteMoved(s, s', root, PageMap(lo, pages, flags), root, v);
  }

  lemma {:induction false} GrewKeeps(s: State, s': State, s'': State, root: nat, lo: nat, pages: seq<nat>, flags: seq<nat>)
    requires Grew(s, s', root, lo, pages, flags) && Keeps(s', s'', root)
    ensures Grew(s, s'', root, lo, pages, flags)
  {
    ThenKeeps(s, s', s'', root, PageMap(lo, pages, flags), PageSet(pages));
    forall k | 0 <= k < |pages| ensures pages[k] in s''.role && s''.role[pages[k]] == UserPage(root, lo + k) {
      assert RoleKept(s', s'', root, {}, pages[k]);
    }
  }

  /** What stayed intact since `s` stays so when the next step leaves pages in use intact. */
  lemma {:induction false} GrewIntact(s: State, s': State, root: nat, lo: nat, pages: seq<nat>, flags: seq<nat>,
                                      d: map<nat, Page>, d': map<nat, Page>, d'': map<nat, Page>)
    requires Grew(s, s', root, lo, pages, flags) && Intact(s.role, d, d') && Intact(s'.role, d', d'')
    ensures Intact(s.role, d, d'')
    ensures forall k :: 0 <= k < |pages| && pages[k] in d' ==> pages[k] in d'' && d''[pages[k]] == d'[pages[k]]
  {
    forall p | p in d && p in s.role && s.role[p] != FreePage ensures p in d'' && d''[p] == d[p] {
      assert RoleKept(s, s', root, PageSet(pages), p);
    }
  }

  lemma {:induction false} GrewMore(s: State, s': State, s'': State, root: nat, lo: nat, pages: seq<nat>, flags: seq<nat>, p: nat, flag: nat)
    requires Grew(s, s', root, lo, pages, flags) && flag < 1024 && flag % 2 == 1
    requires Changes(s', s'', root, map[lo + |pages| := MakePte(p, flag)], {p})
    requires p in s'.role && s'.role[p] == FreePage && p in s''.role && s''.role[p] == UserPage(root, lo + |pages|)
    ensures Grew(s, s'', root, lo, pages + [p], flags + [flag])
  {
    var n := |pages|;
    PageMapGrows(lo, pages, flags, p, flag);
    PageSetGrows(pages, p);
    ChangesTwice(s, s', s'', root, PageMap(lo, pages, flags), PageSet(pages), map[lo + n := MakePte(p, flag)], {p});
    assert RoleKept(s, s', root, PageSet(pages), p);
    forall k | 0 <= k < n ensures pages[k] in s''.role && s''.role[pages[k]] == UserPage(root, lo + k) {
      assert RoleKept(s', s'', root, {p}, pages[k]);
    }
  }

  lemma {:induction false} GrewLeaf(s: State, s': State, root: nat, lo: nat, pages: seq<nat>, flags: seq<nat>, k: nat)
    requires Grew(s, s', root, lo, pages, flags) && k < |pages|
    ensures Pte(s', root, lo + k) == MakePte(pages[k], flags[k])
  {
    assert Within(lo + k, lo, |pages|);
    assert PteMoved(s, s', root, PageMap(lo, pages, flags), root, lo + k);
  }

  lemma {:induction false} FramesArePages(s: State, s': State, root: nat, lo: nat, pages: seq<nat>, flags: seq<nat>, k: nat)
    requires Grew(s, s', root, lo, pages, flags) && k <= |pages| && lo + |pages| <= TRAPFRAME
    ensures Frames(s', root, lo, k) == PageSet(pages[..k])
  {
    if k == 0 {
      assert PageSet(pages[..0]) == {};
    } else {
      FramesArePages(s, s', root, lo, pages, flags, k - 1);
      GrewFrees(s, s', root, lo, pages, flags, k - 1);
      FramesStep(s', root, lo, k - 1, pages);
    }
  }

  lemma {:induction false} GrewFrees(s: State, s': State, root: nat, lo: nat, pages: seq<nat>, flags: seq<nat>, k: nat)
    requires Grew(s, s', root, lo, pages, flags) && k < |pages| && lo + |pages| <= TRAPFRAME
    ensures Freeing(s', root, lo + k) == {pages[k]}
  {
    GrewLeaf(s, s', root, lo, pages, flags, k);
    FreeingIs(s', root, lo + k, pages[k], flags[k]);
  }

  lemma {:induction false} FreeingIs(s: State, root: nat, vpn: nat, p: nat, flags: nat)
    requires vpn < TRAPFRAME && flags < 1024 && Pte(s, root, vpn) == MakePte(p, flags)
    ensures Freeing(s, root, vpn) == {p}
  {
    MakePteParts(p, flags);
  }

  lemma {:induction false} FramesStep(s: State, root: nat, lo: nat, k: nat, pages: seq<nat>)
    requires k < |pages| && Frames(s, root, lo, k) == PageSet(pages[..k]) && Freeing(s, root, lo + k) == {pages[k]}
    ensures Frames(s, root, lo, k + 1) == PageSet(pages[..k + 1])
  {
    assert pages[..k + 1] == pages[..k] + [pages[k]];
    PageSetGrows(pages[..k], pages[k]);
  }

  /** Unmapping what was added restores every mapping and returns every page but tables. */
  lemma {:induction false} GrewUndone(s: State, s': State, s'': State, root: nat, lo: nat, pages: seq<nat>, flags: seq<nat>)
    requires MemOk(s) && Grew(s, s', root, lo, pages, flags) && lo + |pages| <= TRAPFRAME
    requires Changes(s', s'', root, Unmapped(lo, |pages|), Frames(s', root, lo, |pages|))
    requires StillFree(s'.role, s''.role, Frames(s', root, lo, |pages|))
    requires forall v :: lo <= v < lo + |pages| ==> !Valid(Pte(s, root, v))
    ensures Keeps(s, s'', root)
  {
    var n := |pages|;
    FramesArePages(s, s', root, lo, pages, flags, n);
    assert pages[..n] == pages;
    ChangesTwice(s, s', s'', root, PageMap(lo, pages, flags), PageSet(pages), Unmapped(lo, n), PageSet(pages));
    var m := PageMap(lo, pages, flags) + Unmapped(lo, n);
    forall v | v in m ensures m[v] == Pte(s, root, v) {
      assert v in Range(lo, n) && Within(v, lo, n);
      assert LeafOk(s, root, v);
    }
    ChangesLess(s, s'', root, m, PageSet(pages) + PageSet(pages));
  }

  lemma {:induction false} PoppedChanges(s: State, root: nat)
    requires MemOk(s) && s.free != []
    ensures Changes(s, Popped(s), root, map[], {s.free[0]})
    ensures s.free[0] in s.role && s.role[s.free[0]] == FreePage
  {
    PoppedOk(s);
    assert RoleOk(s, s.free[0]);
    forall r, v ensures PteMoved(s, Popped(s), root, map[], r, v) {}
  }

  lemma {:induction false} PushedChanges(s: State, p: nat, root: nat)
    requires MemOk(s) && p in s.role && s.role[p] == KernelPage
    ensures Changes(s, Pushed(s, p), root, map[], {p})
  {
    PushedOk(s, p);
    forall r, v ensures PteMoved(s, Pushed(s, p), root, map[], r, v) {}
  }

  lemma {:induction false} TakenBack(s: State, s1: State, s2: State, s3: State, root: nat, p: nat)
    requires Changes(s, s1, root, map[], {p}) && Keeps(s1, s2, root) && Changes(s2, s3, root, map[], {p})
    requires p in s.role && s.role[p] == FreePage && p in s3.role && s3.role[p] == FreePage
    ensures Keeps(s, s3, root)
  {
    ThenKeeps(s, s1, s2, root, map[], {p});
    ChangesTwice(s, s2, s3, root, map[], {p}, map[], {p});
    ChangesLess(s, s3, root, map[] + map[], {p} + {p});
  }

  /** The pages behind the `n` mappings from `vpn` that unmapping frees. */
  ghost function Frames(s: State, root: nat, vpn: nat, n: nat): set<nat> {
    if n == 0 then {} else Frames(s, root, vpn, n - 1) + Freeing(s, root, vpn + n - 1)
  }

  lemma {:induction false} UnmappedMore(s: State, s': State, s'': State, root: nat, vpn: nat, n: nat)
    requires Changes(s, s', root, Unmapped(vpn, n), Frames(s, root, vpn, n))
    requires Changes(s', s'', root, map[vpn + n := 0], Freeing(s', root, vpn + n))
    ensures Pte(s', root, vpn + n) == Pte(s, root, vpn + n)
    ensures Changes(s, s'', root, Unmapped(vpn, n + 1), Frames(s, root, vpn, n + 1))
  {
    RangeGrows(vpn, n);
    assert !Within(vpn + n, vpn, n);
    assert PteMoved(s, s', root, Unmapped(vpn, n), root, vpn + n);
    ChangesTwice(s, s', s'', root, Unmapped(vpn, n), Frames(s, root, vpn, n), map[vpn + n := 0], Freeing(s', root, vpn + n));
  }

  /** Free pages stay free, and `more` are free now. */
  ghost predicate StillFree(role: map<nat, Role>, role': map<nat, Role>, more: set<nat>) {
    && (forall p :: p in role && role[p] == FreePage ==> p in role' && role'[p] == FreePage)
    && (forall p :: p in more ==> p in role' && role'[p] == FreePage)
  }

  /** What makes `uvmunmap` panic: nothing mapped, or no permission but the valid bit. */
  predicate NoLeaf(pte: nat) { !Valid(pte) || PteFlags(pte) == PTE_V }

  ghost predicate Blocked(s: State, root: nat, vpn: nat) { vpn >= MAXVPN || NoLeaf(Pte(s, root, vpn)) }

  /** From `s` to `s'` the `a` pages from `vpn` on were unmapped and freed. */
  ghost predicate Unmapping(s: State, s': State, root: nat, vpn: nat, a: nat) {
    Changes(s, s', root, Unmapped(vpn, a), Frames(s, root, vpn, a)) && StillFree(s.role, s'.role, Frames(s, root, vpn, a))
  }

  ghost predicate NoneBlocked(s: State, root: nat, lo: nat, hi: nat) {
    forall v {:trigger Blocked(s, root, v)} :: lo <= v < hi ==> !Blocked(s, root, v)
  }

  /** The page that unmapping `vpn` frees. */
  ghost function Freeing(s: State, root: nat, vpn: nat): set<nat> {
    if vpn < TRAPFRAME then {Ppn(Pte(s, root, vpn))} else {}
  }

  ghost function UnmapState(s: State, root: nat, vpn: nat): State
    requires Reaches(s, root, vpn)
  {
    if vpn < TRAPFRAME then Pushed(Assign(s, root, vpn, 0, Ppn(Pte(s, root, vpn)), KernelPage), Ppn(Pte(s, root, vpn)))
    else SetLeaf(s, On(root, 0, vpn), vpn % ENTRIES, 0)
  }

  lemma {:induction false} UnmapChanges(s: State, root: nat, vpn: nat)
    requires MemOk(s) && Reaches(s, root, vpn) && Valid(Pte(s, root, vpn))
    ensures Changes(s, UnmapState(s, root, vpn), root, map[vpn := 0], Freeing(s, root, vpn))
  {
    var s' := UnmapState(s, root, vpn);
    if vpn < TRAPFRAME {
      var p := Ppn(Pte(s, root, vpn));
      UnmapUserOk(s, root, vpn);
      PushedOk(Assign(s, root, vpn, 0, p, KernelPage), p);
      forall r, v ensures PteMoved(s, s', root, map[vpn := 0], r, v) { AssignPte(s, root, vpn, 0, p, KernelPage, r, v); }
    } else {
      StorePteOk(s, root, vpn, 0);
      StoreChanges(s, root, vpn, 0);
    }
  }

  /** The page whose use changes when `p` is mapped at `vpn`. */
  ghost function Moving(vpn: nat, p: nat): set<nat> {
    if vpn < TRAPFRAME then {p} else {}
  }

  ghost predicate Within(v: nat, from: nat, n: nat) { from <= v < from + n }

  ghost function Range(from: nat, n: nat): set<nat> {
    set v: nat | from <= v < from + n && Within(v, from, n)
  }

  /** `n` pages from `vpn` mapped to the pages from `p`. */
  ghost function RangeMap(vpn: nat, n: nat, p: nat, flags: nat): map<nat, nat> {
    map v | v in Range(vpn, n) :: MakePte(p + v - vpn, flags)
  }

  /** `n` pages from `vpn` unmapped. */
  ghost function Unmapped(vpn: nat, n: nat): map<nat, nat> {
    map v | v in Range(vpn, n) :: 0
  }

  lemma {:induction false} RangeGrows(from: nat, n: nat)
    ensures Range(from, n + 1) == Range(from, n) + {from + n} && Range(from, 0) == {}
    ensures Unmapped(from, n + 1) == Unmapped(from, n) + map[from + n := 0] && Unmapped(from, 0) == map[]
  {
    forall v: nat ensures v in Range(from, n + 1) <==> v in Range(from, n) || v == from + n {
      assert Within(v, from, n + 1) <==> Within(v, from, n) || v == from + n;
    }
  }

  lemma {:induction false} RangeMapGrows(vpn: nat, n: nat, p: nat, flags: nat)
    ensures RangeMap(vpn, n + 1, p, flags) == RangeMap(vpn, n, p, flags) + map[vpn + n := MakePte(p + n, flags)]
    ensures RangeMap(vpn, 0, p, flags) == map[]
  {
    RangeGrows(vpn, n);
  }

  lemma {:induction false} NothingMapped(s: State, root: nat, vpn: nat, p: nat, flags: nat)
    requires MemOk(s)
    ensures Changes(s, s, root, RangeMap(vpn, 0, p, flags), Range(p, 0)) && Changes(s, s, root, Unmapped(vpn, 0), {})
  {
    RangeGrows(p, 0);
    RangeGrows(vpn, 0);
    RangeMapGrows(vpn, 0, p, flags);
    KeepsItself(s, root);
  }

  lemma {:induction false} MappedMore(s: State, s': State, s'': State, root: nat, vpn: nat, n: nat, p: nat, flags: nat)
    requires Changes(s, s', root, RangeMap(vpn, n, p, flags), Range(p, n))
    requires Changes(s', s'', root, map[vpn + n := MakePte(p + n, flags)], {p + n})
    ensures Changes(s, s'', root, RangeMap(vpn, n + 1, p, flags), Range(p, n + 1))
  {
    RangeMapGrows(vpn, n, p, flags);
    RangeGrows(p, n);
    ChangesTwice(s, s', s'', root, RangeMap(vpn, n, p, flags), Range(p, n), map[vpn + n := MakePte(p + n, flags)], {p + n});
  }

  datatype MapResult = Mapped | OutOfMemory | MapPanic

  /** `perm | PTE_V`. */
  function WithV(perm: nat): (f: nat)
    requires perm < 1024
    ensures f < 1024 && f % 2 == 1
  {
    if perm % 2 == 1 then perm else perm + 1
  }

  ghost function MapPageState(s: State, root: nat, vpn: nat, p: nat, flags: nat): State
    requires Reaches(s, root, vpn)
  {
    if vpn < TRAPFRAME then Assign(s, root, vpn, MakePte(p, flags), p, UserPage(root, vpn))
    else SetLeaf(s, On(root, 0, vpn), vpn % ENTRIES, MakePte(p, flags))
  }

  lemma {:induction false} MapPageChanges(s: State, root: nat, vpn: nat, p: nat, flags: nat)
    requires MemOk(s) && Reaches(s, root, vpn) && !Valid(Pte(s, root, vpn)) && flags < 1024 && flags % 2 == 1
    requires vpn < TRAPFRAME ==> p in s.role && s.role[p] == KernelPage
    ensures Changes(s, MapPageState(s, root, vpn, p, flags), root, map[vpn := MakePte(p, flags)], Moving(vpn, p))
  {
    var pte := MakePte(p, flags);
    var s' := MapPageState(s, root, vpn, p, flags);
    if vpn < TRAPFRAME {
      MapUserOk(s, root, vpn, p, flags);
      forall r, v ensures PteMoved(s, s', root, map[vpn := pte], r, v) { AssignPte(s, root, vpn, pte, p, UserPage(root, vpn), r, v); }
      forall x ensures AtKept(s, s', x) {}
      forall q ensures RoleKept(s, s', root, {p}, q) {}
    } else {
      MakePteParts(p, flags);
      StorePteOk(s, root, vpn, pte);
      StoreChanges(s, root, vpn, pte);
    }
  }

  lemma {:induction false} NoTableBelow(s: State, root: nat, level: nat, vpn: nat)
    requires Tree(s) && 0 < level <= 2 && On(root, level - 1, vpn) !in s.at
    ensures On(root, 0, vpn) !in s.at
  {
    assert PosOk(s, On(root, 0, vpn));
    assert Parent(On(root, 0, vpn)) == On(root, 1, vpn);
  }

  // ---------------------------------------------------------------------------
  // Freeing the tables of a tree

  /** Like `EntryOk`, except that entries pointing to the positions `holes` may dangle. */
  ghost predicate EntryH(s: State, holes: set<Pos>, x: Pos, i: nat) {
    (0 < x.level && Child(x, i) in holes) || EntryOk(s, x, i)
  }

  ghost predicate MemH(s: State, holes: set<Pos>) {
    && (forall p {:trigger PageOk(s, p)} :: PageOk(s, p))
    && (forall x {:trigger PosOk(s, x)} :: PosOk(s, x))
    && (forall x, i {:trigger EntryH(s, holes, x, i)} :: EntryH(s, holes, x, i))
    && 0 !in s.role && (forall i, j :: 0 <= i < j < |s.free| ==> s.free[i] != s.free[j])
    && (forall p {:trigger RoleOk(s, p)} :: RoleOk(s, p))
    && (forall r, v {:trigger LeafOk(s, r, v)} :: LeafOk(s, r, v))
  }

  lemma {:induction false} HolesOpen(s: State, holes: set<Pos>)
    requires MemOk(s)
    ensures MemH(s, holes)
  {
    forall x: Pos, i: nat ensures EntryH(s, holes, x, i) { assert EntryOk(s, x, i); }
  }

  lemma {:induction false} HolesClose(s: State, root: nat)
    requires MemH(s, {Root(root)})
    ensures MemOk(s)
  {
    forall x: Pos, i: nat ensures EntryOk(s, x, i) {
      assert EntryH(s, {Root(root)}, x, i) && PosOk(s, x);
    }
  }

  /** The table at `x` goes back to the free list. */
  ghost function Dropped(s: State, x: Pos): State
    requires x in s.at
  {
    s.(tab := s.tab - {s.at[x]}, free := [s.at[x]] + s.free, pos := s.pos - {s.at[x]}, at := s.at - {x}, role := s.role[s.at[x] := FreePage])
  }

  /** The table at `x` is empty and has no tables below it. */
  ghost predicate Bare(s: State, x: Pos) {
    && x in s.at && x.level <= 2
    && (forall i :: 0 <= i < ENTRIES && 0 < x.level ==> Child(x, i) !in s.at)
    && (forall v {:trigger Pte(s, x.root, v)} :: Pte(s, x.root, v) == 0)
  }

  lemma {:induction false} DroppedPte(s: State, holes: set<Pos>, x: Pos, r: nat, v: nat)
    requires MemH(s, holes) && Bare(s, x)
    ensures Pte(Dropped(s, x), r, v) == Pte(s, r, v)
  {
    assert PosOk(s, x) && PosOk(s, On(r, 0, v));
    assert Pte(s, x.root, v) == 0;
  }

  lemma {:induction false} ChildOfParent(y: Pos)
    ensures y == Child(Parent(y), y.prefix % ENTRIES)
  {
  }

  lemma {:induction false} DroppedOk(s: State, holes: set<Pos>, x: Pos)
    requires MemH(s, holes) && Bare(s, x) && x in holes
    ensures MemH(Dropped(s, x), holes)
  {
    var s', t := Dropped(s, x), s.at[x];
    assert PosOk(s, x) && RoleOk(s, t);
    forall p ensures PageOk(s', p) { assert PageOk(s, p); }
    forall y ensures PosOk(s', y) {
      assert PosOk(s, y);
      ChildOfParent(y);
    }
    forall y: Pos, i: nat ensures EntryH(s', holes, y, i) { assert EntryH(s, holes, y, i) && PosOk(s, y); }
    forall p ensures RoleOk(s', p) {
      assert RoleOk(s, p);
      if p in s.role && s.role[p].UserPage? { DroppedPte(s, holes, x, s.role[p].root, s.role[p].vpn); }
    }
    forall r, v ensures LeafOk(s', r, v) {
      assert LeafOk(s, r, v);
      DroppedPte(s, holes, x, r, v);
    }
  }

  /** Clearing the entry of a child that is gone closes its hole. */
  lemma {:induction false} ClearedOk(s: State, holes: set<Pos>, x: Pos, i: nat)
    requires x in s.at && 0 < x.level && i < ENTRIES && s.at[x] in s.tab && MemH(s, holes + {Child(x, i)}) && Child(x, i) !in s.at
    ensures MemH(SetLeaf(s, x, i, 0), holes)
  {
    var s' := SetLeaf(s, x, i, 0);
    assert PosOk(s, x);
    forall p ensures PageOk(s', p) { assert PageOk(s, p); }
    forall y ensures PosOk(s', y) { assert PosOk(s, y); }
    forall y: Pos, j: nat ensures EntryH(s', holes, y, j) {
      assert EntryH(s, holes + {Child(x, i)}, y, j) && PosOk(s, y);
      ClearedEntry(s, holes, x, i, y, j);
    }
    forall p ensures RoleOk(s', p) {
      assert RoleOk(s, p) && RoleOk(s, s.at[x]);
      if p in s.role && s.role[p].UserPage? { assert PosOk(s, On(s.role[p].root, 0, s.role[p].vpn)); ClearedPte(s, x, i, s.role[p].root, s.role[p].vpn); }
    }
    forall r, v ensures LeafOk(s', r, v) {
      assert LeafOk(s, r, v) && PosOk(s, On(r, 0, v));
      ClearedPte(s, x, i, r, v);
    }
  }

  lemma {:induction false} ClearedEntry(s: State, holes: set<Pos>, x: Pos, i: nat, y: Pos, j: nat)
    requires x in s.at && 0 < x.level && i < ENTRIES && s.at[x] in s.tab && Child(x, i) !in s.at && PosOk(s, x) && PosOk(s, y)
    requires EntryH(s, holes + {Child(x, i)}, y, j)
    ensures EntryH(SetLeaf(s, x, i, 0), holes, y, j)
  {
    if 0 < y.level && j < ENTRIES && Child(y, j) == Child(x, i) {
      ParentOfChild(x, i);
      ParentOfChild(y, j);
      assert y == x && j == i;
    }
  }

  lemma {:induction false} ClearedPte(s: State, x: Pos, i: nat, r: nat, v: nat)
    requires x in s.at && 0 < x.level && i < ENTRIES && s.at[x] in s.tab && PosOk(s, x) && PosOk(s, On(r, 0, v))
    ensures Pte(SetLeaf(s, x, i, 0), r, v) == Pte(s, r, v)
  {
  }

  ghost predicate RoleFreed(s: State, s': State, gone: set<Pos>, p: nat) {
    p in s.role ==> p in s'.role && s'.role[p] == if p in s.tab && p in s.pos && s.pos[p] in gone then FreePage else s.role[p]
  }

  ghost predicate PteKept(s: State, s': State, r: nat, v: nat) {
    Pte(s', r, v) == Pte(s, r, v)
  }

  /** From `s` to `s'` exactly the tables at `gone` went back to the free list. */
  ghost predicate TablesFreed(s: State, s': State, gone: set<Pos>) {
    && s'.at == s.at - gone && s'.role.Keys == s.role.Keys
    && (forall p {:trigger RoleFreed(s, s', gone, p)} :: RoleFreed(s, s', gone, p))
    && (forall r, v {:trigger PteKept(s, s', r, v)} :: PteKept(s, s', r, v))
  }

  lemma {:induction false} TablesFreedTwice(s: State, holes: set<Pos>, s': State, holes': set<Pos>, s'': State, gone: set<Pos>, gone': set<Pos>)
    requires MemH(s, holes) && MemH(s', holes') && TablesFreed(s, s', gone) && TablesFreed(s', s'', gone') && gone' <= s'.at.Keys
    ensures TablesFreed(s, s'', gone + gone')
  {
    assert s''.at == s.at - (gone + gone');
    forall p ensures RoleFreed(s, s'', gone + gone', p) {
      assert RoleFreed(s, s', gone, p) && RoleFreed(s', s'', gone', p) && RoleOk(s, p) && RoleOk(s', p) && PageOk(s, p) && PageOk(s', p);
      if p in s'.tab {
        assert PosOk(s', s'.pos[p]) && PosOk(s, s'.pos[p]);
      }
    }
    forall r, v ensures PteKept(s, s'', r, v) { assert PteKept(s, s', r, v) && PteKept(s', s'', r, v); }
  }

  lemma {:induction false} DroppedFrees(s: State, holes: set<Pos>, x: Pos)
    requires MemH(s, holes) && Bare(s, x)
    ensures TablesFreed(s, Dropped(s, x), {x})
  {
    var s' := Dropped(s, x);
    assert PosOk(s, x) && RoleOk(s, s.at[x]);
    forall p ensures RoleFreed(s, s', {x}, p) { assert PageOk(s, p); }
    forall r, v ensures PteKept(s, s', r, v) { DroppedPte(s, holes, x, r, v); }
  }

  lemma {:induction false} ClearedFrees(s: State, holes: set<Pos>, x: Pos, i: nat)
    requires x in s.at && 0 < x.level && i < ENTRIES && s.at[x] in s.tab && MemH(s, holes)
    ensures TablesFreed(s, SetLeaf(s, x, i, 0), {})
  {
    var s' := SetLeaf(s, x, i, 0);
    assert PosOk(s, x);
    forall p ensures RoleFreed(s, s', {}, p) {}
    forall r, v ensures PteKept(s, s', r, v) { assert PosOk(s, On(r, 0, v)); }
  }

  // ---------------------------------------------------------------------------
  // Conservation: a tree that is built and torn down

  /** Page `p` of the allocator, taken by nobody yet, becomes an empty tree. */
  ghost function NewRoot(s: State, p: nat): State {
    s.(tab := s.tab[p := ZeroTable()], pos := s.pos[p := Root(p)], at := s.at[Root(p) := p], role := s.role[p := TablePage])
  }

  ghost predicate InTree(s: State, root: nat, p: nat) {
    p in s.role && s.role[p].UserPage? && s.role[p].root == root
  }

  /** Page `p` is free or belongs to the tree `root`. */
  ghost predicate Mine(s: State, root: nat, p: nat) {
    p in s.role && (s.role[p] == FreePage || TableOf(s, root, p) || InTree(s, root, p))
  }

  ghost predicate LocalRole(s: State, s': State, root: nat, p: nat) {
    p in s.role && p in s'.role ==> (Mine(s, root, p) <==> Mine(s', root, p)) && (!Mine(s, root, p) ==> s'.role[p] == s.role[p])
  }

  ghost predicate OtherPte(s: State, s': State, root: nat, r: nat, v: nat) {
    r != root ==> Pte(s', r, v) == Pte(s, r, v)
  }

  /** Between `s` and `s'` pages moved only between the free list and the tree `root`. */
  ghost predicate Local(s: State, s': State, root: nat) {
    && s'.role.Keys == s.role.Keys
    && (forall p {:trigger LocalRole(s, s', root, p)} :: LocalRole(s, s', root, p))
    && (forall r, v {:trigger OtherPte(s, s', root, r, v)} :: OtherPte(s, s', root, r, v))
  }

  /** The tree `root` maps nothing. */
  ghost predicate NoMapping(s: State, root: nat) {
    forall v {:trigger Pte(s, root, v)} :: Pte(s, root, v) == 0
  }

  lemma {:induction false} NewRootTree(s: State, p: nat)
    requires MemOk(s) && p in s.role && s.role[p] == KernelPage
    ensures Tree(NewRoot(s, p)) && p !in s.tab && NoMapping(s, p)
  {
    var s' := NewRoot(s, p);
    assert RoleOk(s, p) && PosOk(s, Root(p));
    forall v ensures Pte(s, p, v) == 0 { NoRootNoTable(s, p, v); }
    forall q ensures PageOk(s', q) { assert PageOk(s, q); }
    forall x ensures PosOk(s', x) { assert PosOk(s, x); }
    forall x: Pos, i: nat ensures EntryOk(s', x, i) {
      assert EntryOk(s, x, i) && PosOk(s, x);
      if x == Root(p) && i < ENTRIES {
        ParentOfChild(x, i);
        assert PosOk(s, Child(x, i));
      }
    }
  }

  lemma {:induction false} NoRootNoTable(s: State, root: nat, v: nat)
    requires Tree(s) && Root(root) !in s.at
    ensures On(root, 0, v) !in s.at && Pte(s, root, v) == 0
  {
    NoPosition(s, root, On(root, 0, v));
  }

  lemma {:induction false} NoPosition(s: State, root: nat, x: Pos)
    requires Tree(s) && Root(root) !in s.at && x.root == root
    ensures x !in s.at
  {
    assert PosOk(s, x) && PosOk(s, Parent(x)) && PosOk(s, Parent(Parent(x)));
  }

  lemma {:induction false} NewRootOk(s: State, p: nat)
    requires MemOk(s) && p in s.role && s.role[p] == KernelPage
    ensures MemOk(NewRoot(s, p)) && NoMapping(NewRoot(s, p), p)
    ensures forall r, v :: Pte(NewRoot(s, p), r, v) == Pte(s, r, v)
  {
    var s' := NewRoot(s, p);
    NewRootTree(s, p);
    forall r, v ensures Pte(s', r, v) == Pte(s, r, v) { assert PosOk(s, On(r, 0, v)); }
    forall q ensures RoleOk(s', q) { assert RoleOk(s, q); }
    forall r, v ensures LeafOk(s', r, v) { assert LeafOk(s, r, v); }
  }

  lemma {:induction false} LocalCreate(s: State)
    requires MemOk(s) && s.free != []
    ensures var s', p := NewRoot(Popped(s), s.free[0]), s.free[0];
            MemOk(s') && Local(s, s', p) && NoMapping(s', p) && Root(p) !in s.at
  {
    var p := s.free[0];
    PoppedOk(s);
    NewRootOk(Popped(s), p);
    var s' := NewRoot(Popped(s), p);
    assert RoleOk(s, p) && PosOk(s, Root(p));
    forall q ensures LocalRole(s, s', p, q) {}
    forall r, v ensures OtherPte(s, s', p, r, v) { assert Pte(s', r, v) == Pte(Popped(s), r, v); }
  }

  /** The pages that a change moves are free or in the tree, before and after. */
  ghost predicate MovedLocally(s: State, s': State, root: nat, moved: set<nat>) {
    forall p :: p in moved ==> Mine(s, root, p) && Mine(s', root, p)
  }

  lemma {:induction false} LocalChanges(s: State, s': State, root: nat, m: map<nat, nat>, moved: set<nat>)
    requires MemOk(s) && Changes(s, s', root, m, moved) && MovedLocally(s, s', root, moved)
    ensures Local(s, s', root)
  {
    forall p ensures LocalRole(s, s', root, p) {
      assert RoleKept(s, s', root, moved, p) && PageOk(s, p) && RoleOk(s, p);
      if p in s.tab { assert AtKept(s, s', s.pos[p]) && PosOk(s', s.pos[p]) && PosOk(s, s.pos[p]); }
    }
    forall r, v ensures OtherPte(s, s', root, r, v) { assert PteMoved(s, s', root, m, r, v); }
  }

  lemma {:induction false} LocalFreed(s: State, s': State, root: nat, gone: set<Pos>)
    requires MemOk(s) && MemOk(s') && TablesFreed(s, s', gone) && forall y :: y in gone ==> y.root == root
    ensures Local(s, s', root)
  {
    forall p ensures LocalRole(s, s', root, p) {
      assert RoleFreed(s, s', gone, p) && PageOk(s, p) && RoleOk(s, p) && RoleOk(s', p) && PageOk(s', p);
      if p in s'.tab { assert PosOk(s, s'.pos[p]); }
    }
    forall r, v ensures OtherPte(s, s', root, r, v) { assert PteKept(s, s', r, v); }
  }

  lemma {:induction false} LocalTwice(s: State, s': State, s'': State, root: nat)
    requires Local(s, s', root) && Local(s', s'', root)
    ensures Local(s, s'', root)
  {
    forall p ensures LocalRole(s, s'', root, p) { assert LocalRole(s, s', root, p) && LocalRole(s', s'', root, p); }
    forall r, v ensures OtherPte(s, s'', root, r, v) { assert OtherPte(s, s', root, r, v) && OtherPte(s', s'', root, r, v); }
  }

  /** Without a tree `root`, the pages that are its own are the free ones. */
  lemma {:induction false} NoTreeMine(s: State, root: nat, p: nat)
    requires MemOk(s) && Root(root) !in s.at && p in s.role
    ensures Mine(s, root, p) <==> s.role[p] == FreePage
  {
    assert RoleOk(s, p) && PageOk(s, p);
    if TableOf(s, root, p) { NoPosition(s, root, s.pos[p]); }
    if InTree(s, root, p) { NoRootNoTable(s, root, s.role[p].vpn); }
  }

  /** A tree that came and went leaves every page and every mapping as it was. */
  lemma {:induction false} LocalGone(s: State, s': State, root: nat)
    requires MemOk(s) && MemOk(s') && Local(s, s', root) && Root(root) !in s.at && Root(root) !in s'.at
    ensures s'.role == s.role && SamePtes(s, s')
  {
    forall p | p in s.role ensures s'.role[p] == s.role[p] {
      assert LocalRole(s, s', root, p);
      NoTreeMine(s, root, p);
      NoTreeMine(s', root, p);
    }
    forall r, v ensures PteKept(s, s', r, v) {
      assert OtherPte(s, s', root, r, v);
      if r == root {
        NoRootNoTable(s, root, v);
        NoRootNoTable(s', root, v);
      }
    }
  }
}
