/** `fork`, `exit` and `wait` (kernel/proc.c): every interleaving, with the scans of `wait` and `reparent`
    taken one process at a time and `parent` read without a lock, as the code does.  A process that
    can run or runs is `Active`; which CPU runs it is the scheduler's affair. */
module WaitExit {
  import opened Options

  datatype ProcState = Unused | Active | Sleeping | Zombie

  /** Process 0 is init. */
  const INIT: nat := 0

  datatype Pc =
    | Gone                        // slot unused
    | Free                        // elsewhere in user or kernel code, holding no process lock
    | Elsewhere                   // asleep on some other channel
    | ExitWakeInit                // in exit, about to wake init
    | ExitParent                  // about to read its parent
    | ExitLockParent(par: nat)    // at acquire(&original_parent->lock)
    | ExitLockSelf(par: nat)      // holds that lock, at acquire(&p->lock)
    | Reparent(par: nat, i: nat)  // holds both, at process i in reparent
    | Adopt(par: nat, i: nat)     // saw that i is its child, at acquire(&i->lock)
    | Dying                       // a zombie, p->lock not yet released by the scheduler
    | Dead                        // a zombie off the CPU
    | WaitLock                    // in wait, at acquire(&p->lock)
    | WaitScan(i: nat, kids: bool)  // holds p->lock, at process i
    | WaitChild(i: nat)           // saw that i is its child, at acquire(&i->lock)
    | WaitSlept                   // state set, p->lock not yet released by the scheduler
    | WaitAsleep                  // off the CPU, in the sleep of wait

  /** `own[p]` is the holder of `p->lock`; `inWait[p]` says that `p->chan` is `p`; `adopted[p]` records
      that `reparent` gave `p` to init. */
  datatype State = State(pc: seq<Pc>, st: seq<ProcState>, inWait: seq<bool>, parent: seq<Option<nat>>, own: seq<Option<nat>>,
                         adopted: seq<bool>)

  ghost predicate Sized(s: State) {
    |s.st| == |s.inWait| == |s.parent| == |s.own| == |s.adopted| == |s.pc|
  }

  // ---------------------------------------------------------------------------
  // Invariant

  /** The original parent that a process in `exit` noted. */
  ghost function Noted(pc: Pc): Option<nat> {
    match pc
    case ExitLockParent(par) => Some(par)
    case ExitLockSelf(par) => Some(par)
    case Reparent(par, _) => Some(par)
    case Adopt(par, _) => Some(par)
    case _ => None
  }

  ghost predicate HoldsSelf(pc: Pc) {
    pc.Reparent? || pc.Adopt? || pc.Dying? || pc.WaitScan? || pc.WaitChild? || pc.WaitSlept?
  }

  ghost predicate HoldsParent(pc: Pc) {
    pc.ExitLockSelf? || pc.Reparent? || pc.Adopt?
  }

  ghost predicate ProcOk(s: State, p: nat)
    requires Sized(s)
  {
    p < |s.pc| ==>
      && (s.st[p] == Unused <==> s.pc[p].Gone?)
      && (s.st[p] == Zombie <==> s.pc[p].Dying? || s.pc[p].Dead?)
      && (s.st[p] == Sleeping ==> s.pc[p].Elsewhere? || s.pc[p].WaitSlept? || s.pc[p].WaitAsleep?)
      && (s.pc[p].WaitSlept? || s.pc[p].WaitAsleep? ==> s.inWait[p])
      && (s.inWait[p] ==> s.pc[p].WaitSlept? || s.pc[p].WaitAsleep?)
      && (HoldsSelf(s.pc[p]) ==> s.own[p] == Some(p))
      && (Noted(s.pc[p]).Some? ==> Noted(s.pc[p]).value < |s.pc| && (s.parent[p] == Noted(s.pc[p]) || (s.parent[p] == Some(INIT) && s.adopted[p])))
      && (HoldsParent(s.pc[p]) ==> s.own[Noted(s.pc[p]).value] == Some(p))
      && (s.pc[p].Reparent? || s.pc[p].Adopt? ==> s.pc[p].par != p)
      && (s.parent[p].Some? ==> s.parent[p].value < |s.pc|)
  }

  /** How far the children of `p` are dealt with when `p` may rely on it. */
  ghost function Cleared(pc: Pc, n: nat): nat {
    if pc.Reparent? || pc.Adopt? then pc.i else if pc.Dying? || pc.Dead? || pc.Gone? then n else 0
  }

  /** A process that exits has given its children away up to the place of its scan. */
  ghost predicate GivenAway(s: State, p: nat, q: nat)
    requires Sized(s)
  {
    p < |s.pc| && q < |s.pc| && q < Cleared(s.pc[p], |s.pc|) ==> s.parent[q] != Some(p)
  }

  /** How far a process in `wait` has seen that its children are not zombies. */
  ghost function Seen(s: State, p: nat): nat
    requires Sized(s) && p < |s.pc|
  {
    match s.pc[p]
    case WaitScan(i, _) => i
    case WaitChild(i) => i
    case WaitSlept => if s.st[p] == Sleeping then |s.pc| else 0
    case WaitAsleep => if s.st[p] == Sleeping then |s.pc| else 0
    case _ => 0
  }

  /** The heart: no child that a process in `wait` has passed is a zombie. */
  ghost predicate NoZombieSeen(s: State, p: nat, q: nat)
    requires Sized(s)
  {
    p < |s.pc| && q < |s.pc| && (p != INIT || !s.adopted[q]) && q < Seen(s, p) && s.parent[q] == Some(p) ==> s.st[q] != Zombie
  }

  ghost predicate Inv(s: State) {
    && Sized(s) && INIT < |s.pc| && !Exiting(s.pc[INIT])
    && (forall p {:trigger ProcOk(s, p)} :: ProcOk(s, p))
    && (forall p, q {:trigger GivenAway(s, p, q)} :: GivenAway(s, p, q))
    && (forall p, q {:trigger NoZombieSeen(s, p, q)} :: NoZombieSeen(s, p, q))
  }

  /** `exit` panics if init calls it, so init is never there. */
  ghost predicate Exiting(pc: Pc) {
    pc.ExitWakeInit? || pc.ExitParent? || Noted(pc).Some? || pc.Dying? || pc.Dead? || pc.Gone?
  }

  /** Only init runs. */
  ghost predicate Init(s: State) {
    && Sized(s) && INIT < |s.pc|
    && forall p :: 0 <= p < |s.pc| ==>
         && s.pc[p] == (if p == INIT then Free else Gone) && s.st[p] == (if p == INIT then Active else Unused)
         && !s.inWait[p] && s.parent[p].None? && s.own[p].None?
  }

  // ---------------------------------------------------------------------------
  // The steps

  datatype Step =
    | Fork(p: nat, q: nat)
    | Sleep(p: nat)              // some other sleep
    | Exit(p: nat)               // call exit
    | Wait(p: nat)               // call wait
    | Go(p: nat, fails: bool)    // the next step; `fails`: copyout fails, or p was killed
    | Wake(p: nat)               // some other wakeup, or kill
    | Resume(p: nat)             // the scheduler runs a woken process

  ghost predicate Enabled(s: State, e: Step)
    requires Sized(s)
  {
    && e.p < |s.pc|
    && var pc := s.pc[e.p];
       match e
       case Fork(p, q) => pc.Free? && q < |s.pc| && s.own[q].None? && s.st[q] == Unused
       case Sleep(p) => pc.Free? && s.own[p].None?
       case Exit(p) => pc.Free? && p != INIT
       case Wait(p) => pc.Free?
       case Wake(p) => s.own[p].None? && s.st[p] == Sleeping
       case Resume(p) => (pc.Elsewhere? || pc.WaitAsleep?) && s.st[p] == Active && s.own[p].None?
       case Go(p, fails) =>
         match pc
         case ExitWakeInit => INIT < |s.pc| && s.own[INIT].None?
         case ExitParent => s.own[p].None? && s.parent[p].Some?
         case ExitLockParent(par) => par < |s.pc| && s.own[par].None?
         case ExitLockSelf(par) => s.own[p].None?
         case Reparent(par, i) => par < |s.pc|
         case Adopt(par, i) => i < |s.pc| && s.own[i].None?
         case Dying => true
         case WaitLock => s.own[p].None?
         case WaitScan(i, kids) => true
         case WaitChild(i) => i < |s.pc| && s.own[i].None?
         case WaitSlept => true
         case _ => false
  }

  /** `wakeup1` */
  ghost function Wakeup1(s: State, p: nat): seq<ProcState>
    requires Sized(s) && p < |s.pc|
  {
    if s.inWait[p] && s.st[p] == Sleeping then s.st[p := Active] else s.st
  }

  /** The next step of `exit`. */
  ghost function ExitStep(s: State, p: nat): (r: State)
    requires Sized(s) && Enabled(s, Go(p, false)) && Exiting(s.pc[p])
  {
    match s.pc[p]
    case ExitWakeInit => s.(st := Wakeup1(s, INIT), pc := s.pc[p := ExitParent])
    case ExitParent => s.(pc := s.pc[p := ExitLockParent(s.parent[p].value)])
    case ExitLockParent(par) => s.(own := s.own[par := Some(p)], pc := s.pc[p := ExitLockSelf(par)])
    case ExitLockSelf(par) => s.(own := s.own[p := Some(p)], pc := s.pc[p := Reparent(par, 0)])
    case Reparent(par, i) =>
      if i >= |s.pc| then s.(st := Wakeup1(s, par)[p := Zombie], own := s.own[par := None], pc := s.pc[p := Dying])
      else if s.parent[i] == Some(p) then s.(pc := s.pc[p := Adopt(par, i)])
      else s.(pc := s.pc[p := Reparent(par, i + 1)])
    case Adopt(par, i) => s.(parent := s.parent[i := Some(INIT)], adopted := s.adopted[i := true], pc := s.pc[p := Reparent(par, i + 1)])
    case Dying => s.(own := s.own[p := None], pc := s.pc[p := Dead])
  }

  /** The next step of `wait`. */
  ghost function WaitStep(s: State, p: nat, fails: bool): (r: State)
    requires Sized(s) && Enabled(s, Go(p, fails)) && !Exiting(s.pc[p])
  {
    match s.pc[p]
    case WaitLock => s.(own := s.own[p := Some(p)], pc := s.pc[p := WaitScan(0, false)])
    case WaitScan(i, kids) =>
      if i < |s.pc| && s.parent[i] == Some(p) then s.(pc := s.pc[p := WaitChild(i)])
      else if i < |s.pc| then s.(pc := s.pc[p := WaitScan(i + 1, kids)])
      else if !kids || fails then s.(own := s.own[p := None], pc := s.pc[p := Free])
      else s.(st := s.st[p := Sleeping], inWait := s.inWait[p := true], pc := s.pc[p := WaitSlept])
    case WaitChild(i) =>
      if s.st[i] != Zombie then s.(pc := s.pc[p := WaitScan(i + 1, true)])
      else if fails then s.(own := s.own[p := None], pc := s.pc[p := Free])
      else s.(st := s.st[i := Unused], parent := s.parent[i := None], own := s.own[p := None], pc := s.pc[i := Gone][p := Free])
    case WaitSlept => s.(own := s.own[p := None], pc := s.pc[p := WaitAsleep])
  }

  ghost function Do(s: State, e: Step): (r: State)
    requires Sized(s) && Enabled(s, e)
  {
    match e
    case Fork(p, q) => s.(st := s.st[q := Active], parent := s.parent[q := Some(p)], adopted := s.adopted[q := false], pc := s.pc[q := Free])
    case Sleep(p) => s.(st := s.st[p := Sleeping], pc := s.pc[p := Elsewhere])
    case Exit(p) => s.(pc := s.pc[p := ExitWakeInit])
    case Wait(p) => s.(pc := s.pc[p := WaitLock])
    case Wake(p) => s.(st := s.st[p := Active])
    case Resume(p) =>
      if s.pc[p].Elsewhere? then s.(pc := s.pc[p := Free])
      else s.(inWait := s.inWait[p := false], own := s.own[p := Some(p)], pc := s.pc[p := WaitScan(0, false)])
    case Go(p, fails) => if Exiting(s.pc[p]) then ExitStep(s, p) else WaitStep(s, p, fails)
  }

  // ---------------------------------------------------------------------------
  // Every step keeps the invariant

  /** `exit` wakes init and notes its parent. */
  lemma {:induction false} NotingKeeps(s: State, p: nat)
    requires Inv(s) && Enabled(s, Go(p, false)) && Exiting(s.pc[p]) && (s.pc[p].ExitWakeInit? || s.pc[p].ExitParent?)
    ensures Inv(ExitStep(s, p))
  {
    var s' := ExitStep(s, p);
    assert ProcOk(s, p);
    forall q ensures ProcOk(s', q) { assert ProcOk(s, q); }
    forall q, r ensures GivenAway(s', q, r) { assert GivenAway(s, q, r); }
    forall q, r ensures NoZombieSeen(s', q, r) { assert NoZombieSeen(s, q, r) && ProcOk(s, q); }
  }

  /** `exit` locks the parent it noted. */
  lemma {:induction false} LockParentKeeps(s: State, p: nat)
    requires Inv(s) && Enabled(s, Go(p, false)) && Exiting(s.pc[p]) && s.pc[p].ExitLockParent?
    ensures Inv(ExitStep(s, p))
  {
    var s' := ExitStep(s, p);
    assert ProcOk(s, p);
    forall q ensures ProcOk(s', q) { assert ProcOk(s, q); }
    forall q, r ensures GivenAway(s', q, r) { assert GivenAway(s, q, r); }
    forall q, r ensures NoZombieSeen(s', q, r) { assert NoZombieSeen(s, q, r) && ProcOk(s, q); }
  }

  /** `exit` locks itself. */
  lemma {:induction false} LockSelfKeeps(s: State, p: nat)
    requires Inv(s) && Enabled(s, Go(p, false)) && Exiting(s.pc[p]) && s.pc[p].ExitLockSelf?
    ensures Inv(ExitStep(s, p))
  {
    var s' := ExitStep(s, p);
    assert ProcOk(s, p);
    forall q ensures ProcOk(s', q) { assert ProcOk(s, q); }
    forall q, r ensures GivenAway(s', q, r) { assert GivenAway(s, q, r); }
    forall q, r ensures NoZombieSeen(s', q, r) { assert NoZombieSeen(s, q, r) && ProcOk(s, q); }
  }

  /** A step of the scan of `reparent`. */
  lemma {:induction false} ReparentKeeps(s: State, p: nat)
    requires Inv(s) && Enabled(s, Go(p, false)) && Exiting(s.pc[p]) && s.pc[p].Reparent? && s.pc[p].i < |s.pc|
    ensures Inv(ExitStep(s, p))
  {
    var s' := ExitStep(s, p);
    assert ProcOk(s, p);
    forall q ensures ProcOk(s', q) { assert ProcOk(s, q); }
    forall q, r ensures GivenAway(s', q, r) { assert GivenAway(s, q, r); }
    forall q, r ensures NoZombieSeen(s', q, r) { ReparentSees(s, p, q, r); }
  }

  lemma {:induction false} ReparentSees(s: State, p: nat, q: nat, r: nat)
    requires Inv(s) && Enabled(s, Go(p, false)) && Exiting(s.pc[p]) && s.pc[p].Reparent? && s.pc[p].i < |s.pc|
    ensures NoZombieSeen(ExitStep(s, p), q, r)
  {
    assert ProcOk(s, p) && NoZombieSeen(s, q, r) && ProcOk(s, q);
  }

  /** `reparent` gives a child to init. */
  lemma {:induction false} AdoptKeeps(s: State, p: nat)
    requires Inv(s) && Enabled(s, Go(p, false)) && Exiting(s.pc[p]) && s.pc[p].Adopt?
    ensures Inv(ExitStep(s, p))
  {
    var s' := ExitStep(s, p);
    assert ProcOk(s, p);
    forall q ensures ProcOk(s', q) { assert ProcOk(s, q); }
    forall q, r ensures GivenAway(s', q, r) { assert GivenAway(s, q, r); }
    forall q, r ensures NoZombieSeen(s', q, r) { assert NoZombieSeen(s, q, r) && ProcOk(s, q); }
  }

  /** The end of `exit`: the parent is woken and the process is a zombie. */
  lemma {:induction false} DieKeeps(s: State, p: nat)
    requires Inv(s) && Enabled(s, Go(p, false)) && Exiting(s.pc[p]) && ((s.pc[p].Reparent? && s.pc[p].i >= |s.pc|) || s.pc[p].Dying?)
    ensures Inv(ExitStep(s, p))
  {
    var s' := ExitStep(s, p);
    assert ProcOk(s, p);
    forall q ensures ProcOk(s', q) { assert ProcOk(s, q); }
    forall q, r ensures GivenAway(s', q, r) { assert GivenAway(s, q, r); }
    forall q, r ensures NoZombieSeen(s', q, r) { assert NoZombieSeen(s, q, r) && ProcOk(s, q); }
  }

  /** `wait` takes the lock of its process. */
  lemma {:induction false} WaitLockKeeps(s: State, p: nat, fails: bool)
    requires Inv(s) && Enabled(s, Go(p, fails)) && !Exiting(s.pc[p]) && s.pc[p].WaitLock?
    ensures Inv(WaitStep(s, p, fails))
  {
    var s' := WaitStep(s, p, fails);
    assert ProcOk(s, p);
    forall q ensures ProcOk(s', q) { assert ProcOk(s, q); }
    forall q, r ensures GivenAway(s', q, r) { assert GivenAway(s, q, r); }
    forall q, r ensures NoZombieSeen(s', q, r) { assert NoZombieSeen(s, q, r) && ProcOk(s, q); }
  }

  /** A step of the scan of `wait`. */
  lemma {:induction false} ScanKeeps(s: State, p: nat, fails: bool)
    requires Inv(s) && Enabled(s, Go(p, fails)) && !Exiting(s.pc[p]) && s.pc[p].WaitScan? && s.pc[p].i < |s.pc|
    ensures Inv(WaitStep(s, p, fails))
  {
    var s' := WaitStep(s, p, fails);
    assert ProcOk(s, p);
    forall q ensures ProcOk(s', q) { assert ProcOk(s, q); }
    forall q, r ensures GivenAway(s', q, r) { assert GivenAway(s, q, r); }
    forall q, r ensures NoZombieSeen(s', q, r) { assert NoZombieSeen(s, q, r) && ProcOk(s, q); }
  }

  /** The scheduler releases the lock of a process that sleeps in `wait`. */
  lemma {:induction false} WaitSleptKeeps(s: State, p: nat, fails: bool)
    requires Inv(s) && Enabled(s, Go(p, fails)) && !Exiting(s.pc[p]) && s.pc[p].WaitSlept?
    ensures Inv(WaitStep(s, p, fails))
  {
    var s' := WaitStep(s, p, fails);
    assert ProcOk(s, p);
    forall q ensures ProcOk(s', q) { assert ProcOk(s, q); }
    forall q, r ensures GivenAway(s', q, r) { assert GivenAway(s, q, r); }
    forall q, r ensures NoZombieSeen(s', q, r) { assert NoZombieSeen(s, q, r) && ProcOk(s, q); }
  }

  /** The end of the scan of `wait`: it returns, or sleeps. */
  lemma {:induction false} WaitEndKeeps(s: State, p: nat, fails: bool)
    requires Inv(s) && Enabled(s, Go(p, fails)) && !Exiting(s.pc[p]) && s.pc[p].WaitScan? && s.pc[p].i >= |s.pc|
    ensures Inv(WaitStep(s, p, fails))
  {
    var s' := WaitStep(s, p, fails);
    assert ProcOk(s, p);
    forall q ensures ProcOk(s', q) { assert ProcOk(s, q); }
    forall q, r ensures GivenAway(s', q, r) { assert GivenAway(s, q, r); }
    forall q, r ensures NoZombieSeen(s', q, r) { assert NoZombieSeen(s, q, r) && ProcOk(s, q); }
  }

  /** `wait` looks at a child that is no zombie and goes on. */
  lemma {:induction false} ChildKeeps(s: State, p: nat, fails: bool)
    requires Inv(s) && Enabled(s, Go(p, fails)) && !Exiting(s.pc[p]) && s.pc[p].WaitChild? && s.st[s.pc[p].i] != Zombie
    ensures Inv(WaitStep(s, p, fails))
  {
    var s' := WaitStep(s, p, fails);
    assert ProcOk(s, p) && ProcOk(s, INIT) && ProcOk(s, s.pc[p].i);
    forall q ensures ProcOk(s', q) { assert ProcOk(s, q); }
    forall q, r ensures GivenAway(s', q, r) { assert GivenAway(s, q, r); }
    forall q, r ensures NoZombieSeen(s', q, r) { assert NoZombieSeen(s, q, r) && ProcOk(s, q); }
  }

  /** `wait` fails to report a zombie child. */
  lemma {:induction false} FailKeeps(s: State, p: nat, fails: bool)
    requires Inv(s) && Enabled(s, Go(p, fails)) && !Exiting(s.pc[p]) && s.pc[p].WaitChild? && s.st[s.pc[p].i] == Zombie && fails
    ensures Inv(WaitStep(s, p, fails))
  {
    var s' := WaitStep(s, p, fails);
    assert ProcOk(s, p) && ProcOk(s, INIT) && ProcOk(s, s.pc[p].i);
    forall q ensures ProcOk(s', q) { assert ProcOk(s, q); }
    forall q, r ensures GivenAway(s', q, r) { assert GivenAway(s, q, r); }
    forall q, r ensures NoZombieSeen(s', q, r) { assert NoZombieSeen(s, q, r) && ProcOk(s, q); }
  }

  /** `wait` frees a zombie child. */
  lemma {:induction false} ReapKeeps(s: State, p: nat)
    requires Inv(s) && Enabled(s, Go(p, false)) && !Exiting(s.pc[p]) && s.pc[p].WaitChild? && s.st[s.pc[p].i] == Zombie
    ensures Inv(WaitStep(s, p, false))
  {
    var s' := WaitStep(s, p, false);
    assert ProcOk(s, p) && ProcOk(s, INIT) && ProcOk(s, s.pc[p].i);
    forall q ensures ProcOk(s', q) { assert ProcOk(s, q); }
    forall q, r ensures GivenAway(s', q, r) { assert GivenAway(s, q, r); }
    forall q, r ensures NoZombieSeen(s', q, r) { ReapSees(s, p, q, r); }
  }

  lemma {:induction false} ReapSees(s: State, p: nat, q: nat, r: nat)
    requires Inv(s) && Enabled(s, Go(p, false)) && !Exiting(s.pc[p]) && s.pc[p].WaitChild? && s.st[s.pc[p].i] == Zombie
    ensures NoZombieSeen(WaitStep(s, p, false), q, r)
  {
    assert ProcOk(s, p) && ProcOk(s, INIT) && ProcOk(s, s.pc[p].i) && NoZombieSeen(s, q, r) && ProcOk(s, q);
  }

  /** `fork` makes a child. */
  lemma {:induction false} ForkKeeps(s: State, e: Step)
    requires Inv(s) && Enabled(s, e) && e.Fork?
    ensures Inv(Do(s, e))
  {
    var s' := Do(s, e);
    assert ProcOk(s, e.p) && ProcOk(s, e.q);
    forall q ensures ProcOk(s', q) { assert ProcOk(s, q); }
    forall q, r ensures GivenAway(s', q, r) { assert GivenAway(s, q, r) && ProcOk(s, q) && ProcOk(s, r); }
    forall q, r ensures NoZombieSeen(s', q, r) { assert NoZombieSeen(s, q, r) && ProcOk(s, q); }
  }

  /** The scheduler runs a woken process. */
  lemma {:induction false} ResumeKeeps(s: State, e: Step)
    requires Inv(s) && Enabled(s, e) && e.Resume?
    ensures Inv(Do(s, e))
  {
    var s' := Do(s, e);
    assert ProcOk(s, e.p);
    forall q ensures ProcOk(s', q) { assert ProcOk(s, q); }
    forall q, r ensures GivenAway(s', q, r) { assert GivenAway(s, q, r); }
    forall q, r ensures NoZombieSeen(s', q, r) { assert NoZombieSeen(s, q, r) && ProcOk(s, q); }
  }

  /** The other steps: calls, wakeups, sleeps elsewhere. */
  lemma {:induction false} CallKeeps(s: State, e: Step)
    requires Inv(s) && Enabled(s, e) && (e.Sleep? || e.Exit? || e.Wait? || e.Wake?)
    ensures Inv(Do(s, e))
  {
    var s' := Do(s, e);
    assert ProcOk(s, e.p);
    forall q ensures ProcOk(s', q) { assert ProcOk(s, q); }
    forall q, r ensures GivenAway(s', q, r) { assert GivenAway(s, q, r); }
    forall q, r ensures NoZombieSeen(s', q, r) { assert NoZombieSeen(s, q, r) && ProcOk(s, q); }
  }

  lemma {:induction false} NextKeeps(s: State, e: Step)
    requires Inv(s) && Enabled(s, e)
    ensures Inv(Do(s, e)) && |Do(s, e).pc| == |s.pc|
  {
    var pc := s.pc[e.p];
    if e.Fork? { ForkKeeps(s, e); }
    else if e.Resume? { ResumeKeeps(s, e); }
    else if !e.Go? { CallKeeps(s, e); }
    else if Exiting(pc) {
      if pc.ExitWakeInit? || pc.ExitParent? { NotingKeeps(s, e.p); }
      else if pc.ExitLockParent? { LockParentKeeps(s, e.p); }
      else if pc.ExitLockSelf? { LockSelfKeeps(s, e.p); }
      else if pc.Adopt? { AdoptKeeps(s, e.p); }
      else if pc.Reparent? && pc.i < |s.pc| { ReparentKeeps(s, e.p); }
      else { DieKeeps(s, e.p); }
    } else if pc.WaitChild? {
      if s.st[pc.i] != Zombie { ChildKeeps(s, e.p, e.fails); } else if e.fails { FailKeeps(s, e.p, true); } else { ReapKeeps(s, e.p); }
    } else if pc.WaitLock? { WaitLockKeeps(s, e.p, e.fails); }
    else if pc.WaitSlept? { WaitSleptKeeps(s, e.p, e.fails); }
    else if pc.i < |s.pc| { ScanKeeps(s, e.p, e.fails); }
    else { WaitEndKeeps(s, e.p, e.fails); }
  }

  // ---------------------------------------------------------------------------
  // Whole runs

  /** The steps lead from `s` to `t`. */
  ghost predicate Leads(s: State, steps: seq<Step>, t: State)
    decreases |steps|
  {
    if steps == [] then s == t else Sized(s) && Enabled(s, steps[0]) && Leads(Do(s, steps[0]), steps[1..], t)
  }

  ghost predicate Reachable(s: State) {
    exists from, steps :: Init(from) && Leads(from, steps, s)
  }

  lemma {:induction false} LeadsMore(s: State, steps: seq<Step>, t: State, e: Step)
    requires Leads(s, steps, t) && Sized(t) && Enabled(t, e)
    ensures Leads(s, steps + [e], Do(t, e))
    decreases |steps|
  {
    if steps == [] {
      assert (steps + [e])[1..] == [];
    } else {
      LeadsMore(Do(s, steps[0]), steps[1..], t, e);
      assert (steps + [e])[1..] == steps[1..] + [e];
    }
  }

  lemma {:induction false} LeadsKeeps(s: State, steps: seq<Step>, t: State)
    requires Inv(s) && Leads(s, steps, t)
    ensures Inv(t)
    decreases |steps|
  {
    if steps != [] {
      NextKeeps(s, steps[0]);
      LeadsKeeps(Do(s, steps[0]), steps[1..], t);
    }
  }

  lemma {:induction false} ReachableOk(s: State)
    requires Reachable(s)
    ensures Inv(s)
  {
    var from, steps :| Init(from) && Leads(from, steps, s);
    forall p ensures ProcOk(from, p) {}
    forall p, q ensures GivenAway(from, p, q) {}
    forall p, q ensures NoZombieSeen(from, p, q) {}
    LeadsKeeps(from, steps, s);
  }

  /** `p` sleeps in `wait` although its child `q` is a zombie. */
  ghost predicate MissedChild(s: State, p: nat, q: nat) {
    && Sized(s) && p < |s.pc| && q < |s.pc|
    && s.inWait[p] && s.st[p] == Sleeping && s.parent[q] == Some(p) && s.st[q] == Zombie
  }

  /** In every reachable state a process that sleeps in `wait` has no zombie child but children that init
      has adopted; so a process other than init has none. */
  lemma {:induction false} WaitMissesNoChild(s: State, p: nat, q: nat)
    requires Reachable(s)
    ensures MissedChild(s, p, q) ==> p == INIT && s.adopted[q]
  {
    ReachableOk(s);
    assert ProcOk(s, p) && NoZombieSeen(s, p, q);
  }

  /** The parent of a process is never an unused slot or a zombie: `exit` gives every child away before
      the slot can be used again. */
  lemma {:induction false} ParentsAreLive(s: State, q: nat)
    requires Reachable(s) && Sized(s) && q < |s.pc| && s.parent[q].Some?
    ensures s.parent[q].value < |s.pc| && s.st[s.parent[q].value] in {Active, Sleeping}
  {
    ReachableOk(s);
    var p := s.parent[q].value;
    assert ProcOk(s, q) && ProcOk(s, p) && GivenAway(s, p, q);
  }

  // ---------------------------------------------------------------------------
  // Init may sleep while a child is a zombie

  /** A table of three processes; the last two never wait, and init has no parent. */
  ghost predicate At(s: State, pc0: Pc, pc1: Pc, pc2: Pc, st0: ProcState, st1: ProcState, st2: ProcState,
                     wait: bool, par1: Option<nat>, par2: Option<nat>, own0: Option<nat>, own1: Option<nat>, own2: Option<nat>) {
    && Sized(s) && |s.pc| == 3
    && s.pc[0] == pc0 && s.pc[1] == pc1 && s.pc[2] == pc2 && s.st[0] == st0 && s.st[1] == st1 && s.st[2] == st2
    && s.inWait[0] == wait && !s.inWait[1] && !s.inWait[2] && s.parent[0].None? && s.parent[1] == par1 && s.parent[2] == par2
    && s.own[0] == own0 && s.own[1] == own1 && s.own[2] == own2
  }

  lemma {:induction false} Take(s: State, e: Step) returns (t: State)
    requires Reachable(s) && Sized(s) && Enabled(s, e)
    ensures t == Do(s, e) && Reachable(t)
  {
    t := Do(s, e);
    var from, steps :| Init(from) && Leads(from, steps, s);
    LeadsMore(from, steps, s, e);
  }

  /** Process 1 has a child, 2, which starts to exit. */
  lemma {:induction false} ChildNotes() returns (s: State)
    ensures Reachable(s) && At(s, Free, Free, ExitWakeInit, Active, Active, Active, false, Some(0), Some(1), None, None, None)
  {
    s := State([Free, Gone, Gone], [Active, Unused, Unused], [false, false, false], [None, None, None], [None, None, None],
               [false, false, false]);
    assert Init(s) && Leads(s, [], s);
    s := Take(s, Fork(0, 1));
    assert At(s, Free, Free, Gone, Active, Active, Unused, false, Some(0), None, None, None, None);
    s := Take(s, Fork(1, 2));
    assert At(s, Free, Free, Free, Active, Active, Active, false, Some(0), Some(1), None, None, None);
    s := Take(s, Exit(2));
  }

  /** Process 2 notes process 1 as its parent. */
  lemma {:induction false} ChildNoted() returns (s: State)
    ensures Reachable(s) && At(s, Free, Free, ExitLockParent(1), Active, Active, Active, false, Some(0), Some(1), None, None, None)
  {
    s := ChildNotes();
    s := Take(s, Go(2, false));
    assert At(s, Free, Free, ExitParent, Active, Active, Active, false, Some(0), Some(1), None, None, None);
    s := Take(s, Go(2, false));
  }

  /** Then process 1 exits as well. */
  lemma {:induction false} ParentExits() returns (s: State)
    ensures Reachable(s) && At(s, Free, ExitLockParent(0), ExitLockParent(1), Active, Active, Active, false, Some(0), Some(1), None, None, None)
  {
    s := ChildNoted();
    s := Take(s, Exit(1));
    assert At(s, Free, ExitWakeInit, ExitLockParent(1), Active, Active, Active, false, Some(0), Some(1), None, None, None);
    s := Take(s, Go(1, false));
    assert At(s, Free, ExitParent, ExitLockParent(1), Active, Active, Active, false, Some(0), Some(1), None, None, None);
    s := Take(s, Go(1, false));
  }

  /** It locks init and itself. */
  lemma {:induction false} ParentLocks() returns (s: State)
    ensures Reachable(s) && At(s, Free, Reparent(0, 0), ExitLockParent(1), Active, Active, Active, false, Some(0), Some(1), Some(1), Some(1), None)
  {
    s := ParentExits();
    s := Take(s, Go(1, false));
    assert At(s, Free, ExitLockSelf(0), ExitLockParent(1), Active, Active, Active, false, Some(0), Some(1), Some(1), None, None);
    s := Take(s, Go(1, false));
  }

  /** It finds its child. */
  lemma {:induction false} ParentAdopts() returns (s: State)
    ensures Reachable(s) && At(s, Free, Adopt(0, 2), ExitLockParent(1), Active, Active, Active, false, Some(0), Some(1), Some(1), Some(1), None)
  {
    s := ParentLocks();
    s := Take(s, Go(1, false));
    assert At(s, Free, Reparent(0, 1), ExitLockParent(1), Active, Active, Active, false, Some(0), Some(1), Some(1), Some(1), None);
    s := Take(s, Go(1, false));
    assert At(s, Free, Reparent(0, 2), ExitLockParent(1), Active, Active, Active, false, Some(0), Some(1), Some(1), Some(1), None);
    s := Take(s, Go(1, false));
  }

  /** It gives the child to init and dies. */
  lemma {:induction false} ParentDies() returns (s: State)
    ensures Reachable(s) && At(s, Free, Dead, ExitLockParent(1), Active, Zombie, Active, false, Some(0), Some(0), None, None, None)
  {
    s := ParentAdopts();
    s := Take(s, Go(1, false));
    assert At(s, Free, Reparent(0, 3), ExitLockParent(1), Active, Active, Active, false, Some(0), Some(0), Some(1), Some(1), None);
    s := Take(s, Go(1, false));
    assert At(s, Free, Dying, ExitLockParent(1), Active, Zombie, Active, false, Some(0), Some(0), None, Some(1), None);
    s := Take(s, Go(1, false));
  }

  /** Init waits. */
  lemma {:induction false} InitWaits() returns (s: State)
    ensures Reachable(s) && At(s, WaitScan(0, false), Dead, ExitLockParent(1), Active, Zombie, Active, false, Some(0), Some(0), Some(0), None, None)
  {
    s := ParentDies();
    s := Take(s, Wait(0));
    assert At(s, WaitLock, Dead, ExitLockParent(1), Active, Zombie, Active, false, Some(0), Some(0), None, None, None);
    s := Take(s, Go(0, false));
  }

  /** It comes to 1. */
  lemma {:induction false} InitFinds() returns (s: State)
    ensures Reachable(s) && At(s, WaitChild(1), Dead, ExitLockParent(1), Active, Zombie, Active, false, Some(0), Some(0), Some(0), None, None)
  {
    s := InitWaits();
    s := Take(s, Go(0, false));
    assert At(s, WaitScan(1, false), Dead, ExitLockParent(1), Active, Zombie, Active, false, Some(0), Some(0), Some(0), None, None);
    s := Take(s, Go(0, false));
  }

  /** It reaps 1. */
  lemma {:induction false} InitReaps() returns (s: State)
    ensures Reachable(s) && At(s, Free, Gone, ExitLockParent(1), Active, Unused, Active, false, None, Some(0), None, None, None)
  {
    s := InitFinds();
    s := Take(s, Go(0, false));
  }

  /** Init waits again. */
  lemma {:induction false} InitWaitsAgain() returns (s: State)
    ensures Reachable(s) && At(s, WaitScan(0, false), Gone, ExitLockParent(1), Active, Unused, Active, false, None, Some(0), Some(0), None, None)
  {
    s := InitReaps();
    s := Take(s, Wait(0));
    assert At(s, WaitLock, Gone, ExitLockParent(1), Active, Unused, Active, false, None, Some(0), None, None, None);
    s := Take(s, Go(0, false));
  }

  /** It passes the first two slots. */
  lemma {:induction false} InitScans() returns (s: State)
    ensures Reachable(s) && At(s, WaitScan(2, false), Gone, ExitLockParent(1), Active, Unused, Active, false, None, Some(0), Some(0), None, None)
  {
    s := InitWaitsAgain();
    s := Take(s, Go(0, false));
    assert At(s, WaitScan(1, false), Gone, ExitLockParent(1), Active, Unused, Active, false, None, Some(0), Some(0), None, None);
    s := Take(s, Go(0, false));
  }

  /** It finds 2 alive. */
  lemma {:induction false} InitPasses() returns (s: State)
    ensures Reachable(s) && At(s, WaitScan(3, true), Gone, ExitLockParent(1), Active, Unused, Active, false, None, Some(0), Some(0), None, None)
  {
    s := InitScans();
    s := Take(s, Go(0, false));
    assert At(s, WaitChild(2), Gone, ExitLockParent(1), Active, Unused, Active, false, None, Some(0), Some(0), None, None);
    s := Take(s, Go(0, false));
  }

  /** Init sleeps. */
  lemma {:induction false} InitSleeps() returns (s: State)
    ensures Reachable(s) && At(s, WaitAsleep, Gone, ExitLockParent(1), Sleeping, Unused, Active, true, None, Some(0), None, None, None)
  {
    s := InitPasses();
    s := Take(s, Go(0, false));
    assert At(s, WaitSlept, Gone, ExitLockParent(1), Sleeping, Unused, Active, true, None, Some(0), Some(0), None, None);
    s := Take(s, Go(0, false));
  }

  /** Process 2 locks the slot that it noted, and itself. */
  lemma {:induction false} ChildLocks() returns (s: State)
    ensures Reachable(s) && At(s, WaitAsleep, Gone, Reparent(1, 0), Sleeping, Unused, Active, true, None, Some(0), None, Some(2), Some(2))
  {
    s := InitSleeps();
    s := Take(s, Go(2, false));
    assert At(s, WaitAsleep, Gone, ExitLockSelf(1), Sleeping, Unused, Active, true, None, Some(0), None, Some(2), None);
    s := Take(s, Go(2, false));
  }

  /** It has no children. */
  lemma {:induction false} ChildScans() returns (s: State)
    ensures Reachable(s) && At(s, WaitAsleep, Gone, Reparent(1, 3), Sleeping, Unused, Active, true, None, Some(0), None, Some(2), Some(2))
  {
    s := ChildLocks();
    s := Take(s, Go(2, false));
    assert At(s, WaitAsleep, Gone, Reparent(1, 1), Sleeping, Unused, Active, true, None, Some(0), None, Some(2), Some(2));
    s := Take(s, Go(2, false));
    assert At(s, WaitAsleep, Gone, Reparent(1, 2), Sleeping, Unused, Active, true, None, Some(0), None, Some(2), Some(2));
    s := Take(s, Go(2, false));
  }

  /** Process 2 wakes the slot it noted and dies; init, its parent by now, sleeps on in `wait`. */
  lemma {:induction false} InitMissesIt() returns (s: State)
    ensures Reachable(s) && At(s, WaitAsleep, Gone, Dying, Sleeping, Unused, Zombie, true, None, Some(0), None, None, Some(2))
  {
    s := ChildScans();
    s := Take(s, Go(2, false));
  }

  lemma {:induction false} InitMayMissChild()
    ensures exists s, q :: Reachable(s) && MissedChild(s, INIT, q)
  {
    var s := InitMissesIt();
    assert MissedChild(s, INIT, 2);
  }
}
