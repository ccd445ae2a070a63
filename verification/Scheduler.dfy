/** The hand-off of CPUs and process locks between `scheduler` and the kernel threads of processes
    (kernel/proc.c): every interleaving of any number of CPUs.  `swtch` is a transfer of control. */
module Scheduler {
  import opened Options

  datatype ProcState = Unused | Sleeping | Runnable | Running | Zombie

  /** Where a process last called `swtch`: a new process starts in `forkret`; `InWait` is the sleep
      of `wait`, whose lock is `p->lock` itself; nothing resumes a process that left from `exit`. */
  datatype Context = Forkret | InYield | InSleep | InWait | InExit

  /** Where a CPU is: in `scheduler` (`Idle`, `Check`, `Back`, `Cleared`), or in the kernel thread of a
      process, just switched to, running, or about to switch away. */
  datatype Pc = Idle | Check(p: nat) | Enter(p: nat) | Run(p: nat) | Leave(p: nat) | Back(p: nat) | Cleared(p: nat)

  /** `owner[p]` is the CPU that holds `p->lock`, `cur[c]` is `c->proc`, and `home[p]` records the CPU
      whose `c->proc` is `p`. */
  datatype State = State(st: seq<ProcState>, ctx: seq<Context>, owner: seq<Option<nat>>, home: seq<Option<nat>>,
                         cur: seq<Option<nat>>, pc: seq<Pc>)

  datatype Step =
    | SchedAcquire(c: nat, p: nat) | SchedSkip(c: nat) | SchedSwitch(c: nat)
    | EnterRelease(c: nat) | EnterHolding(c: nat)
    | Acquire(c: nat, q: nat) | Release(c: nat, q: nat)
    | Wake(c: nat, q: nat) | Fork(c: nat, q: nat) | Reap(c: nat, q: nat)
    | GiveUp(c: nat, to: ProcState, ctx: Context)
    | Switch(c: nat) | Clear(c: nat) | SchedRelease(c: nat)

  ghost predicate Sized(s: State) {
    |s.ctx| == |s.owner| == |s.home| == |s.st| && |s.cur| == |s.pc|
  }

  /** What holds of CPU `c` in every reachable state. */
  ghost predicate CpuOk(s: State, c: nat)
    requires Sized(s)
  {
    c < |s.pc| ==>
      && (!s.pc[c].Idle? ==> s.pc[c].p < |s.st|)
      && match s.pc[c]
         case Idle => s.cur[c].None?
         case Check(p) => s.owner[p] == Some(c) && s.cur[c].None?
         case Enter(p) => s.owner[p] == Some(c) && s.cur[c] == Some(p) && s.home[p] == Some(c) && s.st[p] == Running
         case Run(p) => s.cur[c] == Some(p) && s.home[p] == Some(c) && s.st[p] == Running
         case Leave(p) => s.owner[p] == Some(c) && s.cur[c] == Some(p) && s.home[p] == Some(c) && s.st[p] != Running
         case Back(p) => s.owner[p] == Some(c) && s.cur[c] == Some(p) && s.home[p] == Some(c) && s.st[p] != Running
         case Cleared(p) => s.owner[p] == Some(c) && s.cur[c].None? && s.home[p].None?
  }

  /** What holds of process `p` in every reachable state. */
  ghost predicate ProcOk(s: State, p: nat)
    requires Sized(s)
  {
    p < |s.st| ==>
      && (s.st[p] == Running ==> s.home[p].Some?)
      && (s.home[p].Some? ==> s.home[p].value < |s.pc| && s.cur[s.home[p].value] == Some(p))
      && (s.ctx[p] == InExit ==> s.st[p] == Zombie || s.st[p] == Unused)
  }

  ghost predicate Inv(s: State) {
    && Sized(s)
    && (forall c {:trigger CpuOk(s, c)} :: CpuOk(s, c))
    && (forall p {:trigger ProcOk(s, p)} :: ProcOk(s, p))
  }

  /** All processes but the first unused, no lock held, every CPU in `scheduler`. */
  ghost predicate Init(s: State) {
    && Sized(s)
    && (forall p :: 0 <= p < |s.st| ==> s.st[p] in {Unused, Runnable} && s.ctx[p] == Forkret && s.owner[p].None? && s.home[p].None?)
    && (forall c :: 0 <= c < |s.pc| ==> s.pc[c].Idle? && s.cur[c].None?)
  }

  // ---------------------------------------------------------------------------
  // The steps

  /** CPU `c` runs the kernel thread of a process and holds the lock of `q`. */
  ghost predicate Holds(s: State, c: nat, q: nat)
    requires Sized(s)
  {
    c < |s.pc| && s.pc[c].Run? && q < |s.st| && s.owner[q] == Some(c)
  }

  /** The lock of its process is the only one that `c` holds, as `sched` demands. */
  ghost predicate OnlyOwn(s: State, c: nat, p: nat)
    requires Sized(s)
  {
    forall q :: 0 <= q < |s.owner| && s.owner[q] == Some(c) ==> q == p
  }

  /** The context and the state in which a process may give up its CPU. */
  predicate MayGiveUp(to: ProcState, ctx: Context) {
    (to == Runnable && ctx == InYield) || (to == Sleeping && (ctx == InSleep || ctx == InWait)) || (to == Zombie && ctx == InExit)
  }

  ghost predicate Enabled(s: State, e: Step)
    requires Sized(s)
  {
    && e.c < |s.pc|
    && match e
       case SchedAcquire(c, p) => s.pc[c].Idle? && p < |s.st| && s.owner[p].None?
       case SchedSkip(c) => s.pc[c].Check? && s.pc[c].p < |s.st| && s.st[s.pc[c].p] != Runnable
       case SchedSwitch(c) => s.pc[c].Check? && s.pc[c].p < |s.st| && s.st[s.pc[c].p] == Runnable
       case EnterRelease(c) => s.pc[c].Enter? && s.pc[c].p < |s.st| && s.ctx[s.pc[c].p] in {Forkret, InYield, InSleep}
       case EnterHolding(c) => s.pc[c].Enter? && s.pc[c].p < |s.st| && s.ctx[s.pc[c].p] == InWait
       case Acquire(c, q) => s.pc[c].Run? && q < |s.st| && s.owner[q].None?
       case Release(c, q) => (s.pc[c].Run? || (s.pc[c].Leave? && q != s.pc[c].p)) && q < |s.st| && s.owner[q] == Some(c)
       case Wake(c, q) => Holds(s, c, q) && s.st[q] == Sleeping
       case Fork(c, q) => Holds(s, c, q) && s.st[q] == Unused
       case Reap(c, q) => Holds(s, c, q) && s.st[q] == Zombie
       case GiveUp(c, to, ctx) => s.pc[c].Run? && Holds(s, c, s.pc[c].p) && MayGiveUp(to, ctx)
       case Switch(c) => s.pc[c].Leave? && OnlyOwn(s, c, s.pc[c].p)
       case Clear(c) => s.pc[c].Back? && s.pc[c].p < |s.st|
       case SchedRelease(c) => s.pc[c].Cleared? && s.pc[c].p < |s.st|
  }

  ghost function Do(s: State, e: Step): (r: State)
    requires Sized(s) && Enabled(s, e)
    ensures Sized(r) && |r.st| == |s.st| && |r.pc| == |s.pc|
  {
    match e
    case SchedAcquire(c, p) => s.(owner := s.owner[p := Some(c)], pc := s.pc[c := Check(p)])
    case SchedSkip(c) => s.(owner := s.owner[s.pc[c].p := None], pc := s.pc[c := Idle])
    case SchedSwitch(c) =>
      var p := s.pc[c].p;
      s.(st := s.st[p := Running], cur := s.cur[c := Some(p)], home := s.home[p := Some(c)], pc := s.pc[c := Enter(p)])
    case EnterRelease(c) => s.(owner := s.owner[s.pc[c].p := None], pc := s.pc[c := Run(s.pc[c].p)])
    case EnterHolding(c) => s.(pc := s.pc[c := Run(s.pc[c].p)])
    case Acquire(c, q) => s.(owner := s.owner[q := Some(c)])
    case Release(c, q) => s.(owner := s.owner[q := None])
    case Wake(c, q) => s.(st := s.st[q := Runnable])
    case Fork(c, q) => s.(st := s.st[q := Runnable], ctx := s.ctx[q := Forkret])
    case Reap(c, q) => s.(st := s.st[q := Unused])
    case GiveUp(c, to, ctx) => s.(st := s.st[s.pc[c].p := to], ctx := s.ctx[s.pc[c].p := ctx], pc := s.pc[c := Leave(s.pc[c].p)])
    case Switch(c) => s.(pc := s.pc[c := Back(s.pc[c].p)])
    case Clear(c) => s.(cur := s.cur[c := None], home := s.home[s.pc[c].p := None], pc := s.pc[c := Cleared(s.pc[c].p)])
    case SchedRelease(c) => s.(owner := s.owner[s.pc[c].p := None], pc := s.pc[c := Idle])
  }

  // ---------------------------------------------------------------------------
  // Every step keeps the invariant

  /** The steps of `scheduler`. */
  lemma {:induction false} SchedulerKeeps(s: State, e: Step)
    requires Inv(s) && Enabled(s, e) && (e.SchedAcquire? || e.SchedSkip? || e.SchedSwitch? || e.Clear? || e.SchedRelease?)
    ensures Inv(Do(s, e))
  {
    var s' := Do(s, e);
    assert CpuOk(s, e.c);
    forall d ensures CpuOk(s', d) { assert CpuOk(s, d); }
    forall p ensures ProcOk(s', p) { assert ProcOk(s, p); }
  }

  /** The steps of a kernel thread that change its own place. */
  lemma {:induction false} ThreadKeeps(s: State, e: Step)
    requires Inv(s) && Enabled(s, e) && (e.EnterRelease? || e.EnterHolding? || e.GiveUp? || e.Switch?)
    ensures Inv(Do(s, e))
  {
    var s' := Do(s, e);
    assert CpuOk(s, e.c);
    forall d ensures CpuOk(s', d) { assert CpuOk(s, d); }
    forall p ensures ProcOk(s', p) { assert ProcOk(s, p); }
  }

  /** The steps of a kernel thread on the lock or the state of another process. */
  lemma {:induction false} OtherKeeps(s: State, e: Step)
    requires Inv(s) && Enabled(s, e) && (e.Acquire? || e.Release? || e.Wake? || e.Fork? || e.Reap?)
    ensures Inv(Do(s, e))
  {
    var s' := Do(s, e);
    assert CpuOk(s, e.c) && ProcOk(s, e.q);
    forall d ensures CpuOk(s', d) { assert CpuOk(s, d); }
    forall p ensures ProcOk(s', p) { assert ProcOk(s, p); }
  }

  lemma {:induction false} NextKeeps(s: State, e: Step)
    requires Inv(s) && Enabled(s, e)
    ensures Inv(Do(s, e))
  {
    if e.SchedAcquire? || e.SchedSkip? || e.SchedSwitch? || e.Clear? || e.SchedRelease? { SchedulerKeeps(s, e); }
    else if e.EnterRelease? || e.EnterHolding? || e.GiveUp? || e.Switch? { ThreadKeeps(s, e); }
    else { OtherKeeps(s, e); }
  }

  // ---------------------------------------------------------------------------
  // Whole runs

  ghost predicate IsRun(s: State, steps: seq<Step>)
    requires Sized(s)
    decreases |steps|
  {
    steps == [] || (Enabled(s, steps[0]) && IsRun(Do(s, steps[0]), steps[1..]))
  }

  ghost function After(s: State, steps: seq<Step>): (r: State)
    requires Sized(s) && IsRun(s, steps)
    ensures Sized(r) && |r.st| == |s.st| && |r.pc| == |s.pc|
    decreases |steps|
  {
    if steps == [] then s else After(Do(s, steps[0]), steps[1..])
  }

  lemma {:induction false} InitOk(s: State)
    requires Init(s)
    ensures Inv(s)
  {
    forall c ensures CpuOk(s, c) {}
    forall p ensures ProcOk(s, p) {}
  }

  lemma {:induction false} RunKeeps(s: State, steps: seq<Step>)
    requires Inv(s) && IsRun(s, steps)
    ensures Inv(After(s, steps))
    decreases |steps|
  {
    if steps != [] {
      NextKeeps(s, steps[0]);
      RunKeeps(Do(s, steps[0]), steps[1..]);
    }
  }

  /** The process whose kernel stack CPU `c` is on. */
  function OnStack(pc: Pc): Option<nat> {
    if pc.Enter? || pc.Run? || pc.Leave? then Some(pc.p) else None
  }

  /** In every reachable state a process is `c->proc` of at most one CPU; it is RUNNING exactly if some
      CPU is in its kernel thread and has not yet given it up; and no two CPUs are on one stack. */
  lemma {:induction false} OneCpu(s: State, steps: seq<Step>, p: nat)
    requires Init(s) && IsRun(s, steps) && p < |s.st|
    ensures var r := After(s, steps);
            && (forall c, d :: 0 <= c < |r.pc| && 0 <= d < |r.pc| && r.cur[c] == Some(p) && r.cur[d] == Some(p) ==> c == d)
            && (forall c, d :: 0 <= c < |r.pc| && 0 <= d < |r.pc| && OnStack(r.pc[c]) == Some(p) && OnStack(r.pc[d]) == Some(p) ==> c == d)
            && (r.st[p] == Running <==> exists c :: 0 <= c < |r.pc| && r.cur[c] == Some(p) && (r.pc[c] == Enter(p) || r.pc[c] == Run(p)))
  {
    InitOk(s);
    RunKeeps(s, steps);
    var r := After(s, steps);
    forall c: nat | c < |r.pc| && (r.cur[c] == Some(p) || OnStack(r.pc[c]) == Some(p)) ensures r.home[p] == Some(c) {
      assert CpuOk(r, c);
    }
    assert ProcOk(r, p);
    if r.st[p] == Running {
      var c := r.home[p].value;
      assert CpuOk(r, c);
    }
    forall c | 0 <= c < |r.pc| && r.cur[c] == Some(p) && (r.pc[c] == Enter(p) || r.pc[c] == Run(p)) ensures r.st[p] == Running {
      assert CpuOk(r, c);
    }
  }

  /** Each `release` of the scheduler and of a thread just switched to is by the holder, and `sched`
      finds its lock held and its state changed: none of the panics on these paths is reachable. */
  lemma {:induction false} NoLockPanic(s: State, steps: seq<Step>, c: nat)
    requires Init(s) && IsRun(s, steps) && c < |s.pc|
    ensures var r := After(s, steps);
            var pc := r.pc[c];
            && (!pc.Idle? ==> pc.p < |r.st|)
            && (pc.Check? || pc.Enter? || pc.Leave? || pc.Back? || pc.Cleared? ==> r.owner[pc.p] == Some(c))
            && (pc.Leave? || pc.Back? ==> r.st[pc.p] != Running)
            && (pc.Enter? ==> r.ctx[pc.p] != InExit)
  {
    InitOk(s);
    RunKeeps(s, steps);
    var r := After(s, steps);
    assert CpuOk(r, c);
    if !r.pc[c].Idle? { assert ProcOk(r, r.pc[c].p); }
  }

  /** Whoever frees or wakes a process finds it off every CPU, its stack unused. */
  lemma {:induction false} OthersAreOffCpu(s: State, steps: seq<Step>, e: Step, d: nat)
    requires Init(s) && IsRun(s, steps) && Enabled(After(s, steps), e) && d < |s.pc|
    requires e.Wake? || e.Fork? || e.Reap?
    ensures OnStack(After(s, steps).pc[d]) != Some(e.q) && After(s, steps).cur[d] != Some(e.q)
  {
    InitOk(s);
    RunKeeps(s, steps);
    assert CpuOk(After(s, steps), d) && CpuOk(After(s, steps), e.c);
  }

  // ---------------------------------------------------------------------------
  // Conservation of acquires and releases

  /** The change that a step makes to the number of holders of the lock of `p`. */
  ghost function Taken(s: State, e: Step, p: nat): int
    requires Sized(s) && Enabled(s, e)
  {
    match e
    case SchedAcquire(c, q) => if q == p then 1 else 0
    case Acquire(c, q) => if q == p then 1 else 0
    case SchedSkip(c) => if s.pc[c].p == p then -1 else 0
    case EnterRelease(c) => if s.pc[c].p == p then -1 else 0
    case SchedRelease(c) => if s.pc[c].p == p then -1 else 0
    case Release(c, q) => if q == p then -1 else 0
    case _ => 0
  }

  ghost function TakenIn(s: State, steps: seq<Step>, p: nat): int
    requires Sized(s) && IsRun(s, steps)
    decreases |steps|
  {
    if steps == [] then 0 else Taken(s, steps[0], p) + TakenIn(Do(s, steps[0]), steps[1..], p)
  }

  function Count(o: Option<nat>): int { if o.Some? then 1 else 0 }

  /** Over every run the acquires of a process lock less its releases are one while it is held and
      zero while it is not, on whichever side of `swtch` they are made. */
  lemma {:induction false} EachAcquireReleasedOnce(s: State, steps: seq<Step>, p: nat)
    requires Inv(s) && IsRun(s, steps) && p < |s.st|
    ensures Count(After(s, steps).owner[p]) == Count(s.owner[p]) + TakenIn(s, steps, p)
    decreases |steps|
  {
    if steps != [] {
      var e := steps[0];
      assert CpuOk(s, e.c);
      NextKeeps(s, e);
      EachAcquireReleasedOnce(Do(s, e), steps[1..], p);
    }
  }

  // ---------------------------------------------------------------------------
  // The hand-off of a process lock across `swtch`

  /** No step releases the lock of `p`. */
  ghost predicate Unreleased(s: State, steps: seq<Step>, p: nat)
    requires Sized(s) && IsRun(s, steps)
    decreases |steps|
  {
    steps == [] || (Taken(s, steps[0], p) >= 0 && Unreleased(Do(s, steps[0]), steps[1..], p))
  }

  /** No step acquires the lock of `p` either. */
  ghost predicate Untouched(s: State, steps: seq<Step>, p: nat)
    requires Sized(s) && IsRun(s, steps)
    decreases |steps|
  {
    steps == [] || (Taken(s, steps[0], p) == 0 && Untouched(Do(s, steps[0]), steps[1..], p))
  }

  /** A CPU on its way from a thread of `p` back to `scheduler`. */
  predicate GoingBack(pc: Pc, p: nat) { pc == Leave(p) || pc == Back(p) || pc == Cleared(p) }

  /** A CPU in a thread of `p` that keeps the lock as its own, or on its way back from it. */
  predicate Keeping(pc: Pc, ctx: Context, p: nat) { (pc == Enter(p) && ctx == InWait) || pc == Run(p) || GoingBack(pc, p) }

  /** A step that does not release the lock that `c` holds for `p` leaves it with `c`, and `c` in its place. */
  lemma {:induction false} HeldOn(s: State, e: Step, p: nat, c: nat)
    requires Inv(s) && Enabled(s, e) && p < |s.st| && c < |s.pc| && s.owner[p] == Some(c) && Taken(s, e, p) >= 0
    ensures Taken(s, e, p) == 0 && Do(s, e).owner[p] == Some(c)
    ensures GoingBack(s.pc[c], p) ==> GoingBack(Do(s, e).pc[c], p)
    ensures Keeping(s.pc[c], s.ctx[p], p) ==> Keeping(Do(s, e).pc[c], Do(s, e).ctx[p], p)
    ensures s.pc[c] == Enter(p) && s.ctx[p] != InWait ==> Do(s, e).pc[c] == Enter(p) && Do(s, e).ctx[p] == s.ctx[p]
  {
    assert CpuOk(s, e.c) && CpuOk(s, c);
  }

  /** Who releases the lock that `c` holds for `p`. */
  lemma {:induction false} WhoReleases(s: State, steps: seq<Step>, e: Step, p: nat, c: nat)
    requires Inv(s) && IsRun(s, steps) && p < |s.st| && c < |s.pc| && s.owner[p] == Some(c) && Unreleased(s, steps, p)
    requires Enabled(After(s, steps), e) && Taken(After(s, steps), e, p) == -1
    ensures Untouched(s, steps, p)
    ensures GoingBack(s.pc[c], p) ==> e == SchedRelease(c)
    ensures s.pc[c] == Enter(p) && s.ctx[p] != InWait ==> e == EnterRelease(c)
    ensures Keeping(s.pc[c], s.ctx[p], p) ==> e == Release(c, p) || e == SchedRelease(c)
    decreases |steps|
  {
    if steps == [] {
      assert CpuOk(s, e.c) && CpuOk(s, c);
    } else {
      NextKeeps(s, steps[0]);
      HeldOn(s, steps[0], p, c);
      WhoReleases(Do(s, steps[0]), steps[1..], e, p, c);
    }
  }

  /** In every run: once `scheduler` on CPU `c` has switched to the thread of `p`, the next release of `p->lock` is
      made by that thread on that CPU, with no acquire of the lock in between.  Only a thread that had slept in
      `wait`, which wakes with the lock still its own, may instead give up the CPU again with it. */
  lemma {:induction false} ThreadReleases(s0: State, before: seq<Step>, c: nat, steps: seq<Step>, e: Step)
    requires Init(s0) && IsRun(s0, before)
    requires var s := After(s0, before);
             && Enabled(s, SchedSwitch(c)) && IsRun(Do(s, SchedSwitch(c)), steps)
             && Unreleased(Do(s, SchedSwitch(c)), steps, s.pc[c].p)
             && Enabled(After(Do(s, SchedSwitch(c)), steps), e) && Taken(After(Do(s, SchedSwitch(c)), steps), e, s.pc[c].p) == -1
    ensures var s := After(s0, before);
            && Untouched(Do(s, SchedSwitch(c)), steps, s.pc[c].p)
            && (s.ctx[s.pc[c].p] != InWait ==> e == EnterRelease(c))
            && (s.ctx[s.pc[c].p] == InWait ==> e == Release(c, s.pc[c].p) || e == SchedRelease(c))
  {
    InitOk(s0);
    RunKeeps(s0, before);
    var s := After(s0, before);
    assert CpuOk(s, c);
    NextKeeps(s, SchedSwitch(c));
    WhoReleases(Do(s, SchedSwitch(c)), steps, e, s.pc[c].p, c);
  }

  /** In every run: once a thread of `p` has switched away on CPU `c`, the next release of `p->lock` is the one that
      `scheduler` makes on that CPU, with no acquire of the lock in between. */
  lemma {:induction false} SchedulerReleases(s0: State, before: seq<Step>, c: nat, steps: seq<Step>, e: Step)
    requires Init(s0) && IsRun(s0, before)
    requires var s := After(s0, before);
             && Enabled(s, Switch(c)) && IsRun(Do(s, Switch(c)), steps) && Unreleased(Do(s, Switch(c)), steps, s.pc[c].p)
             && Enabled(After(Do(s, Switch(c)), steps), e) && Taken(After(Do(s, Switch(c)), steps), e, s.pc[c].p) == -1
    ensures Untouched(Do(After(s0, before), Switch(c)), steps, After(s0, before).pc[c].p) && e == SchedRelease(c)
  {
    InitOk(s0);
    RunKeeps(s0, before);
    var s := After(s0, before);
    assert CpuOk(s, c);
    NextKeeps(s, Switch(c));
    WhoReleases(Do(s, Switch(c)), steps, e, s.pc[c].p, c);
  }
}
