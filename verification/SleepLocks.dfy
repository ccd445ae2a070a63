/** Sleep locks (kernel/sleeplock.c) as users of `sleep` and `wakeup`: one sleep lock and any number of
    processes, in every interleaving.  The steps inside `sleep` and `wakeup`, and their locks, are those of
    `Wakeup`; the sleep lock itself is channel 0, and its condition is that it is held. */
module SleepLocks {
  import opened Options
  import Wakeup

  /** How far a process is in `acquiresleep` (looking, or with the lock taken) or in `releasesleep`
      (entered, with the lock cleared, or with `wakeup` called). */
  datatype Job = Elsewhere | Look | Taken | Drop | Cleared | Woken

  /** `held` is the process named by `lk->locked` and `lk->pid`. */
  datatype State = State(w: Wakeup.State, held: Option<nat>, job: seq<Job>)

  datatype Step =
    | Acquire(p: nat)        // call acquiresleep
    | Release(p: nat)        // call releasesleep on a lock it holds
    | Sleep(p: nat)          // find the lock held
    | Take(p: nat)           // find it free and take it
    | Clear(p: nat)          // give it up
    | Wake(p: nat)           // call wakeup
    | Leave(p: nat)          // release(&lk->lk)
    | Inner(step: Wakeup.Step)  // a step inside sleep or wakeup, kill, or the scheduler

  ghost predicate Sized(s: State) {
    Wakeup.Sized(s.w) && |s.job| == |s.w.pc| && |s.w.blocked| == 1
  }

  ghost predicate IsInner(e: Wakeup.Step) { e.Go? || e.Kill? || e.Resume? }

  ghost predicate Enabled(s: State, e: Step)
    requires Sized(s)
  {
    match e
    case Acquire(p) => p < |s.job| && s.job[p] == Elsewhere && s.w.pc[p].Out?
    case Release(p) => p < |s.job| && s.job[p] == Elsewhere && s.w.pc[p].Out? && s.held == Some(p)
    case Sleep(p) => p < |s.job| && s.job[p] == Look && s.w.pc[p].In? && s.held.Some?
    case Take(p) => p < |s.job| && s.job[p] == Look && s.w.pc[p].In? && s.held.None?
    case Clear(p) => p < |s.job| && s.job[p] == Drop && s.w.pc[p].In?
    case Wake(p) => p < |s.job| && s.job[p] == Cleared && s.w.pc[p].In?
    case Leave(p) => p < |s.job| && (s.job[p] == Taken || s.job[p] == Woken) && s.w.pc[p].In?
    case Inner(step) => IsInner(step) && Wakeup.Enabled(s.w, step)
  }

  /** The step as `Wakeup` sees it. */
  ghost function Under(e: Step): Wakeup.Step {
    match e
    case Acquire(p) => Wakeup.Enter(p)
    case Release(p) => Wakeup.Enter(p)
    case Sleep(p) => Wakeup.Sleep(p, 0)
    case Take(p) => Wakeup.Change(p, [true])
    case Clear(p) => Wakeup.Change(p, [false])
    case Wake(p) => Wakeup.Wake(p, 0)
    case Leave(p) => Wakeup.Leave(p)
    case Inner(step) => step
  }

  ghost function Process(e: Step): nat { Under(e).p }

  // ---------------------------------------------------------------------------
  // Invariant

  /** A process with a job between the two ends of its call is the holder of the spin lock. */
  ghost predicate JobOk(s: State, p: nat)
    requires Sized(s)
  {
    p < |s.job| ==>
      && (s.job[p] == Taken || s.job[p] == Cleared ==> s.w.pc[p].In?)
      && (s.job[p] == Woken ==> s.w.pc[p].In? || s.w.pc[p].Scan?)
      && (s.job[p] == Drop ==> s.w.pc[p].Want? || s.w.pc[p].In?)
      && (s.job[p] == Elsewhere ==> s.w.pc[p].Out?)
      && (s.w.pc[p].Scan? ==> s.job[p] == Woken && s.w.pc[p].ch == 0)
      && (s.job[p] == Drop || s.job[p] == Taken ==> s.held == Some(p))
      && (s.w.pc[p].In? && s.job[p] != Cleared ==> s.w.owed == {})
  }

  ghost predicate Inv(s: State) {
    && Sized(s) && Wakeup.Inv(s.w) && s.w.blocked == [s.held.Some?] && s.w.owed <= {0}
    && forall p {:trigger JobOk(s, p)} :: JobOk(s, p)
  }

  ghost predicate Init(s: State) {
    && Sized(s) && Wakeup.Init(s.w) && s.held.None? && s.w.blocked == [false]
    && forall p :: 0 <= p < |s.job| ==> s.job[p] == Elsewhere
  }

  /** Sleep locks obey the rule of `Wakeup`: what they do are steps of it. */
  lemma {:induction false} StepsAreAllowed(s: State, e: Step)
    requires Inv(s) && Enabled(s, e)
    ensures Wakeup.Enabled(s.w, Under(e))
  {
    if !e.Inner? { assert JobOk(s, e.p); }
  }

  ghost function Do(s: State, e: Step): State
    requires Sized(s) && Enabled(s, e) && Wakeup.Enabled(s.w, Under(e))
  {
    var s' := s.(w := Wakeup.Do(s.w, Under(e)));
    match e
    case Acquire(p) => s'.(job := s.job[p := Look])
    case Release(p) => s'.(job := s.job[p := Drop])
    case Sleep(p) => s'
    case Take(p) => s'.(held := Some(p), job := s.job[p := Taken])
    case Clear(p) => s'.(held := None, job := s.job[p := Cleared])
    case Wake(p) => s'.(job := s.job[p := Woken])
    case Leave(p) => s'.(job := s.job[p := Elsewhere])
    case Inner(step) => s'
  }

  lemma {:induction false} NextKeeps(s: State, e: Step)
    requires Inv(s) && Enabled(s, e) && Wakeup.Enabled(s.w, Under(e))
    ensures Inv(Do(s, e))
  {
    Wakeup.NextKeeps(s.w, Under(e));
    forall p ensures JobOk(Do(s, e), p) { JobKept(s, e, p); }
  }

  lemma {:induction false} JobKept(s: State, e: Step, p: nat)
    requires Inv(s) && Enabled(s, e) && Wakeup.Enabled(s.w, Under(e))
    ensures JobOk(Do(s, e), p)
  {
    assert Wakeup.ProcOk(s.w, Process(e)) && JobOk(s, Process(e)) && JobOk(s, p) && Wakeup.ProcOk(s.w, p);
  }

  // ---------------------------------------------------------------------------
  // Whole runs

  ghost predicate Leads(s: State, steps: seq<Step>, t: State)
    decreases |steps|
  {
    if steps == [] then s == t
    else
      && Sized(s) && Enabled(s, steps[0]) && Wakeup.Enabled(s.w, Under(steps[0]))
      && Leads(Do(s, steps[0]), steps[1..], t)
  }

  ghost predicate Reachable(s: State) {
    exists from, steps :: Init(from) && Leads(from, steps, s)
  }

  lemma {:induction false} LeadsKeeps(s: State, steps: seq<Step>, t: State)
    requires Inv(s) && Leads(s, steps, t)
    ensures Inv(t)
    decreases |steps|
  {
    if steps != [] {
      NextKeeps(s, steps[0]);
      LeadsKeeps(Do(s, steps[0]), steps[1..], t);
    }
  }

  lemma {:induction false} ReachableOk(s: State)
    requires Reachable(s)
    ensures Inv(s)
  {
    var from, steps :| Init(from) && Leads(from, steps, s);
    Wakeup.InitOk(from.w);
    forall p ensures JobOk(from, p) {}
    LeadsKeeps(from, steps, s);
  }

  /** No lost wakeup: in every reachable state in which its spin lock is free, a sleep lock that some
      process sleeps on is held. */
  lemma {:induction false} SleeperImpliesLocked(s: State, p: nat)
    requires Reachable(s) && Sized(s) && p < |s.job| && s.w.lock.None?
    requires s.w.sleeping[p] && s.w.chan[p] == Some(0)
    ensures s.held.Some?
  {
    ReachableOk(s);
    assert Wakeup.ProcOk(s.w, p) && Wakeup.NotLost(s.w, p, 0);
  }

  /** No guard of `Wakeup` ever stops a process in `acquiresleep` or `releasesleep`. */
  lemma {:induction false} NeverStopped(s: State, e: Step)
    requires Reachable(s) && Sized(s) && Enabled(s, e)
    ensures Wakeup.Enabled(s.w, Under(e)) && Reachable(Do(s, e))
  {
    ReachableOk(s);
    StepsAreAllowed(s, e);
    var from, steps :| Init(from) && Leads(from, steps, s);
    LeadsMore(from, steps, s, e);
  }

  lemma {:induction false} LeadsMore(s: State, steps: seq<Step>, t: State, e: Step)
    requires Leads(s, steps, t) && Sized(t) && Enabled(t, e) && Wakeup.Enabled(t.w, Under(e))
    ensures Leads(s, steps + [e], Do(t, e))
    decreases |steps|
  {
    if steps == [] {
      assert (steps + [e])[1..] == [];
    } else {
      LeadsMore(Do(s, steps[0]), steps[1..], t, e);
      assert (steps + [e])[1..] == steps[1..] + [e];
    }
  }

  /** Mutual exclusion: no step of another process takes the lock from its holder. */
  lemma {:induction false} OnlyHolderReleases(s: State, e: Step, p: nat)
    requires Reachable(s) && Sized(s) && Enabled(s, e) && Wakeup.Enabled(s.w, Under(e)) && Process(e) != p && s.held == Some(p)
    ensures Do(s, e).held == Some(p)
  {
    ReachableOk(s);
    assert JobOk(s, Process(e));
  }
}
