/** The law of `sleep` and `wakeup` (kernel/proc.c) for any code that uses them: one spin lock, the
    channels that its users sleep on, and for each channel a condition on the data under the lock.
    `blocked[ch]` is the truth of that condition; users may change it at will while they hold the lock.

    The rule for users is to wake a channel, before they give up the lock, if they ended its condition
    since they took the lock.  `SleepLocks` follows it step by step; `LogAdmission.StepsObeyRule` and the
    contracts of `Pipe` say that the log and pipes do, but for the failing exit of `pipewrite`. */
module Wakeup {
  import opened Options

  /** The place of a process; the code of `sleep` and `wakeup` is inlined. */
  datatype Pc =
    | Out                      // not using the lock
    | Want                     // at acquire(lk)
    | In                       // holds the lock
    | Scan(ch: nat, i: nat)    // holds the lock, in wakeup at process i
    | TakeOwn(ch: nat)         // in sleep, holds the lock, at acquire(&p->lock)
    | DropLock(ch: nat)        // holds both locks, at release(lk)
    | Doze(ch: nat)            // holds p->lock, has not set its state yet
    | Slept(ch: nat)           // state set, p->lock not yet released by the scheduler
    | Asleep(ch: nat)          // off the CPU
    | Awake(ch: nat)           // running again, holds p->lock

  /** `own[p]` holds `p->lock`; `owed` are the channels whose condition ended under the present holder of the
      lock and that it has not woken yet. */
  datatype State = State(pc: seq<Pc>, sleeping: seq<bool>, chan: seq<Option<nat>>, own: seq<Option<nat>>,
                         lock: Option<nat>, blocked: seq<bool>, owed: set<nat>)

  ghost predicate Sized(s: State) {
    |s.sleeping| == |s.chan| == |s.own| == |s.pc|
  }

  // ---------------------------------------------------------------------------
  // Invariant

  /** Process `p` is between its look at the condition of `ch` and its sleep, or asleep. */
  ghost predicate Committed(s: State, p: nat, ch: nat)
    requires Sized(s) && p < |s.pc|
  {
    || s.pc[p] == TakeOwn(ch) || s.pc[p] == DropLock(ch) || s.pc[p] == Doze(ch)
    || ((s.pc[p] == Slept(ch) || s.pc[p] == Asleep(ch)) && s.sleeping[p])
  }

  ghost predicate Holding(pc: Pc) { pc.In? || pc.Scan? || pc.TakeOwn? || pc.DropLock? }

  ghost predicate HoldsOwn(pc: Pc) { pc.DropLock? || pc.Doze? || pc.Slept? || pc.Awake? }

  ghost predicate ProcOk(s: State, p: nat)
    requires Sized(s)
  {
    p < |s.pc| ==>
      && (Holding(s.pc[p]) <==> s.lock == Some(p))
      && (HoldsOwn(s.pc[p]) ==> s.own[p] == Some(p))
      && (s.pc[p].TakeOwn? || s.pc[p].DropLock? ==> s.owed == {})
      && (s.pc[p].Scan? ==> s.pc[p].i <= |s.pc|)
      && (s.sleeping[p] ==> (s.pc[p].Slept? || s.pc[p].Asleep?) && s.chan[p] == Some(s.pc[p].ch))
  }

  /** A wakeup of `ch` is still to reach `p`. */
  ghost predicate WakeupComing(s: State, p: nat, ch: nat) {
    && s.lock.Some? && s.lock.value < |s.pc|
    && var pc := s.pc[s.lock.value];
       if pc.Scan? && pc.ch == ch then pc.i <= p else ch in s.owed
  }

  /** The heart: whoever is committed to sleep has its condition, or a wakeup on its way. */
  ghost predicate NotLost(s: State, p: nat, ch: nat)
    requires Sized(s)
  {
    p < |s.pc| && ch < |s.blocked| && Committed(s, p, ch) ==> s.blocked[ch] || WakeupComing(s, p, ch)
  }

  /** Whomever the scan of a `wakeup` has passed is not on the way to sleep on its channel. */
  ghost predicate Passed(s: State, w: nat, p: nat)
    requires Sized(s)
  {
    w < |s.pc| && p < |s.pc| && s.pc[w].Scan? && p < s.pc[w].i ==> !Committed(s, p, s.pc[w].ch)
  }

  ghost predicate Inv(s: State) {
    && Sized(s) && (s.lock.None? ==> s.owed == {}) && (s.lock.Some? ==> s.lock.value < |s.pc|)
    && (forall p {:trigger ProcOk(s, p)} :: ProcOk(s, p))
    && (forall w, p {:trigger Passed(s, w, p)} :: Passed(s, w, p))
    && (forall p, ch {:trigger NotLost(s, p, ch)} :: NotLost(s, p, ch))
  }

  ghost predicate Init(s: State) {
    && Sized(s) && s.lock.None? && s.owed == {}
    && forall p :: 0 <= p < |s.pc| ==> s.pc[p].Out? && !s.sleeping[p] && s.own[p].None?
  }

  // ---------------------------------------------------------------------------
  // The steps

  datatype Step =
    | Enter(p: nat)                            // go for the lock
    | Change(p: nat, blocked: seq<bool>)       // any change of the data under the lock
    | Wake(p: nat, ch: nat)                    // call wakeup
    | Sleep(p: nat, ch: nat)                   // call sleep, with the condition seen true
    | Leave(p: nat)                            // release the lock
    | Go(p: nat)                               // the next step of the process
    | Kill(p: nat)                             // kill, or the wakeup of another lock's user
    | Resume(p: nat)                           // the scheduler runs a woken process

  ghost predicate Enabled(s: State, e: Step)
    requires Sized(s)
  {
    && e.p < |s.pc|
    && var pc := s.pc[e.p];
       match e
       case Enter(p) => pc.Out?
       case Change(p, blocked) => pc.In? && |blocked| == |s.blocked|
       case Wake(p, ch) => pc.In? && ch < |s.blocked|
       case Sleep(p, ch) => pc.In? && ch < |s.blocked| && s.blocked[ch] && s.owed == {}
       case Leave(p) => pc.In? && s.owed == {}
       case Kill(p) => s.own[p].None? && s.sleeping[p]
       case Resume(p) => pc.Asleep? && !s.sleeping[p] && s.own[p].None?
       case Go(p) =>
         match pc
         case Want => s.lock.None?
         case Scan(ch, i) => i < |s.pc| ==> s.own[i].None?
         case TakeOwn(ch) => s.own[p].None?
         case DropLock(ch) => true
         case Doze(ch) => true
         case Slept(ch) => true
         case Awake(ch) => true
         case _ => false
  }

  /** The channels whose condition a change ends, and those still owed. */
  ghost function Owed(s: State, blocked: seq<bool>): set<nat>
    requires |blocked| == |s.blocked|
  {
    set ch: nat | ch < |blocked| && Ended(s, blocked, ch)
  }

  ghost predicate Ended(s: State, blocked: seq<bool>, ch: nat)
    requires ch < |blocked| == |s.blocked|
  {
    !blocked[ch] && (ch in s.owed || s.blocked[ch])
  }

  /** The rule, as users show it of one critical section: every channel whose condition ends is woken. */
  ghost predicate Obeys(before: seq<bool>, after: seq<bool>, woken: set<nat>) {
    |before| == |after| && forall ch :: 0 <= ch < |before| && before[ch] && !after[ch] ==> ch in woken
  }

  /** A critical section that obeys the rule owes nothing beyond the wakeups that it makes. */
  lemma {:induction false} ObeyingOwesNothing(s: State, after: seq<bool>, woken: set<nat>)
    requires Obeys(s.blocked, after, woken) && s.owed == {}
    ensures Owed(s, after) <= woken
  {
    forall ch | ch in Owed(s, after) ensures ch in woken { assert Ended(s, after, ch); }
  }

  /** The next step of process `p` inside `sleep` or `wakeup`. */
  ghost function Advance(s: State, p: nat): State
    requires Sized(s) && Enabled(s, Go(p))
  {
    match s.pc[p]
    case Want => s.(lock := Some(p), pc := s.pc[p := In])
    case Scan(ch, i) =>
      if i >= |s.pc| then s.(owed := s.owed - {ch}, pc := s.pc[p := In])
      else if s.sleeping[i] && s.chan[i] == Some(ch) then s.(sleeping := s.sleeping[i := false], pc := s.pc[p := Scan(ch, i + 1)])
      else s.(pc := s.pc[p := Scan(ch, i + 1)])
    case TakeOwn(ch) => s.(own := s.own[p := Some(p)], pc := s.pc[p := DropLock(ch)])
    case DropLock(ch) => s.(lock := None, pc := s.pc[p := Doze(ch)])
    case Doze(ch) => s.(sleeping := s.sleeping[p := true], chan := s.chan[p := Some(ch)], pc := s.pc[p := Slept(ch)])
    case Slept(ch) => s.(own := s.own[p := None], pc := s.pc[p := Asleep(ch)])
    case Awake(ch) => s.(own := s.own[p := None], chan := s.chan[p := None], pc := s.pc[p := Want])
  }

  ghost function Do(s: State, e: Step): State
    requires Sized(s) && Enabled(s, e)
  {
    match e
    case Enter(p) => s.(pc := s.pc[p := Want])
    case Change(p, blocked) => s.(blocked := blocked, owed := Owed(s, blocked))
    case Wake(p, ch) => s.(pc := s.pc[p := Scan(ch, 0)])
    case Sleep(p, ch) => s.(pc := s.pc[p := TakeOwn(ch)])
    case Leave(p) => s.(lock := None, pc := s.pc[p := Out])
    case Kill(p) => s.(sleeping := s.sleeping[p := false])
    case Resume(p) => s.(own := s.own[p := Some(p)], pc := s.pc[p := Awake(s.pc[p].ch)])
    case Go(p) => Advance(s, p)
  }

  // ---------------------------------------------------------------------------
  // Every step keeps the invariant

  /** The steps of `sleep`, and of taking the lock. */
  lemma {:induction false} SleepKeeps(s: State, p: nat)
    requires Inv(s) && Enabled(s, Go(p)) && !s.pc[p].Scan?
    ensures Inv(Advance(s, p))
  {
    var s' := Advance(s, p);
    assert ProcOk(s, p);
    forall q ensures ProcOk(s', q) { assert ProcOk(s, q); }
    forall w, q ensures Passed(s', w, q) { assert Passed(s, w, q) && ProcOk(s, w) && ProcOk(s, q); }
    forall q, ch ensures NotLost(s', q, ch) { assert NotLost(s, q, ch) && ProcOk(s, q); }
  }

  /** A step of the scan of `wakeup`. */
  lemma {:induction false} ScanKeeps(s: State, p: nat)
    requires Inv(s) && Enabled(s, Go(p)) && s.pc[p].Scan?
    ensures Inv(Advance(s, p))
  {
    var s' := Advance(s, p);
    assert ProcOk(s, p);
    forall q ensures ProcOk(s', q) { assert ProcOk(s, q); }
    forall w, q ensures Passed(s', w, q) { assert Passed(s, w, q) && ProcOk(s, w) && ProcOk(s, q); }
    forall q, ch ensures NotLost(s', q, ch) { assert NotLost(s, q, ch) && ProcOk(s, q); }
  }

  /** Any change of the data under the lock. */
  lemma {:induction false} ChangeKeeps(s: State, e: Step)
    requires Inv(s) && Enabled(s, e) && e.Change?
    ensures Inv(Do(s, e))
  {
    var s' := Do(s, e);
    assert ProcOk(s, e.p);
    forall q ensures ProcOk(s', q) { assert ProcOk(s, q); }
    forall w, q ensures Passed(s', w, q) { assert Passed(s, w, q) && ProcOk(s, w) && ProcOk(s, q); }
    forall q, ch: nat ensures NotLost(s', q, ch) {
      assert NotLost(s, q, ch) && ProcOk(s, q);
      assert ch < |s.blocked| ==> (ch in s'.owed <==> Ended(s, e.blocked, ch));
    }
  }

  /** The other calls, and steps from outside. */
  lemma {:induction false} CallKeeps(s: State, e: Step)
    requires Inv(s) && Enabled(s, e) && !e.Go? && !e.Change?
    ensures Inv(Do(s, e))
  {
    var s' := Do(s, e);
    assert ProcOk(s, e.p);
    forall q ensures ProcOk(s', q) { assert ProcOk(s, q); }
    forall w, q ensures Passed(s', w, q) { assert Passed(s, w, q) && ProcOk(s, w) && ProcOk(s, q); }
    forall q, ch ensures NotLost(s', q, ch) { assert NotLost(s, q, ch) && ProcOk(s, q); }
  }

  lemma {:induction false} NextKeeps(s: State, e: Step)
    requires Inv(s) && Enabled(s, e)
    ensures Inv(Do(s, e))
  {
    if e.Change? { ChangeKeeps(s, e); }
    else if !e.Go? { CallKeeps(s, e); }
    else if s.pc[e.p].Scan? { ScanKeeps(s, e.p); }
    else { SleepKeeps(s, e.p); }
  }

  // ---------------------------------------------------------------------------
  // Whole runs

  /** The steps lead from `s` to `t`. */
  ghost predicate Leads(s: State, steps: seq<Step>, t: State)
    decreases |steps|
  {
    if steps == [] then s == t else Sized(s) && Enabled(s, steps[0]) && Leads(Do(s, steps[0]), steps[1..], t)
  }

  ghost predicate Reachable(s: State) {
    exists from, steps :: Init(from) && Leads(from, steps, s)
  }

  lemma {:induction false} LeadsKeeps(s: State, steps: seq<Step>, t: State)
    requires Inv(s) && Leads(s, steps, t)
    ensures Inv(t)
    decreases |steps|
  {
    if steps != [] {
      NextKeeps(s, steps[0]);
      LeadsKeeps(Do(s, steps[0]), steps[1..], t);
    }
  }

  lemma {:induction false} InitOk(s: State)
    requires Init(s)
    ensures Inv(s)
  {
    forall p ensures ProcOk(s, p) {}
    forall w, p ensures Passed(s, w, p) {}
    forall p, ch ensures NotLost(s, p, ch) {}
  }

  lemma {:induction false} ReachableOk(s: State)
    requires Reachable(s)
    ensures Inv(s)
  {
    var from, steps :| Init(from) && Leads(from, steps, s);
    InitOk(from);
    LeadsKeeps(from, steps, s);
  }

  /** In every reachable state with the lock free, whoever sleeps on a channel has its condition: so a
      `wakeup` may be treated as one step that wakes every sleeper of the channel. */
  lemma {:induction false} SleeperImpliesBlocked(s: State, p: nat, ch: nat)
    requires Reachable(s) && Sized(s) && s.lock.None? && p < |s.pc| && ch < |s.blocked|
    requires s.sleeping[p] && s.chan[p] == Some(ch)
    ensures s.blocked[ch]
  {
    ReachableOk(s);
    assert ProcOk(s, p) && NotLost(s, p, ch);
  }

  /** When the scan of a `wakeup` ends, nobody is asleep on its channel or on the way to sleep, whether or
      not the condition of the channel has ended. */
  lemma {:induction false} ScanReachesAll(s: State, w: nat, p: nat, ch: nat)
    requires Reachable(s) && Sized(s) && w < |s.pc| && p < |s.pc| && s.pc[w] == Scan(ch, |s.pc|)
    ensures !Committed(s, p, ch) && !(s.sleeping[p] && s.chan[p] == Some(ch))
  {
    ReachableOk(s);
    assert ProcOk(s, p) && Passed(s, w, p);
  }
}
