/** Admission to the log (kernel/log.c): how `begin_op`, `log_write` and `end_op` share log space.

`ops` holds, for every outstanding operation, the number of blocks it has appended so far; `n` is
`log.lh.n`; `sleepers` are the processes asleep on the log. */
module LogAdmission {
  import opened Blocks
  import Wakeup

  const MKFS_NLOG := LOGSIZE

  datatype State = State(n: nat, ops: seq<nat>, committing: bool, sleepers: set<nat>)

  /** The space outstanding operations may still claim. */
  ghost function Reserved(ops: seq<nat>): int {
    if ops == [] then 0 else Reserved(ops[..|ops| - 1]) + MAXOPBLOCKS - ops[|ops| - 1]
  }

  /** The test of `begin_op`. */
  predicate Admits(s: State) {
    !s.committing && s.n + (|s.ops| + 1) * MAXOPBLOCKS <= LOGSIZE
  }

  /** The test that makes `log_write` panic, made before it looks for the block in the log. */
  predicate TooBig(n: nat, size: nat) {
    n >= LOGSIZE || n >= size - 1
  }

  datatype Step = BeginStep(p: nat) | AppendStep(k: nat) | EndStep(k: nat) | CommitStep | WakeStep(p: nat)

  /** `begin_op` up to its sleep or return; a sleeper that was woken runs the test again. */
  ghost predicate Begin(s: State, p: nat, s': State) {
    p !in s.sleepers && s' == if Admits(s) then s.(ops := s.ops + [0]) else s.(sleepers := s.sleepers + {p})
  }

  /** `log_write` of a block the log does not hold yet. */
  ghost predicate Append(s: State, k: nat, s': State) {
    k < |s.ops| && s.ops[k] < MAXOPBLOCKS && s' == s.(n := s.n + 1, ops := s.ops[k := s.ops[k] + 1])
  }

  /** The critical section of `end_op`. */
  ghost predicate End(s: State, k: nat, s': State) {
    && k < |s.ops| && !s.committing
    && s' == if |s.ops| == 1 then s.(ops := [], committing := true)
             else s.(ops := s.ops[..k] + s.ops[k + 1..], sleepers := {})
  }

  /** The commit is over: `log.lh.n` and `log.committing` are 0 again and everybody is woken. */
  ghost predicate Commit(s: State, s': State) {
    s.committing && s' == s.(n := 0, committing := false, sleepers := {})
  }

  ghost predicate Next(s: State, step: Step, s': State) {
    match step
    case BeginStep(p) => Begin(s, p, s')
    case AppendStep(k) => Append(s, k, s')
    case EndStep(k) => End(s, k, s')
    case CommitStep => Commit(s, s')
    case WakeStep(p) => s' == s.(sleepers := s.sleepers - {p})
  }

  ghost predicate Inv(s: State) {
    && s.n + Reserved(s.ops) <= LOGSIZE
    && (forall k :: 0 <= k < |s.ops| ==> s.ops[k] <= MAXOPBLOCKS)
    && (s.committing ==> s.ops == [])
    && (s.ops == [] && !s.committing ==> s.n == 0)
    && (s.sleepers != {} ==> !Admits(s))
  }

  // ---------------------------------------------------------------------------

  lemma {:induction false} ReservedUpdate(ops: seq<nat>, k: nat, used: nat)
    requires k < |ops|
    ensures Reserved(ops[k := used]) == Reserved(ops) + ops[k] - used
  {
    var last := |ops| - 1;
    if k < last {
      ReservedUpdate(ops[..last], k, used);
      assert ops[k := used][..last] == ops[..last][k := used];
    } else {
      assert ops[k := used][..last] == ops[..last];
    }
  }

  lemma {:induction false} ReservedLast(ops: seq<nat>, used: nat)
    ensures Reserved(ops + [used]) == Reserved(ops) + MAXOPBLOCKS - used
  {
    assert (ops + [used])[..|ops|] == ops;
  }

  lemma {:induction false} RemovedLast(ops: seq<nat>, k: nat)
    requires k < |ops| - 1
    ensures var last := |ops| - 1; ops[..k] + ops[k + 1..] == ops[..last][..k] + ops[..last][k + 1..] + [ops[last]]
  {
  }

  lemma {:induction false} ReservedRemove(ops: seq<nat>, k: nat)
    requires k < |ops|
    ensures Reserved(ops[..k] + ops[k + 1..]) == Reserved(ops) - MAXOPBLOCKS + ops[k]
    decreases |ops|
  {
    var last := |ops| - 1;
    if k < last {
      ReservedRemove(ops[..last], k);
      RemovedLast(ops, k);
      ReservedLast(ops[..last][..k] + ops[..last][k + 1..], ops[last]);
    } else {
      assert ops[..k] + ops[k + 1..] == ops[..last];
    }
  }

  /** Every operation's claim counts. */
  lemma {:induction false} ReservedAtLeast(ops: seq<nat>, k: nat)
    requires k < |ops| && forall i :: 0 <= i < |ops| ==> ops[i] <= MAXOPBLOCKS
    ensures Reserved(ops) >= MAXOPBLOCKS - ops[k]
  {
    var last := |ops| - 1;
    if k < last {
      ReservedAtLeast(ops[..last], k);
    } else if last > 0 {
      ReservedAtLeast(ops[..last], 0);
    }
  }

  lemma {:induction false} BeginKeeps(s: State, p: nat, s': State)
    requires Inv(s) && Begin(s, p, s')
    ensures Inv(s')
  {
    if Admits(s) {
      ReservedBound(s.ops);
      assert s'.ops[..|s.ops|] == s.ops;
    }
  }

  lemma {:induction false} EndKeeps(s: State, k: nat, s': State)
    requires Inv(s) && End(s, k, s')
    ensures Inv(s')
  {
    ReservedRemove(s.ops, k);
    ReservedAtLeast(s.ops, k);
  }

  lemma {:induction false} NextKeeps(s: State, step: Step, s': State)
    requires Inv(s) && Next(s, step, s')
    ensures Inv(s')
  {
    match step
    case BeginStep(p) => BeginKeeps(s, p, s');
    case AppendStep(k) => ReservedUpdate(s.ops, k, s.ops[k] + 1);
    case EndStep(k) => EndKeeps(s, k, s');
    case CommitStep =>
    case WakeStep(p) =>
  }

  lemma {:induction false} ReservedBound(ops: seq<nat>)
    ensures Reserved(ops) <= |ops| * MAXOPBLOCKS
  {
    if ops != [] {
      ReservedBound(ops[..|ops| - 1]);
    }
  }

  /** The critical sections that call `wakeup` on the log: the end of an operation that is not the last, and
      the end of a commit. */
  predicate Wakes(s: State, step: Step) {
    step.CommitStep? || (step.EndStep? && |s.ops| > 1)
  }

  /** The log obeys the rule of `Wakeup`: whenever a step ends the condition that `begin_op` sleeps on, it calls
      `wakeup`, and a process goes to sleep only while the condition holds. */
  lemma {:induction false} StepsObeyRule(s: State, step: Step, s': State)
    requires Inv(s) && Next(s, step, s')
    ensures Wakeup.Obeys([!Admits(s)], [!Admits(s')], if Wakes(s, step) then {0} else {})
    ensures Wakes(s, step) ==> s'.sleepers == {}
    ensures step.BeginStep? && s'.sleepers != s.sleepers ==> !Admits(s)
  {
  }

  ghost predicate Run(states: seq<State>, steps: seq<Step>) {
    && |states| == |steps| + 1 && states[0] == State(0, [], false, {})
    && (forall i {:trigger steps[i]} :: 0 <= i < |steps| ==> Next(states[i], steps[i], states[i + 1]))
  }

  /** In every run of operations that append at most `MAXOPBLOCKS` blocks each: what is logged plus
      what is still reserved fits the log; a commit runs with no operation outstanding; whoever
      sleeps on the log would not be admitted; and an idle log is empty and has no sleepers. */
  lemma {:induction false} AdmissionIsSafe(states: seq<State>, steps: seq<Step>, i: nat)
    requires Run(states, steps) && i < |states|
    ensures var s := states[i];
            && Inv(s) && s.n + Reserved(s.ops) <= LOGSIZE && (s.committing ==> s.ops == [])
            && (s.sleepers != {} ==> s.committing || s.n + (|s.ops| + 1) * MAXOPBLOCKS > LOGSIZE)
            && (s.ops == [] && !s.committing ==> s.n == 0 && s.sleepers == {})
  {
    if i > 0 {
      AdmissionIsSafe(states, steps, i - 1);
      NextKeeps(states[i - 1], steps[i - 1], states[i]);
    }
  }

  /** With the log size that mkfs chooses, `log_write` cannot panic in operation `k` as long as `k` has
      appended at most `MAXOPBLOCKS - 2` blocks, whatever the other operations have appended. */
  lemma {:induction false} SmallOperationsFit(states: seq<State>, steps: seq<Step>, i: nat, k: nat)
    requires Run(states, steps) && i < |states| && k < |states[i].ops|
    requires states[i].ops[k] <= MAXOPBLOCKS - 2
    ensures !TooBig(states[i].n, MKFS_NLOG)
  {
    AdmissionIsSafe(states, steps, i);
    ReservedAtLeast(states[i].ops, k);
  }

  ghost function Clamp(x: int): nat {
    if x < 0 then 0 else if x > MAXOPBLOCKS then MAXOPBLOCKS else x
  }

  /** Three operations begin, then append ten, ten and nine blocks. */
  ghost function WitnessState(i: nat): State {
    if i <= 3 then State(0, seq(i, _ => 0), false, {})
    else State(i - 3, [Clamp(i - 3), Clamp(i - 13), Clamp(i - 23)], false, {})
  }

  ghost function WitnessStep(i: nat): Step {
    if i < 3 then BeginStep(0) else AppendStep(if i < 13 then 0 else if i < 23 then 1 else 2)
  }

  /** The bound is sharp: an operation that has appended `MAXOPBLOCKS - 1` blocks can find the log
      full, and then panics even when the block it logs would be absorbed. */
  lemma {:induction false} NineAppendsCanPanic() returns (states: seq<State>, steps: seq<Step>)
    ensures Run(states, steps) && |states| == 33
    ensures states[32].ops == [MAXOPBLOCKS, MAXOPBLOCKS, MAXOPBLOCKS - 1] && TooBig(states[32].n, MKFS_NLOG)
  {
    states, steps := seq(33, i requires 0 <= i => WitnessState(i)), seq(32, i requires 0 <= i => WitnessStep(i));
    assert states[0].ops == [];
    forall i {:trigger steps[i]} | 0 <= i < 32 ensures Next(states[i], steps[i], states[i + 1]) {
      if i < 3 {
        assert states[i + 1].ops == states[i].ops + [0];
      }
      if i == 3 {
        assert states[i].ops == [0, 0, 0];
      }
    }
  }
}
