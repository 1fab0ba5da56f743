/** Cooldown safety of the circuit breaker over arbitrary interleavings of locked steps. */
module Cooldown {
  import opened Config
  import opened DeviceState

  predicate NonDecreasing(steps: seq<Step>) {
    forall i, j :: 0 <= i <= j < |steps| ==> steps[i].at <= steps[j].at
  }

  /** The record after the first n steps since the last reset. */
  function StateAt(c: ReliabilityConfig, steps: seq<Step>, n: nat): ManagedState
    requires n <= |steps|
  {
    Replay(c, Fresh(true), steps[..n])
  }

  lemma StateStep(c: ReliabilityConfig, steps: seq<Step>, n: nat)
    requires n < |steps|
    ensures StateAt(c, steps, n + 1) == Apply(c, StateAt(c, steps, n), steps[n])
  {
    assert Init(steps[..n + 1]) == steps[..n];
  }

  /** Step i moves the breaker into Open. */
  predicate Opens(c: ReliabilityConfig, steps: seq<Step>, i: nat)
    requires i < |steps|
  {
    StateAt(c, steps, i).circuit.state != Open && StateAt(c, steps, i + 1).circuit.state == Open
  }

  predicate Admitted(c: ReliabilityConfig, steps: seq<Step>, j: nat)
    requires j < |steps|
  {
    steps[j].Admit? && Allows(StateAt(c, steps, j).circuit, c.Cooldown(), steps[j].at)
  }

  predicate NoSuccess(steps: seq<Step>, i: nat, j: nat)
    requires j <= |steps|
  {
    forall k :: i < k < j ==> !steps[k].RecordSuccess?
  }

  /** No failure can move the opening time of an Open breaker in such a record. */
  predicate PastThreshold(c: ReliabilityConfig, s: ManagedState) {
    s.circuit.state != Closed ==> s.consecutiveFailures >= c.Threshold()
  }

  lemma AlwaysPastThreshold(c: ReliabilityConfig, steps: seq<Step>, n: nat)
    requires n <= |steps|
    ensures PastThreshold(c, StateAt(c, steps, n))
  {
    PhaseInvariantHolds(c, steps[..n]);
  }

  lemma StaysOpen(c: ReliabilityConfig, s: ManagedState, step: Step, openedAt: nat)
    requires PastThreshold(c, s) && s.circuit == Circuit(Open, openedAt) && !step.RecordSuccess?
    ensures Apply(c, s, step).circuit == Circuit(Open, openedAt) || step.at >= openedAt + c.Cooldown()
  {
  }

  lemma KeepsOpeningTime(c: ReliabilityConfig, s: ManagedState, step: Step, openedAt: nat)
    requires PastThreshold(c, s) && (s.circuit.state == Open ==> s.circuit.openedAt == openedAt)
    requires s.circuit.state != Open ==> Apply(c, s, step).circuit.state != Open
    ensures Apply(c, s, step).circuit.state == Open ==> Apply(c, s, step).circuit.openedAt == openedAt
  {
  }

  /** Until a success, the breaker keeps its opening time or the cooldown has already passed. */
  lemma {:induction false} OpenUntilCooldown(c: ReliabilityConfig, steps: seq<Step>, i: nat, n: nat)
    requires i < n <= |steps| && NonDecreasing(steps)
    requires Opens(c, steps, i) && NoSuccess(steps, i, n)
    ensures || StateAt(c, steps, n).circuit == Circuit(Open, steps[i].at)
            || steps[n - 1].at >= steps[i].at + c.Cooldown()
  {
    if n == i + 1 {
      StateStep(c, steps, i);
    } else {
      OpenUntilCooldown(c, steps, i, n - 1);
      StateStep(c, steps, n - 1);
      AlwaysPastThreshold(c, steps, n - 1);
      if StateAt(c, steps, n - 1).circuit == Circuit(Open, steps[i].at) {
        StaysOpen(c, StateAt(c, steps, n - 1), steps[n - 1], steps[i].at);
      }
    }
  }

  /** No request is admitted within the cooldown of an opening unless a success intervenes, even
      while requests that were already in flight keep failing. */
  lemma CooldownSafety(c: ReliabilityConfig, steps: seq<Step>, i: nat, j: nat)
    requires i < j < |steps| && NonDecreasing(steps)
    requires Opens(c, steps, i) && Admitted(c, steps, j) && NoSuccess(steps, i, j)
    ensures steps[j].at >= steps[i].at + c.Cooldown()
  {
    OpenUntilCooldown(c, steps, i, j);
  }

  /** Two openings with no success between them are at least the cooldown apart. */
  lemma ReopeningSpacing(c: ReliabilityConfig, steps: seq<Step>, i: nat, j: nat)
    requires i < j < |steps| && NonDecreasing(steps)
    requires Opens(c, steps, i) && Opens(c, steps, j) && NoSuccess(steps, i, j)
    ensures steps[j].at >= steps[i].at + c.Cooldown()
  {
    OpenUntilCooldown(c, steps, i, j);
  }

  /** Between two openings the opening time does not move. */
  lemma {:induction false} OpeningTimeStands(c: ReliabilityConfig, steps: seq<Step>, i: nat, n: nat)
    requires i < n <= |steps| && Opens(c, steps, i)
    requires forall k :: i < k < n ==> !Opens(c, steps, k)
    ensures StateAt(c, steps, n).circuit.state == Open ==> StateAt(c, steps, n).circuit.openedAt == steps[i].at
  {
    if n == i + 1 {
      StateStep(c, steps, i);
    } else {
      OpeningTimeStands(c, steps, i, n - 1);
      StateStep(c, steps, n - 1);
      AlwaysPastThreshold(c, steps, n - 1);
      assert !Opens(c, steps, n - 1);
      KeepsOpeningTime(c, StateAt(c, steps, n - 1), steps[n - 1], steps[i].at);
    }
  }

  /** The breaker turns a request away exactly while it is Open and the cooldown of its last opening runs;
      in every other state any number of callers is let through. */
  lemma AdmissionExactly(c: ReliabilityConfig, steps: seq<Step>, i: nat, j: nat)
    requires i < j < |steps| && steps[j].Admit? && Opens(c, steps, i)
    requires forall k :: i < k < j ==> !Opens(c, steps, k)
    ensures !Admitted(c, steps, j) <==>
            StateAt(c, steps, j).circuit.state == Open && steps[j].at < steps[i].at + c.Cooldown()
    ensures Admitted(c, steps, j) ==> StateAt(c, steps, j + 1).circuit.state != Open
  {
    OpeningTimeStands(c, steps, i, j);
    StateStep(c, steps, j);
  }
}
