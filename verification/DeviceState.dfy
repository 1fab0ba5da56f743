/** The per-device record of the connection manager and the locked steps that change it.
    A request is not atomic: admission, marking and recording are separate critical sections, so
    concurrent requests interleave at exactly these steps. */
module DeviceState {
  import opened Config
  import RetryPolicy

  datatype CircuitState = Closed | Open | HalfOpen

  datatype Circuit = Circuit(state: CircuitState, openedAt: nat)

  datatype ConnectionState = Disabled | Disconnected | Connecting | Connected | Reconnecting | Faulted

  datatype ManagedState = ManagedState(
    connection: ConnectionState,
    online: bool,
    consecutiveFailures: nat,
    reconnectCount: nat,
    lastSuccessAt: Option<nat>,
    lastErrorAt: Option<nat>,
    lastError: string,
    nextRetryDelayMs: nat,
    attempts: int,
    latencyMs: int,
    circuit: Circuit)

  datatype Step =
    | Admit(at: nat)
    | MarkConnecting(at: nat)
    | RecordSuccess(at: nat, attempts: int, latencyMs: int)
    | RecordFailure(at: nat, error: string, attempts: int, latencyMs: int)

  function Fresh(enabled: bool): ManagedState {
    ManagedState(if enabled then Disconnected else Disabled,
                 false, 0, 0, None, None, "", 0, 0, -1, Circuit(Closed, 0))
  }

  /** True when the breaker lets a request through. */
  predicate Allows(circuit: Circuit, cooldown: nat, now: nat) {
    circuit.state == Open ==> now - circuit.openedAt >= cooldown
  }

  function CircuitAfterAdmission(circuit: Circuit, cooldown: nat, now: nat): Circuit {
    if circuit.state == Open && Allows(circuit, cooldown, now) then circuit.(state := HalfOpen) else circuit
  }

  function CircuitAfterFailure(circuit: Circuit, failures: nat, threshold: nat, now: nat): Circuit {
    if failures >= threshold then
      Circuit(Open, if circuit.state != Open then now else circuit.openedAt)
    else if circuit.state == HalfOpen then Circuit(Open, now)
    else circuit.(state := Closed)
  }

  /** One locked step on an enabled device. */
  function Apply(c: ReliabilityConfig, s: ManagedState, step: Step): ManagedState {
    match step
    case Admit(at) =>
      if Allows(s.circuit, c.Cooldown(), at)
      then s.(circuit := CircuitAfterAdmission(s.circuit, c.Cooldown(), at))
      else s.(connection := Faulted, online := false)
    case MarkConnecting(_) =>
      s.(connection := if s.consecutiveFailures > 0 then Reconnecting else Connecting)
    case RecordSuccess(at, attempts, latencyMs) =>
      s.(online := true, connection := Connected, consecutiveFailures := 0, lastSuccessAt := Some(at),
         lastError := "", attempts := attempts, latencyMs := latencyMs, nextRetryDelayMs := 0,
         circuit := s.circuit.(state := Closed))
    case RecordFailure(at, error, attempts, latencyMs) =>
      var failures := s.consecutiveFailures + 1;
      var circuit := CircuitAfterFailure(s.circuit, failures, c.Threshold(), at);
      s.(reconnectCount := if s.online || s.consecutiveFailures == 0 then s.reconnectCount + 1 else s.reconnectCount,
         online := false, consecutiveFailures := failures, lastErrorAt := Some(at), lastError := error,
         attempts := attempts, latencyMs := latencyMs, nextRetryDelayMs := RetryPolicy.Delay(c, failures),
         circuit := circuit,
         connection := if circuit.state == Open then Faulted else Reconnecting)
  }

  /** A disabled device is forced to Disabled and offline by every locked step. */
  function Locked(c: ReliabilityConfig, enabled: bool, s: ManagedState, step: Step): ManagedState {
    if enabled then Apply(c, s, step) else s.(connection := Disabled, online := false)
  }

  function Last<T>(s: seq<T>): T
    requires s != []
  {
    s[|s| - 1]
  }

  function Init<T>(s: seq<T>): seq<T>
    requires s != []
  {
    s[..|s| - 1]
  }

  lemma AppendByParts<T>(a: seq<T>, b: seq<T>)
    requires b != []
    ensures a + b == (a + Init(b)) + [Last(b)]
  {
  }

  function Replay(c: ReliabilityConfig, s: ManagedState, steps: seq<Step>): ManagedState {
    if steps == [] then s else Apply(c, Replay(c, s, Init(steps)), Last(steps))
  }

  lemma ReplayLast(c: ReliabilityConfig, s: ManagedState, steps: seq<Step>, last: Step)
    ensures Replay(c, s, steps + [last]) == Apply(c, Replay(c, s, steps), last)
  {
    assert Init(steps + [last]) == steps;
  }

  lemma {:induction false} ReplayConcat(c: ReliabilityConfig, s: ManagedState, a: seq<Step>, b: seq<Step>)
    ensures Replay(c, s, a + b) == Replay(c, Replay(c, s, a), b)
  {
    if b == [] {
      assert a + b == a;
    } else {
      ReplayConcat(c, s, a, Init(b));
      assert Init(a + b) == a + Init(b);
    }
  }

  /** The recorded outcomes of a run, oldest first. */
  function Outcomes(steps: seq<Step>): seq<Step> {
    if steps == [] then []
    else Outcomes(Init(steps)) + OutcomeOf(Last(steps))
  }

  predicate IsHistory(h: seq<Step>) {
    forall i :: 0 <= i < |h| ==> h[i].RecordSuccess? || h[i].RecordFailure?
  }

  lemma OutcomesAreHistory(steps: seq<Step>)
    ensures IsHistory(Outcomes(steps))
  {
    if steps != [] {
      OutcomesAreHistory(Init(steps));
    }
  }

  /** Length of the failure run that ends the history. */
  ghost function TrailingFailures(h: seq<Step>): (n: nat)
    ensures n <= |h|
    ensures forall i :: |h| - n <= i < |h| ==> h[i].RecordFailure?
    ensures n < |h| ==> !h[|h| - n - 1].RecordFailure?
  {
    if h == [] || !Last(h).RecordFailure? then 0 else TrailingFailures(Init(h)) + 1
  }

  /** Positions at which a maximal failure run starts. */
  ghost function RunStarts(h: seq<Step>): set<nat> {
    set i: nat | i < |h| && StartsRun(h, i)
  }

  ghost predicate StartsRun(h: seq<Step>, i: nat)
    requires i < |h|
  {
    h[i].RecordFailure? && (i == 0 || !h[i - 1].RecordFailure?)
  }

  ghost function LastSuccessTime(h: seq<Step>): Option<nat> {
    if h == [] then None else if Last(h).RecordSuccess? then Some(Last(h).at) else LastSuccessTime(Init(h))
  }

  ghost function LastFailureTime(h: seq<Step>): Option<nat> {
    if h == [] then None else if Last(h).RecordFailure? then Some(Last(h).at) else LastFailureTime(Init(h))
  }

  /** Every history-determined field of a device record. */
  ghost predicate MatchesHistory(c: ReliabilityConfig, s: ManagedState, h: seq<Step>)
    requires IsHistory(h)
  {
    && s.consecutiveFailures == TrailingFailures(h)
    && s.reconnectCount == |RunStarts(h)|
    && (s.online <==> h != [] && Last(h).RecordSuccess?)
    && s.nextRetryDelayMs == RetryPolicy.Delay(c, TrailingFailures(h))
    && (s.circuit.state == Closed <==> TrailingFailures(h) < c.Threshold())
    && s.lastSuccessAt == LastSuccessTime(h)
    && s.lastErrorAt == LastFailureTime(h)
    && s.lastError == (if h != [] && Last(h).RecordFailure? then Last(h).error else "")
    && (h != [] ==> s.attempts == Last(h).attempts && s.latencyMs == Last(h).latencyMs)
  }

  lemma RunStartsOfAppend(h: seq<Step>, last: Step)
    ensures |RunStarts(h + [last])| ==
            |RunStarts(h)| + if last.RecordFailure? && (h == [] || !Last(h).RecordFailure?) then 1 else 0
  {
    var starts := last.RecordFailure? && (h == [] || !Last(h).RecordFailure?);
    assert forall i: nat | i < |h| :: StartsRun(h + [last], i) == StartsRun(h, i);
    assert StartsRun(h + [last], |h|) == starts;
    assert RunStarts(h + [last]) == RunStarts(h) + if starts then {|h|} else {};
  }

  lemma SuccessExtendsHistory(c: ReliabilityConfig, s: ManagedState, h: seq<Step>, step: Step)
    requires IsHistory(h) && MatchesHistory(c, s, h) && step.RecordSuccess?
    ensures MatchesHistory(c, Apply(c, s, step), h + [step])
  {
    assert Init(h + [step]) == h;
    RunStartsOfAppend(h, step);
  }

  lemma FailureExtendsHistory(c: ReliabilityConfig, s: ManagedState, h: seq<Step>, step: Step)
    requires IsHistory(h) && MatchesHistory(c, s, h) && step.RecordFailure?
    ensures MatchesHistory(c, Apply(c, s, step), h + [step])
  {
    assert Init(h + [step]) == h;
    assert TrailingFailures(h + [step]) == TrailingFailures(h) + 1;
    assert LastSuccessTime(h + [step]) == LastSuccessTime(h);
    RunStartsOfAppend(h, step);
  }

  lemma QuietStepKeepsHistory(c: ReliabilityConfig, s: ManagedState, h: seq<Step>, step: Step)
    requires IsHistory(h) && MatchesHistory(c, s, h) && (step.Admit? || step.MarkConnecting?)
    ensures MatchesHistory(c, Apply(c, s, step), h)
  {
  }

  function OutcomeOf(step: Step): seq<Step> {
    if step.RecordSuccess? || step.RecordFailure? then [step] else []
  }

  lemma HistoryGrows(h: seq<Step>, step: Step)
    requires IsHistory(h)
    ensures IsHistory(h + OutcomeOf(step))
    ensures step.Admit? || step.MarkConnecting? ==> h + OutcomeOf(step) == h
  {
  }

  lemma StepExtendsHistory(c: ReliabilityConfig, s: ManagedState, h: seq<Step>, step: Step)
    requires IsHistory(h) && MatchesHistory(c, s, h)
    ensures IsHistory(h + OutcomeOf(step)) && MatchesHistory(c, Apply(c, s, step), h + OutcomeOf(step))
  {
    var longer, after := h + OutcomeOf(step), Apply(c, s, step);
    HistoryGrows(h, step);
    assert MatchesHistory(c, after, longer) by {
      if step.RecordSuccess? {
        SuccessExtendsHistory(c, s, h, step);
      } else if step.RecordFailure? {
        FailureExtendsHistory(c, s, h, step);
      } else {
        QuietStepKeepsHistory(c, s, h, step);
      }
    }
  }

  /** After any interleaving of locked steps since the last reset, the fields are functions of the
      recorded outcome history alone: admissions (granted or denied) and marks leave no trace in them. */
  lemma {:induction false} FieldsFollowHistory(c: ReliabilityConfig, steps: seq<Step>)
    ensures IsHistory(Outcomes(steps))
    ensures MatchesHistory(c, Replay(c, Fresh(true), steps), Outcomes(steps))
  {
    OutcomesAreHistory(steps);
    if steps == [] {
      assert RunStarts([]) == {};
    } else {
      FieldsFollowHistory(c, Init(steps));
      var s, h, last := Replay(c, Fresh(true), Init(steps)), Outcomes(Init(steps)), Last(steps);
      OutcomesAreHistory(Init(steps));
      StepExtendsHistory(c, s, h, last);
    }
  }

  /** What the connection phase says about the rest of the record. */
  ghost predicate PhaseInvariant(c: ReliabilityConfig, s: ManagedState, h: seq<Step>) {
    && s.connection != Disabled
    && (s.connection == Connected ==> s.online)
    && (s.online ==> s.consecutiveFailures == 0 && s.circuit.state == Closed)
    && (s.connection == Faulted ==> s.circuit.state != Closed && !s.online)
    && (s.connection == Connecting ==> s.consecutiveFailures == 0)
    && (s.connection == Reconnecting ==> s.consecutiveFailures >= 1)
    && (s.connection == Disconnected ==> h == [])
    && (s.circuit.state != Closed ==> s.consecutiveFailures >= c.Threshold())
  }

  lemma {:induction false} PhaseInvariantHolds(c: ReliabilityConfig, steps: seq<Step>)
    ensures PhaseInvariant(c, Replay(c, Fresh(true), steps), Outcomes(steps))
  {
    if steps != [] {
      PhaseInvariantHolds(c, Init(steps));
    }
  }

  /** In a reachable record a failure never takes the below-threshold branches out of Open or HalfOpen:
      an Open breaker stays open with its opening time, a HalfOpen one reopens at the failure. */
  lemma FailureNeverClosesBreaker(c: ReliabilityConfig, steps: seq<Step>, failure: Step)
    requires failure.RecordFailure?
    ensures var s, t := Replay(c, Fresh(true), steps), Replay(c, Fresh(true), steps + [failure]);
            && (s.circuit.state != Closed ==> s.consecutiveFailures + 1 > c.Threshold())
            && (s.circuit.state == Open ==> t.circuit == s.circuit)
            && (s.circuit.state == HalfOpen ==> t.circuit == Circuit(Open, failure.at))
            && (s.circuit.state == Closed && t.circuit.state != Closed <==> t.consecutiveFailures == c.Threshold())
  {
    PhaseInvariantHolds(c, steps);
    FieldsFollowHistory(c, steps);
    assert Init(steps + [failure]) == steps;
  }
}
