/** The connection phase and the answers of the breaker, told from the run and the configured numbers alone. */
module Phases {
  import opened Config
  import opened ConnectionManager
  import opened Cooldown
  import opened DeviceState
  import opened Fleet

  /** The breaker is open and the configured cooldown has not passed. */
  predicate TurnsAway(c: ReliabilityConfig, circuit: Circuit, at: nat) {
    circuit.state == Open && at - circuit.openedAt < (if c.circuitCooldownMs > 0 then c.circuitCooldownMs as int else 0)
  }

  /** The phase that a run leaves: that of its latest step that is no granted admission. */
  ghost function PhaseOf(c: ReliabilityConfig, steps: seq<Step>): ConnectionState {
    if steps == [] then Disconnected
    else match Last(steps)
      case Admit(at) =>
        if TurnsAway(c, Replay(c, Fresh(true), Init(steps)).circuit, at) then Faulted else PhaseOf(c, Init(steps))
      case MarkConnecting(_) => if TrailingFailures(Outcomes(steps)) > 0 then Reconnecting else Connecting
      case RecordSuccess(_, _, _) => Connected
      case RecordFailure(_, _, _, _) =>
        if TrailingFailures(Outcomes(steps)) >= c.circuitFailureThreshold as int then Faulted else Reconnecting
  }

  lemma OutcomesOfLast(steps: seq<Step>)
    requires steps != []
    ensures Last(steps).MarkConnecting? ==> TrailingFailures(Outcomes(steps)) == TrailingFailures(Outcomes(Init(steps)))
    ensures Last(steps).RecordFailure? ==>
              TrailingFailures(Outcomes(steps)) == TrailingFailures(Outcomes(Init(steps))) + 1
  {
    var before := Outcomes(Init(steps));
    if Last(steps).RecordFailure? {
      assert Init(before + [Last(steps)]) == before;
    } else if Last(steps).MarkConnecting? {
      assert before + [] == before;
    }
  }

  /** A failure opens the breaker, or finds it open, exactly from the configured number of failures in a row on. */
  lemma FailureOpens(c: ReliabilityConfig, s: ManagedState, failure: Step)
    requires failure.RecordFailure? && PastThreshold(c, s)
    ensures var t := Apply(c, s, failure);
            && (t.circuit.state == Open <==> s.consecutiveFailures + 1 >= c.circuitFailureThreshold as int)
            && t.connection == if t.circuit.state == Open then Faulted else Reconnecting
  {
  }

  /** The phase of a record follows from its run: after a success Connected, after a failure Faulted from the configured
      threshold on and Reconnecting below it, after a mark Reconnecting or Connecting by whether failures are standing,
      after a refusal Faulted, and otherwise what it was. */
  lemma {:induction false} PhaseFollowsRun(c: ReliabilityConfig, steps: seq<Step>)
    ensures Replay(c, Fresh(true), steps).connection == PhaseOf(c, steps)
  {
    if steps != [] {
      var before := Init(steps);
      PhaseFollowsRun(c, before);
      FieldsFollowHistory(c, before);
      OutcomesOfLast(steps);
      AlwaysPastThreshold(c, before, |before|);
      assert before[..|before|] == before;
      PhaseStep(c, Replay(c, Fresh(true), before), Last(steps));
    }
  }

  /** What one step does to the phase of a sound record. */
  lemma PhaseStep(c: ReliabilityConfig, s: ManagedState, step: Step)
    requires PastThreshold(c, s)
    ensures Apply(c, s, step).connection ==
            match step
            case Admit(at) => if TurnsAway(c, s.circuit, at) then Faulted else s.connection
            case MarkConnecting(_) => if s.consecutiveFailures > 0 then Reconnecting else Connecting
            case RecordSuccess(_, _, _) => Connected
            case RecordFailure(_, _, _, _) =>
              if s.consecutiveFailures + 1 >= c.circuitFailureThreshold as int then Faulted else Reconnecting
  {
    if step.RecordFailure? {
      FailureOpens(c, s, step);
    }
  }

  lemma ReachableIsPastThreshold(c: ReliabilityConfig, s: ManagedState)
    requires Reachable(c, s)
    ensures PastThreshold(c, s)
  {
    var steps :| s == Replay(c, Fresh(true), steps);
    AlwaysPastThreshold(c, steps, |steps|);
    assert steps[..|steps|] == steps;
  }

  /** The phase after a failed attempt, and after the next ones. */
  lemma {:induction false} FailedLoopPhase(c: ReliabilityConfig, s: ManagedState, replies: seq<Reply>)
    requires PastThreshold(c, s) && replies != [] && forall i :: 0 <= i < |replies| ==> !replies[i].ok
    ensures var t := Retried(c, s, replies);
            && !t.online && t.consecutiveFailures == s.consecutiveFailures + |replies|
            && t.connection ==
               if s.consecutiveFailures + |replies| >= c.circuitFailureThreshold as int then Faulted else Reconnecting
    decreases replies
  {
    var marked := Apply(c, s, MarkConnecting(replies[0].sentAt));
    FailureOpens(c, marked, Record(replies[0]));
    var after := AfterAttempt(c, s, replies[0]);
    if |replies| == 1 {
      assert replies[1..] == [] && Retried(c, after, []) == after;
    } else {
      FailedLoopPhase(c, after, replies[1..]);
    }
  }

  lemma {:induction false} GoodLoopPhase(c: ReliabilityConfig, s: ManagedState, replies: seq<Reply>)
    requires exists i :: 0 <= i < |replies| && replies[i].ok
    ensures Retried(c, s, replies).online && Retried(c, s, replies).connection == Connected
    decreases replies
  {
    if !replies[0].ok {
      var i :| 0 <= i < |replies| && replies[i].ok;
      assert replies[1..][i - 1].ok;
      GoodLoopPhase(c, AfterAttempt(c, s, replies[0]), replies[1..]);
    }
  }

  lemma AdmittedPhase(c: ReliabilityConfig, s: ManagedState, now: nat)
    requires PastThreshold(c, s)
    ensures var t := Replay(c, s, [Admit(now)]);
            && PastThreshold(c, t) && t.consecutiveFailures == s.consecutiveFailures
            && (TurnsAway(c, s.circuit, now) ==> t.connection == Faulted && !t.online)
  {
    ReplayAttempt(c, s, Admit(now), Admit(now), []);
  }

  /** What a request leaves behind, in the words of its replies and the configured numbers: Connected if some reply is
      good, Faulted if it is turned away or its failures reach the threshold, else Reconnecting. */
  lemma RequestPhase(c: ReliabilityConfig, s: ManagedState, id: string, now: nat, replies: seq<Reply>)
    requires PastThreshold(c, s) && replies != []
    ensures var t := Replay(c, s, RequestSteps(c, s, id, true, now, replies));
            var good := exists i :: 0 <= i < |replies| && replies[i].ok;
            && t.online == (good && !TurnsAway(c, s.circuit, now))
            && t.connection ==
               if TurnsAway(c, s.circuit, now) then Faulted
               else if good then Connected
               else if s.consecutiveFailures + |replies| >= c.circuitFailureThreshold as int then Faulted
               else Reconnecting
  {
    RequestOutcome(c, s, id, true, now, replies);
    AdmittedPhase(c, s, now);
    assert GateSteps(c, s, id, true, now) == [Admit(now)];
    if !TurnsAway(c, s.circuit, now) {
      if good: nat :| good < |replies| && replies[good].ok {
        GoodLoopPhase(c, Replay(c, s, [Admit(now)]), replies);
      } else {
        FailedLoopPhase(c, Replay(c, s, [Admit(now)]), replies);
      }
    }
  }

  /** The first good reply, or the last one if none is. */
  predicate EndsLoop(replies: seq<Reply>, k: nat) {
    && k < |replies| && (forall i :: 0 <= i < k ==> !replies[i].ok)
    && (replies[k].ok || k == |replies| - 1)
  }

  /** Exactly when a request is answered how: a disabled device, then an open breaker, then a missing connector keep it
      from its calls; what answers it otherwise is the first good reply, or the last one. */
  lemma AnswersExactly(c: ReliabilityConfig, enabled: bool, s: ManagedState, connected: bool, now: nat,
                       replies: seq<Reply>)
    requires replies != []
    ensures var r := RequestResult(c, enabled, s, connected, now, replies);
            && (r == DeviceDisabled <==> !enabled)
            && (r == CircuitOpen <==> enabled && TurnsAway(c, s.circuit, now))
            && (r == ConnectorNotFound <==> enabled && !TurnsAway(c, s.circuit, now) && !connected)
            && (r.Answered? ==> exists k: nat :: EndsLoop(replies, k) && r.reply == replies[k])
  {
    assert EndsLoop(replies, Used(replies) - 1);
  }

  /** A request for a disabled device moves no record; one for an enabled device moves no other. */
  lemma OthersStand(c: ReliabilityConfig, table: Table, device: DeviceConfig, connected: bool, now: nat,
                    replies: seq<Reply>, other: string)
    requires other in table
    ensures !device.enabled ==> AfterRequest(c, table, device, connected, now, replies) == table
    ensures other != device.id ==>
              other in AfterRequest(c, table, device, connected, now, replies) &&
              AfterRequest(c, table, device, connected, now, replies)[other] == table[other]
  {
  }

  /** A read on a dead device makes one call and then the configured number of retries. */
  lemma DeadReadCalls(c: ReliabilityConfig, replies: seq<Reply>)
    requires |replies| == c.MaxAttempts() && forall i :: 0 <= i < |replies| ==> !replies[i].ok
    ensures Used(replies) == 1 + if c.maxRetryCount > 0 then c.maxRetryCount as int else 0
  {
    UsedUntil(replies, |replies|);
  }

  /** A batch is good if one of its readings is; its error is the first error text among the failed ones. */
  lemma JudgedBy(b: Batch)
    ensures var r := Judge(b);
            && (r.ok <==> exists i :: 0 <= i < |b.readings| && b.readings[i].ok)
            && ((exists k: nat :: IsFirstText(b.readings, k) && r.error == b.readings[k].error) ||
                (r.error == "all reads failed" &&
                 forall i :: 0 <= i < |b.readings| ==> b.readings[i].ok || b.readings[i].error == ""))
            && r.attempts == (if |b.readings| > 0 then b.readings[0].attempts else 0)
            && r.sentAt == b.sentAt && r.at == b.at && r.latencyMs == b.latencyMs
  {
    FirstTextOf(b.readings);
  }

  predicate IsFirstText(readings: seq<ReadResult>, k: nat) {
    && k < |readings| && !readings[k].ok && readings[k].error != ""
    && forall i :: 0 <= i < k ==> readings[i].ok || readings[i].error == ""
  }

  lemma {:induction false} FirstTextOf(readings: seq<ReadResult>)
    ensures || (exists k: nat :: IsFirstText(readings, k) && FirstReadError(readings) == readings[k].error)
            || (FirstReadError(readings) == "all reads failed" &&
                forall i :: 0 <= i < |readings| ==> readings[i].ok || readings[i].error == "")
  {
    if readings != [] {
      if !readings[0].ok && readings[0].error != "" {
        assert IsFirstText(readings, 0);
      } else {
        FirstTextOf(readings[1..]);
        if k: nat :| IsFirstText(readings[1..], k) && FirstReadError(readings[1..]) == readings[1..][k].error {
          FirstTextOfRest(readings, k);
        } else {
          forall i | 0 <= i < |readings| ensures readings[i].ok || readings[i].error == "" {
            assert i > 0 ==> readings[1..][i - 1] == readings[i];
          }
        }
      }
    }
  }

  lemma FirstTextOfRest(readings: seq<ReadResult>, k: nat)
    requires readings != [] && (readings[0].ok || readings[0].error == "") && IsFirstText(readings[1..], k)
    ensures IsFirstText(readings, k + 1) && readings[k + 1] == readings[1..][k]
  {
    forall i | 0 <= i < k + 1 ensures readings[i].ok || readings[i].error == "" {
      assert i > 0 ==> readings[1..][i - 1] == readings[i];
    }
  }

  /** A request without a connector that is not turned away counts as a failure without an attempt. */
  lemma MissingConnector(c: ReliabilityConfig, s: ManagedState, id: string, now: nat, replies: seq<Reply>)
    requires PastThreshold(c, s) && !TurnsAway(c, s.circuit, now)
    ensures var t := Replay(c, s, RequestSteps(c, s, id, false, now, replies));
            && !t.online && t.consecutiveFailures == s.consecutiveFailures + 1 && t.attempts == 0 && t.latencyMs == -1
            && t.lastErrorAt == Some(now) && t.lastError == "connector is not configured for device: " + id
            && t.connection ==
               if s.consecutiveFailures + 1 >= c.circuitFailureThreshold as int then Faulted else Reconnecting
  {
    var admit, failure := Admit(now), RecordFailure(now, NoConnector(id), 0, -1);
    assert RequestSteps(c, s, id, false, now, replies) == [admit, failure] + [];
    ReplayAttempt(c, s, admit, failure, []);
    AdmittedPhase(c, s, now);
    ReplayAttempt(c, s, admit, failure, [failure]);
    FailureOpens(c, Apply(c, s, admit), failure);
  }

  /** Refused reads say why, differently for each reason, and name the device; none of them is good. */
  lemma RefusalsTell(device: DeviceConfig, k: nat)
    requires k < |device.variables|
    ensures var disabled, open_, missing := RefusedReads(device, DeviceDisabled)[k],
            RefusedReads(device, CircuitOpen)[k],
                                            RefusedReads(device, ConnectorNotFound)[k];
            && disabled.statusCode == "BadDeviceDisabled" && open_.statusCode == "CircuitOpen"
            && missing.statusCode == "ConnectorNotFound"
            && forall r | r in {disabled, open_, missing} ::
                 !r.ok && r.value == Null && r.attempts == 0 && |r.error| >= |device.id| &&
                 r.error[|r.error| - |device.id|..] == device.id
  {
    EndsWith("device is disabled: ", device.id);
    EndsWith("circuit breaker is open for device: ", device.id);
    EndsWith("connector is not configured for device: ", device.id);
  }

  lemma EndsWith(before: string, end: string)
    ensures (before + end)[|before + end| - |end|..] == end
  {
  }
}
