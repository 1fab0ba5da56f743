/** A refresh while other requests use the same device: their locked steps come between its own, and between its last
    one and the snapshot it takes. */
module Interleaving {
  import opened Config
  import opened ConnectionManager
  import opened DeviceState
  import opened StateCache

  /** When other requests step in before the refresh takes its snapshot, this much remains. */
  lemma InterleavedRefresh(c: ReliabilityConfig, device: DeviceConfig, readings: seq<ReadResult>, s: ManagedState)
    requires |readings| == |device.variables| && Reachable(c, s)
    ensures var snapshot := SnapshotOf(device, readings, HealthOf(device, s));
            && (snapshot.status == "ERROR" <==> !snapshot.online)
            && (snapshot.connection == Connected ==> snapshot.deviceConnected)
  {
    var steps :| s == Replay(c, Fresh(true), steps);
    PhaseInvariantHolds(c, steps);
    assert AllOk(readings) ==> readings[0].ok;
  }

  /** A request's own steps, each followed by what other requests do before the next one. */
  function Woven(own: seq<Step>, between: seq<seq<Step>>): seq<Step>
    requires |own| == |between|
  {
    if own == [] then [] else Woven(Init(own), Init(between)) + [Last(own)] + Last(between)
  }

  /** The latest step that is no admission. */
  function LastMove(steps: seq<Step>): Option<Step> {
    if steps == [] then None
    else if Last(steps).Admit? then LastMove(Init(steps))
    else Some(Last(steps))
  }

  /** Later steps leave the record as a refresh with this outcome left it: after a good one nothing but admissions has
      happened since, or since another success; after a failed one no success has been recorded, or a failure has been
      recorded after it. */
  predicate LeavesStanding(good: bool, later: seq<Step>) {
    if good then LastMove(later).None? || LastMove(later).value.RecordSuccess?
    else Outcomes(later) == [] || Last(Outcomes(later)).RecordFailure?
  }

  /** The record after steps with this latest outcome and this latest move, from one settled with outcome `good`. */
  predicate Moved(t: ManagedState, good: bool, outcomes: seq<Step>, move: Option<Step>) {
    && (t.online ==> t.circuit.state == Closed) && (t.connection == Connected ==> t.online)
    && t.online == (if outcomes == [] then good else Last(outcomes).RecordSuccess?)
    && (t.connection == Connected) == (if move.None? then good else move.value.RecordSuccess?)
  }

  lemma MovesOn(c: ReliabilityConfig, t: ManagedState, good: bool, outcomes: seq<Step>, move: Option<Step>, step: Step)
    requires Moved(t, good, outcomes, move)
    ensures Moved(Apply(c, t, step), good, outcomes + OutcomeOf(step), if step.Admit? then move else Some(step))
  {
    if OutcomeOf(step) == [] {
      assert outcomes + OutcomeOf(step) == outcomes;
    }
  }

  /** What later steps make of a settled record. */
  lemma {:induction false} LaterSteps(c: ReliabilityConfig, s: ManagedState, good: bool, later: seq<Step>)
    requires Settled(s, good)
    ensures Moved(Replay(c, s, later), good, Outcomes(later), LastMove(later))
  {
    if later != [] {
      LaterSteps(c, s, good, Init(later));
      MovesOn(c, Replay(c, s, Init(later)), good, Outcomes(Init(later)), LastMove(Init(later)), Last(later));
    }
  }

  lemma WovenReplay(c: ReliabilityConfig, s: ManagedState, own: seq<Step>, between: seq<seq<Step>>)
    requires |own| == |between| > 0
    ensures Replay(c, s, Woven(own, between)) ==
            Replay(c, Apply(c, Replay(c, s, Woven(Init(own), Init(between))), Last(own)), Last(between))
  {
    var before := Woven(Init(own), Init(between));
    ReplayConcat(c, s, before + [Last(own)], Last(between));
    ReplayLast(c, s, before, Last(own));
  }

  /** Whatever steps other requests take during a refresh, in every breaker state and for all replies: after its last
      own step the record agrees with its readings, and then goes through the steps of the others. */
  lemma RefreshSettles(c: ReliabilityConfig, s: ManagedState, device: DeviceConfig, connected: bool, now: nat,
                       batches: seq<Batch>, between: seq<seq<Step>>)
    returns (settled: ManagedState)
    requires device.enabled && batches != []
    requires |between| == |RequestSteps(c, s, device.id, connected, now, JudgeAll(batches))|
    ensures Settled(settled, AnyOk(ReadsResult(c, device, s, connected, now, batches))) && between != []
    ensures Replay(c, s, Woven(RequestSteps(c, s, device.id, connected, now, JudgeAll(batches)), between)) ==
            Replay(c, settled, Last(between))
  {
    var own := RequestSteps(c, s, device.id, connected, now, JudgeAll(batches));
    LastOfRequest(c, s, device, connected, now, batches);
    WovenReplay(c, s, own, between);
    var before := Replay(c, s, Woven(Init(own), Init(between)));
    assert |own| == 1 ==> before == s;
    settled := Apply(c, before, Last(own));
    OutcomeSettles(c, before, Last(own), AnyOk(ReadsResult(c, device, s, connected, now, batches)));
  }

  lemma CoherentExactly(device: DeviceConfig, readings: seq<ReadResult>, s: ManagedState)
    requires device.enabled && |readings| == |device.variables|
    ensures Coherent(SnapshotOf(device, readings, HealthOf(device, s))) <==>
            AnyOk(readings) == s.online == (s.connection == Connected)
  {
    assert AllOk(readings) ==> readings[0].ok;
  }

  lemma StandsExactly(c: ReliabilityConfig, device: DeviceConfig, readings: seq<ReadResult>, s: ManagedState,
                      later: seq<Step>)
    requires device.enabled && |readings| == |device.variables| && Settled(s, AnyOk(readings))
    ensures Coherent(SnapshotOf(device, readings, HealthOf(device, Replay(c, s, later)))) <==>
            LeavesStanding(AnyOk(readings), later)
  {
    LaterSteps(c, s, AnyOk(readings), later);
    OutcomesAreHistory(later);
    CoherentExactly(device, readings, Replay(c, s, later));
  }

  /** Exactly when a refresh that other requests interleave leaves a coherent state: when what they do between its
      last own step and the snapshot lets its outcome stand. Nothing they do before that matters. */
  lemma InterleavedExactly(c: ReliabilityConfig, s: ManagedState, device: DeviceConfig, connected: bool, now: nat,
                           batches: seq<Batch>, between: seq<seq<Step>>)
    requires device.enabled && batches != []
    requires forall i :: 0 <= i < |batches| ==> |batches[i].readings| == |device.variables|
    requires |between| == |RequestSteps(c, s, device.id, connected, now, JudgeAll(batches))|
    ensures var own := RequestSteps(c, s, device.id, connected, now, JudgeAll(batches));
            var readings := ReadsResult(c, device, s, connected, now, batches);
            var t := Replay(c, s, Woven(own, between));
            Coherent(SnapshotOf(device, readings, HealthOf(device, t))) <==>
              LeavesStanding(AnyOk(readings), Last(between))
  {
    var readings := ReadsResult(c, device, s, connected, now, batches);
    var settled := RefreshSettles(c, s, device, connected, now, batches, between);
    StandsExactly(c, device, readings, settled, Last(between));
  }

  /** The steps of others when all of them come after the request. */
  function AllAfter(own: seq<Step>, later: seq<Step>): (between: seq<seq<Step>>)
    requires own != []
    ensures |between| == |own| && Last(between) == later
  {
    seq(|own| - 1, _ => []) + [later]
  }

  lemma {:induction false} WovenAfter(own: seq<Step>, later: seq<Step>)
    requires own != []
    ensures Woven(own, AllAfter(own, later)) == own + later
  {
    var between := AllAfter(own, later);
    if |own| == 1 {
      assert Woven(Init(own), Init(between)) == [];
    } else {
      WovenAfter(Init(own), []);
      assert Init(between) == AllAfter(Init(own), []);
    }
    assert own == Init(own) + [Last(own)];
  }

  /** A run that breaks: the refresh's first read is good, and before its snapshot another request is admitted and
      marks the device. It leaves the device online but not Connected. */
  lemma InterleavingBreaksCoherence(c: ReliabilityConfig, s: ManagedState, device: DeviceConfig, now: nat,
                                    batches: seq<Batch>, at: nat)
    requires device.enabled && batches != [] && AnyOk(batches[0].readings) && Allows(s.circuit, c.Cooldown(), now)
    requires forall i :: 0 <= i < |batches| ==> |batches[i].readings| == |device.variables|
    ensures var own := RequestSteps(c, s, device.id, true, now, JudgeAll(batches));
            var t := Replay(c, s, own + [Admit(at), MarkConnecting(at)]);
            var readings := ReadsResult(c, device, s, true, now, batches);
            && readings == batches[0].readings && t.online && t.connection != Connected
            && !Coherent(SnapshotOf(device, readings, HealthOf(device, t)))
  {
    var own, later := RequestSteps(c, s, device.id, true, now, JudgeAll(batches)), [Admit(at), MarkConnecting(at)];
    WovenAfter(own, later);
    FirstGoodRead(c, s, device, now, batches);
    var settled := RefreshSettles(c, s, device, true, now, batches, AllAfter(own, later));
    MarkedAfter(c, device, batches[0].readings, settled, at);
  }

  lemma FirstGoodRead(c: ReliabilityConfig, s: ManagedState, device: DeviceConfig, now: nat, batches: seq<Batch>)
    requires device.enabled && batches != [] && AnyOk(batches[0].readings) && Allows(s.circuit, c.Cooldown(), now)
    ensures ReadsResult(c, device, s, true, now, batches) == batches[0].readings
  {
    UsedUntil(JudgeAll(batches), 1);
  }

  lemma MarkedAfter(c: ReliabilityConfig, device: DeviceConfig, readings: seq<ReadResult>, s: ManagedState, at: nat)
    requires device.enabled && |readings| == |device.variables| && AnyOk(readings) && Settled(s, true)
    ensures var t := Replay(c, s, [Admit(at), MarkConnecting(at)]);
            t.online && t.connection != Connected && !Coherent(SnapshotOf(device, readings, HealthOf(device, t)))
  {
    ReplayAttempt(c, s, Admit(at), MarkConnecting(at), []);
    assert [Admit(at), MarkConnecting(at)] + [] == [Admit(at), MarkConnecting(at)];
    CoherentExactly(device, readings, Replay(c, s, [Admit(at), MarkConnecting(at)]));
  }
}
