/** Many devices behind one lock: what interleaved steps do to the table of device records. */
module Fleet {
  import opened Config
  import opened DeviceState

  type Table = map<string, ManagedState>

  datatype DeviceStep = DeviceStep(id: string, enabled: bool, step: Step)

  /** A record that is looked up for the first time is created in its default state. */
  function RecordOf(table: Table, id: string): ManagedState {
    if id in table then table[id] else Fresh(true)
  }

  function ApplyTo(c: ReliabilityConfig, table: Table, s: DeviceStep): Table {
    table[s.id := Locked(c, s.enabled, RecordOf(table, s.id), s.step)]
  }

  function Run(c: ReliabilityConfig, table: Table, steps: seq<DeviceStep>): Table {
    if steps == [] then table else ApplyTo(c, Run(c, table, Init(steps)), Last(steps))
  }

  /** The steps of one device, in their original order and at their original times. */
  function Project(id: string, steps: seq<DeviceStep>): seq<DeviceStep> {
    if steps == [] then []
    else Project(id, Init(steps)) + if Last(steps).id == id then [Last(steps)] else []
  }

  function StepsOf(steps: seq<DeviceStep>): (r: seq<Step>)
    ensures |r| == |steps|
  {
    if steps == [] then [] else StepsOf(Init(steps)) + [Last(steps).step]
  }

  /** One record driven by its own steps only. */
  function RunAlone(c: ReliabilityConfig, s: ManagedState, steps: seq<DeviceStep>): ManagedState {
    if steps == [] then s else Locked(c, Last(steps).enabled, RunAlone(c, s, Init(steps)), Last(steps).step)
  }

  lemma {:induction false} RecordRunsAlone(c: ReliabilityConfig, table: Table, steps: seq<DeviceStep>, id: string)
    ensures RecordOf(Run(c, table, steps), id) == RunAlone(c, RecordOf(table, id), Project(id, steps))
  {
    if steps != [] {
      var own, last := Project(id, Init(steps)), Last(steps);
      RecordRunsAlone(c, table, Init(steps), id);
      if last.id == id {
        assert Init(own + [last]) == own;
      } else {
        assert Project(id, steps) == own;
      }
    }
  }

  lemma {:induction false} ProjectTwice(id: string, steps: seq<DeviceStep>)
    ensures Project(id, Project(id, steps)) == Project(id, steps)
  {
    if steps != [] {
      var own, last := Project(id, Init(steps)), Last(steps);
      ProjectTwice(id, Init(steps));
      if last.id == id {
        assert Init(own + [last]) == own;
      } else {
        assert Project(id, steps) == own;
      }
    }
  }

  /** An interleaved run of many devices leaves each device exactly where its own steps, at the same
      clock times, alone lead it. */
  lemma DeviceIsolation(c: ReliabilityConfig, table: Table, steps: seq<DeviceStep>, id: string)
    ensures RecordOf(Run(c, table, steps), id) == RecordOf(Run(c, table, Project(id, steps)), id)
  {
    RecordRunsAlone(c, table, steps, id);
    RecordRunsAlone(c, table, Project(id, steps), id);
    ProjectTwice(id, steps);
  }

  /** For an enabled device that is the single-device run of its locked steps. */
  lemma {:induction false} EnabledDeviceReplays(c: ReliabilityConfig, s: ManagedState, steps: seq<DeviceStep>)
    requires forall i :: 0 <= i < |steps| ==> steps[i].enabled
    ensures RunAlone(c, s, steps) == Replay(c, s, StepsOf(steps))
  {
    if steps != [] {
      EnabledDeviceReplays(c, s, Init(steps));
      assert Init(StepsOf(steps)) == StepsOf(Init(steps));
    }
  }
}
