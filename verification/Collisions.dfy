/** Where the concatenated keys fail: the exact condition on device ids, and runs that break without it. */
module Collisions {
  import opened Config
  import opened AlarmEdges
  import opened CacheRuns
  import opened ConnectionManager
  import opened DeviceState
  import opened StateCache
  import opened Thresholds

  const HIGH := ReadResult(true, Real(1.0), "", "", 1)
  const LOW := ReadResult(true, Real(0.0), "", "", 1)
  const STAMPS := [Stamp("", "", ""), Stamp("", "", "")]
  const TOO_HIGH := Signature(CRITICAL, VARIABLE_ABOVE_ALARM_MAX)

  /** A device with one variable, whose value may not exceed zero. */
  function Gauge(id: string, name: string): DeviceConfig {
    DeviceConfig(id, "", true, [VariableConfig(name, "", Rule(None, None, None, Some(0.0)), READ_ONLY)], [])
  }

  function Read(k: nat, reading: ReadResult): Op {
    Refresh(k, [reading], Fresh(true), STAMPS)
  }

  function Seen(reading: ReadResult): Observation {
    Observe(VariableConfig("", "", Rule(None, None, None, Some(0.0)), READ_ONLY), reading, false)
  }

  lemma SeenValues()
    ensures Seen(HIGH) == Abnormal(TOO_HIGH) && Seen(LOW) == Normal
  {
  }

  lemma StreamOfGauge(id: string, name: string, reading: ReadResult, key: string)
    requires reading.ok && key == KeyOf(id, name) && key != KeyOf(id, COMMUNICATION)
    ensures Stream(key, RefreshEvents(Gauge(id, name), [reading], 1, STAMPS)) == [Seen(reading)]
  {
    var device := Gauge(id, name);
    var e, f := CommunicationEvent(device, [reading], STAMPS[0]), VariableEvent(device, [reading], 0, STAMPS[1]);
    assert AnyOk([reading]) by {
      assert [reading][0].ok;
    }
    assert RefreshEvents(device, [reading], 0, STAMPS) == [e];
    assert RefreshEvents(device, [reading], 1, STAMPS) == [e] + [f];
    StreamOfSingle(key, e);
    StreamOfOne(key, [e], f);
  }

  lemma ShownByGauge(id: string, name: string, reading: ReadResult, other: string)
    requires reading.ok && name != COMMUNICATION
    ensures ShownByRefresh(Gauge(id, name), [reading], 1, other, name) == if other == id then [Seen(reading)] else []
  {
    assert AnyOk([reading]) by {
      assert [reading][0].ok;
    }
    assert FindVariableByName(Gauge(id, name).variables, name) == Some(0);
  }

  lemma NormalThenAbnormal(stream: seq<Observation>, s: Signature)
    ensures Edges(stream + [Normal] + [Abnormal(s)]) == Edges(stream) + [s]
  {
    EdgesOfShown(stream, [Normal]);
    EdgesOfShown(stream + [Normal], [Abnormal(s)]);
    assert Init([Normal]) == [];
  }

  lemma EdgesOfRepeated(s: Signature)
    ensures Edges([Abnormal(s)]) == Edges([Abnormal(s), Abnormal(s)]) == [s]
  {
    EdgesOfShown([], [Abnormal(s)]);
    EdgesOfShown([Abnormal(s)], [Abnormal(s)]);
    assert [] + [Abnormal(s)] == [Abnormal(s)] && [Abnormal(s)] + [Abnormal(s)] == [Abnormal(s), Abnormal(s)];
  }

  lemma EdgesOfRecovered(s: Signature)
    ensures Edges([Abnormal(s), Normal, Abnormal(s)]) == [s, s]
  {
    EdgesOfRepeated(s);
    NormalThenAbnormal([Abnormal(s)], s);
    assert [Abnormal(s)] + [Normal] + [Abnormal(s)] == [Abnormal(s), Normal, Abnormal(s)];
  }

  lemma EdgesOfReserved(s: Signature)
    ensures Edges([Normal, Abnormal(s), Normal, Abnormal(s)]) == [s, s]
  {
    var shown := [] + [Normal] + [Abnormal(s)];
    NormalThenAbnormal([], s);
    NormalThenAbnormal(shown, s);
    assert shown + [Normal] + [Abnormal(s)] == [Normal, Abnormal(s), Normal, Abnormal(s)];
  }

  /** Every device id and every cleared id of the run is one of these. */
  ghost predicate RunsOver(devices: seq<DeviceConfig>, ops: seq<Op>, ids: set<string>) {
    && DeviceIds(devices) <= ids
    && forall i :: 0 <= i < |ops| && ops[i].Reconfigure? ==> DeviceIds(ops[i].devices) <= ids
  }

  lemma {:induction false} RunsOverKeeps(devices: seq<DeviceConfig>, ops: seq<Op>, ids: set<string>)
    requires IsRun(devices, ops) && RunsOver(devices, ops, ids)
    ensures DeviceIds(After(devices, ops).devices) <= ids
  {
    if ops != [] {
      var m, op := After(devices, Init(ops)), Last(ops);
      InitRunsOver(devices, ops, ids);
      RunsOverKeeps(devices, Init(ops), ids);
      if op.UpdateRule? {
        FindDependsOnIds(CacheRuns.Step(m, op).devices, m.devices, "");
      } else if op.Reconfigure? {
        assert op == ops[|ops| - 1];
      }
    }
  }

  lemma InitRunsOver(devices: seq<DeviceConfig>, ops: seq<Op>, ids: set<string>)
    requires ops != [] && RunsOver(devices, ops, ids)
    ensures RunsOver(devices, Init(ops), ids)
  {
    assert forall i :: 0 <= i < |Init(ops)| ==> Init(ops)[i] == ops[i];
  }

  lemma {:induction false} NoCollisionKeepsOff(devices: seq<DeviceConfig>, ops: seq<Op>, ids: set<string>, id: string)
    requires IsRun(devices, ops) && RunsOver(devices, ops, ids)
    requires forall other :: other in ids ==> !Collide(id, other)
    ensures RunKeepsOff(devices, ops, id)
  {
    if ops != [] {
      var m, op := After(devices, Init(ops)), Last(ops);
      InitRunsOver(devices, ops, ids);
      NoCollisionKeepsOff(devices, Init(ops), ids, id);
      RunsOverKeeps(devices, Init(ops), ids);
      if op.Refresh? {
        assert m.devices[op.k].id in DeviceIds(m.devices);
      } else if op.ClearAlarm? {
        assert m.devices[FindDevice(m.devices, op.id).value].id in DeviceIds(m.devices);
      }
    }
  }

  /** A refresh that shows this under a key and about a named state. */
  ghost predicate Answers(devices: seq<DeviceConfig>, op: Op, key: string, id: string, name: string,
                          keyed: seq<Observation>, named: seq<Observation>)
  {
    && op.Refresh? && op.k < |devices|
    && |op.readings| == |devices[op.k].variables| && |op.stamps| == |op.readings| + 1
    && Stream(key, RefreshEvents(devices[op.k], op.readings, |op.readings|, op.stamps)) == keyed
    && ShownByRefresh(devices[op.k], op.readings, |op.readings|, id, name) == named
  }

  function Gather(f: Op -> seq<Observation>, ops: seq<Op>): seq<Observation> {
    if ops == [] then [] else Gather(f, Init(ops)) + f(Last(ops))
  }

  /** Refreshes alone are a run, and its streams are theirs, one after the other. */
  lemma {:induction false} RefreshStreams(devices: seq<DeviceConfig>, ops: seq<Op>, key: string, id: string,
                                          name: string,
                                          f: Op -> seq<Observation>, g: Op -> seq<Observation>)
    requires forall op :: op in ops ==> Answers(devices, op, key, id, name, f(op), g(op))
    ensures IsRun(devices, ops) && After(devices, ops).devices == devices
    ensures Stream(key, Events(devices, ops)) == Gather(f, ops)
    ensures StreamOf(devices, ops, id, name) == Gather(g, ops)
  {
    if ops != [] {
      var op := Last(ops);
      assert op in ops && forall other :: other in Init(ops) ==> other in ops;
      RefreshStreams(devices, Init(ops), key, id, name, f, g);
      StreamConcat(key, Events(devices, Init(ops)), OpEvents(After(devices, Init(ops)), op));
    }
  }

  lemma GatherThree(f: Op -> seq<Observation>, p: Op, q: Op)
    ensures Gather(f, [p, p]) == f(p) + f(p)
    ensures Gather(f, [p, q, p]) == f(p) + f(q) + f(p)
  {
    assert Init([p]) == [] && Init([p, p]) == [p] && Init([p, q]) == [p] && Init([p, q, p]) == [p, q];
    assert Gather(f, [p]) == f(p);
  }

  lemma LogOfRun(devices: seq<DeviceConfig>, ops: seq<Op>, key: string)
    requires IsRun(devices, ops)
    ensures LogOf(key, After(devices, ops).view.tracker.log) == Edges(Stream(key, Events(devices, ops)))
  {
    RunTracks(devices, ops);
    LogIsEdges(key, Events(devices, ops));
  }

  lemma KeysOfReads(a: string, x: string, b: string, y: string)
    requires KeyOf(a, x) == KeyOf(b, y) && x != COMMUNICATION && y != COMMUNICATION && a != b
    ensures var devices, key := [Gauge(a, x), Gauge(b, y)], KeyOf(a, x);
            && Answers(devices, Read(0, HIGH), key, a, x, [Abnormal(TOO_HIGH)], [Abnormal(TOO_HIGH)])
            && Answers(devices, Read(1, LOW), key, a, x, [Normal], [])
  {
    SeenValues();
    NeverCollidesWithItself(a);
    NeverCollidesWithItself(b);
    KeysAreDistinct(a, x, a, COMMUNICATION);
    KeysAreDistinct(b, y, b, COMMUNICATION);
    StreamOfGauge(a, x, HIGH, KeyOf(a, x));
    StreamOfGauge(b, y, LOW, KeyOf(a, x));
    ShownByGauge(a, x, HIGH, a);
  }

  /** Two devices whose ids collide can make an unchanged alarm be reported twice: `a` is too high, `b` is fine,
      `a` is still too high. */
  lemma CollisionRepeatsAlarm(a: string, b: string) returns (devices: seq<DeviceConfig>, ops: seq<Op>, name: string)
    requires a + "|" <= b
    ensures DeviceIds(devices) <= {a, b} && UniqueIds(devices) && IsRun(devices, ops)
    ensures forall op :: op in ops ==> op.Refresh?
    ensures LogOf(KeyOf(a, name), After(devices, ops).view.tracker.log) == [TOO_HIGH, TOO_HIGH]
    ensures Edges(StreamOf(devices, ops, a, name)) == [TOO_HIGH]
  {
    var x, y := CollisionHasKey(a, b);
    name := x;
    var p, q;
    devices, p, q := CollidingReads(a, x, b, y);
    ops := InterferenceRepeats(devices, p, q, KeyOf(a, x), a, x);
    RepeatsInLog(devices, ops, KeyOf(a, x), a, x);
  }

  /** A pair of devices that share a key, a refresh of the first that finds it too high, and one of the second. */
  lemma CollidingReads(a: string, x: string, b: string, y: string) returns (devices: seq<DeviceConfig>, p: Op, q: Op)
    requires KeyOf(a, x) == KeyOf(b, y) && x != COMMUNICATION && y != COMMUNICATION && a != b
    ensures DeviceIds(devices) <= {a, b} && UniqueIds(devices) && p.Refresh? && q.Refresh? && p != q
    ensures Answers(devices, p, KeyOf(a, x), a, x, [Abnormal(TOO_HIGH)], [Abnormal(TOO_HIGH)])
    ensures Answers(devices, q, KeyOf(a, x), a, x, [Normal], [])
  {
    devices, p, q := [Gauge(a, x), Gauge(b, y)], Read(0, HIGH), Read(1, LOW);
    KeysOfReads(a, x, b, y);
  }

  lemma RepeatsInLog(devices: seq<DeviceConfig>, ops: seq<Op>, key: string, id: string, name: string)
    requires IsRun(devices, ops)
    requires LogOf(key, After(devices, ops).view.tracker.log) == Edges([Abnormal(TOO_HIGH), Normal, Abnormal(TOO_HIGH)])
    requires Edges(StreamOf(devices, ops, id, name)) == Edges([Abnormal(TOO_HIGH), Abnormal(TOO_HIGH)])
    ensures LogOf(key, After(devices, ops).view.tracker.log) == [TOO_HIGH, TOO_HIGH]
    ensures Edges(StreamOf(devices, ops, id, name)) == [TOO_HIGH]
  {
    EdgesOfRepeated(TOO_HIGH);
    EdgesOfRecovered(TOO_HIGH);
  }

  /** p, q, p, as the two functions see them. */
  lemma ThreeOps(p: Op, q: Op, f: Op -> seq<Observation>, g: Op -> seq<Observation>, o: Observation)
    returns (ops: seq<Op>)
    requires f(p) == g(p) == [o] && f(q) == [Normal] && g(q) == []
    ensures forall op :: op in ops ==> op in {p, q}
    ensures Gather(f, ops) == [o, Normal, o] && Gather(g, ops) == [o, o]
  {
    ops := [p, q, p];
    GatherThree(f, p, q);
    GatherThree(g, p, q);
  }

  lemma LogAndEdges(devices: seq<DeviceConfig>, ops: seq<Op>, key: string, id: string, name: string,
                    keyed: seq<Observation>, named: seq<Observation>)
    requires IsRun(devices, ops) && Stream(key, Events(devices, ops)) == keyed &&
             StreamOf(devices, ops, id, name) == named
    ensures LogOf(key, After(devices, ops).view.tracker.log) == Edges(keyed)
    ensures Edges(StreamOf(devices, ops, id, name)) == Edges(named)
  {
    LogOfRun(devices, ops, key);
  }

  lemma InterferenceRepeats(devices: seq<DeviceConfig>, p: Op, q: Op, key: string, id: string, name: string)
    returns (ops: seq<Op>)
    requires key == KeyOf(id, name) && p != q
    requires Answers(devices, p, key, id, name, [Abnormal(TOO_HIGH)], [Abnormal(TOO_HIGH)])
    requires Answers(devices, q, key, id, name, [Normal], [])
    ensures IsRun(devices, ops) && forall op :: op in ops ==> op in {p, q}
    ensures LogOf(key, After(devices, ops).view.tracker.log) == Edges([Abnormal(TOO_HIGH), Normal, Abnormal(TOO_HIGH)])
    ensures Edges(StreamOf(devices, ops, id, name)) == Edges([Abnormal(TOO_HIGH), Abnormal(TOO_HIGH)])
  {
    var o := Abnormal(TOO_HIGH);
    var f := (op: Op) => if op == p then [o] else [Normal];
    var g := (op: Op) => if op == p then [o] else [];
    ops := ThreeOps(p, q, f, g, o);
    RefreshStreams(devices, ops, key, id, name, f, g);
    LogAndEdges(devices, ops, key, id, name, [o, Normal, o], [o, o]);
  }

  ghost predicate AlwaysRefines(ids: set<string>) {
    forall devices, ops, id, name | IsRun(devices, ops) && RunsOver(devices, ops, ids) && id in ids ::
      Refines(devices, ops, id, name)
  }

  /** Exactly when the alarm log refines the observation streams over every run on these device ids: when no two
      of them collide. */
  lemma RefinementExactly(ids: set<string>)
    ensures AlwaysRefines(ids) <==> forall a, b :: a in ids && b in ids ==> !Collide(a, b)
  {
    if a, b :| a in ids && b in ids && Collide(a, b) {
      if a + "|" <= b {
        CollisionBreaks(ids, a, b);
      } else {
        CollisionBreaks(ids, b, a);
      }
    } else {
      forall devices, ops, id, name | IsRun(devices, ops) && RunsOver(devices, ops, ids) && id in ids
        ensures Refines(devices, ops, id, name)
      {
        NoCollisionKeepsOff(devices, ops, ids, id);
        AlarmLogRefinement(devices, ops, id, name);
      }
    }
  }

  lemma CollisionBreaks(ids: set<string>, a: string, b: string)
    requires a in ids && b in ids && a + "|" <= b
    ensures !AlwaysRefines(ids)
  {
    var devices, ops, name := CollisionRepeatsAlarm(a, b);
    RefreshesRunOver(devices, ops, ids);
    NotRefined(devices, ops, a, name);
  }

  lemma RefreshesRunOver(devices: seq<DeviceConfig>, ops: seq<Op>, ids: set<string>)
    requires DeviceIds(devices) <= ids && forall op :: op in ops ==> op.Refresh?
    ensures RunsOver(devices, ops, ids)
  {
    assert forall i :: 0 <= i < |ops| ==> ops[i] in ops;
  }

  lemma NotRefined(devices: seq<DeviceConfig>, ops: seq<Op>, id: string, name: string)
    requires IsRun(devices, ops)
    requires LogOf(KeyOf(id, name), After(devices, ops).view.tracker.log) != Edges(StreamOf(devices, ops, id, name))
    ensures !Refines(devices, ops, id, name)
  {
  }

  /** What one operation shows about the variable (id, name) alone. */
  ghost function OwnShows(m: Model, op: Op, id: string, name: string): seq<Observation>
    requires Possible(m, op)
  {
    match op
    case Refresh(k, readings, _, _) =>
      if id == m.devices[k].id then ShownOfVariable(m.devices[k], readings, |readings|, name) else []
    case _ => Shows(m, op, id, name)
  }

  /** The variable's own observation stream, without those of its device as a whole. */
  ghost function OwnStream(devices: seq<DeviceConfig>, ops: seq<Op>, id: string, name: string): seq<Observation>
    requires IsRun(devices, ops)
  {
    if ops == [] then []
    else OwnStream(devices, Init(ops), id, name) + OwnShows(After(devices, Init(ops)), Last(ops), id, name)
  }

  lemma {:induction false} OwnIsWhole(devices: seq<DeviceConfig>, ops: seq<Op>, id: string, name: string)
    requires IsRun(devices, ops) && name != COMMUNICATION
    ensures OwnStream(devices, ops, id, name) == StreamOf(devices, ops, id, name)
  {
    if ops != [] {
      OwnIsWhole(devices, Init(ops), id, name);
    }
  }

  /** Over every run that keeps off colliding ids, the alarms logged for a variable of this name are the edges of its
      own stream: every episode is reported, and reported once. */
  ghost predicate LogsOwnEdges(name: string) {
    forall devices, ops, id | IsRun(devices, ops) && RunKeepsOff(devices, ops, id) ::
      LogOf(KeyOf(id, name), After(devices, ops).view.tracker.log) == Edges(OwnStream(devices, ops, id, name))
  }

  /** Exactly the variables that do not have the reserved name are reported by the edges of their own streams. */
  lemma OwnExactly(name: string)
    ensures LogsOwnEdges(name) <==> name != COMMUNICATION
  {
    if name == COMMUNICATION {
      var devices, ops := ReservedNameRepeatsAlarm("");
      assert IsRun(devices, ops) && RunKeepsOff(devices, ops, "");
    } else {
      forall devices, ops, id | IsRun(devices, ops) && RunKeepsOff(devices, ops, id)
        ensures LogOf(KeyOf(id, name), After(devices, ops).view.tracker.log) == Edges(OwnStream(devices, ops, id, name))
      {
        AlarmLogRefinement(devices, ops, id, name);
        OwnIsWhole(devices, ops, id, name);
      }
    }
  }

  /** What n equal refreshes show about the variable alone. */
  lemma {:induction false} OwnStreamOfReads(devices: seq<DeviceConfig>, op: Op, n: nat, id: string, name: string,
                                            shown: Observation)
    requires op.Refresh? && op.k < |devices| && Possible(Start(devices), op) && devices[op.k].id == id
    requires ShownOfVariable(devices[op.k], op.readings, |op.readings|, name) == [shown]
    ensures var ops := seq(n, _ => op);
            && IsRun(devices, ops) && After(devices, ops).devices == devices && RunKeepsOff(devices, ops, id)
            && OwnStream(devices, ops, id, name) == seq(n, _ => shown)
  {
    if n > 0 {
      var ops := seq(n, _ => op);
      OwnStreamOfReads(devices, op, n - 1, id, name, shown);
      assert Init(ops) == seq(n - 1, _ => op) && Last(ops) == op;
      NeverCollidesWithItself(id);
      assert OwnStream(devices, ops, id, name) == seq(n - 1, _ => shown) + [shown] == seq(n, _ => shown);
    }
  }

  /** A variable with the reserved name shares the key of its device, so that an unchanged alarm on it is
      reported anew by every refresh. */
  lemma ReservedNameRepeatsAlarm(id: string) returns (devices: seq<DeviceConfig>, ops: seq<Op>)
    ensures devices == [Gauge(id, COMMUNICATION)] && ops == [Read(0, HIGH), Read(0, HIGH)]
    ensures IsRun(devices, ops) && RunKeepsOff(devices, ops, id)
    ensures LogOf(KeyOf(id, COMMUNICATION), After(devices, ops).view.tracker.log) == [TOO_HIGH, TOO_HIGH]
    ensures Edges(OwnStream(devices, ops, id, COMMUNICATION)) == [TOO_HIGH]
  {
    var p, key, shown := Read(0, HIGH), KeyOf(id, COMMUNICATION), [Normal, Abnormal(TOO_HIGH)];
    var f := (op: Op) => shown;
    devices, ops := [Gauge(id, COMMUNICATION)], [p, p];
    ReservedAnswers(id);
    RefreshStreams(devices, ops, key, id, COMMUNICATION, f, f);
    GatherThree(f, p, p);
    EdgesOfReserved(TOO_HIGH);
    assert shown + shown == [Normal, Abnormal(TOO_HIGH), Normal, Abnormal(TOO_HIGH)];
    LogOfRun(devices, ops, key);
    OwnStreamOfTwo(devices, p, id, COMMUNICATION, Abnormal(TOO_HIGH));
    EdgesOfRepeated(TOO_HIGH);
  }

  lemma OwnStreamOfTwo(devices: seq<DeviceConfig>, op: Op, id: string, name: string, shown: Observation)
    requires op.Refresh? && op.k < |devices| && Possible(Start(devices), op) && devices[op.k].id == id
    requires ShownOfVariable(devices[op.k], op.readings, |op.readings|, name) == [shown]
    ensures IsRun(devices, [op, op]) && RunKeepsOff(devices, [op, op], id)
    ensures OwnStream(devices, [op, op], id, name) == [shown, shown]
  {
    OwnStreamOfReads(devices, op, 2, id, name, shown);
    assert seq(2, _ => op) == [op, op] && seq(2, _ => shown) == [shown, shown];
  }

  lemma ReservedAnswers(id: string)
    ensures var shown := [Normal, Abnormal(TOO_HIGH)];
            Answers([Gauge(id, COMMUNICATION)], Read(0, HIGH), KeyOf(id, COMMUNICATION), id, COMMUNICATION, shown,
                    shown)
  {
    SeenValues();
    NeverCollidesWithItself(id);
    assert AnyOk([HIGH]) by {
      assert [HIGH][0].ok;
    }
    assert FindVariableByName(Gauge(id, COMMUNICATION).variables, COMMUNICATION) == Some(0);
    StreamOfRefresh(Gauge(id, COMMUNICATION), [HIGH], 1, STAMPS, id, COMMUNICATION);
  }
}
