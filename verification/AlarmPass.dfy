/** What one refresh does to the alarms and the cached state of its device, told from the readings alone. */
module AlarmPass {
  import opened AlarmEdges
  import opened AlarmStore
  import opened CacheRuns
  import opened Config
  import opened ConnectionManager
  import opened DeviceState
  import opened StateCache
  import opened Thresholds

  /** The calls of the store's append for one key, in order. */
  function EntriesOf(key: string, log: seq<Attempted>): seq<Attempted> {
    if log == [] then []
    else EntriesOf(key, Init(log)) + if Last(log).key == key then [Last(log)] else []
  }

  /** The trackers say the same about this key. */
  predicate Agree(key: string, t: Tracker, u: Tracker) {
    ActiveAt(t.active, key) == ActiveAt(u.active, key) && EntriesOf(key, t.log) == EntriesOf(key, u.log)
  }

  lemma EntriesGrow(key: string, log: seq<Attempted>, a: Attempted)
    ensures EntriesOf(key, log + [a]) == EntriesOf(key, log) + if a.key == key then [a] else []
  {
    assert Init(log + [a]) == log;
  }

  lemma OffKey(key: string, t: Tracker, e: Event)
    requires e.Saw? && e.key != key
    ensures Agree(key, Track(t, e), t)
  {
    if e.observation.Abnormal? {
      EntriesGrow(key, t.log, Attempted(e.key, e.observation.signature, e.alarm));
    }
  }

  lemma OnKey(key: string, t: Tracker, u: Tracker, e: Event)
    requires Agree(key, t, u)
    ensures e.Saw? ==> Agree(key, Track(t, e), Track(u, e))
  {
    if e.Saw? && e.observation.Abnormal? {
      EntriesGrow(key, t.log, Attempted(e.key, e.observation.signature, e.alarm));
      EntriesGrow(key, u.log, Attempted(e.key, e.observation.signature, e.alarm));
    }
  }

  /** Among the first n + 1 looks of a refresh only the one at k is at this key. */
  ghost predicate OnlyLook(key: string, device: DeviceConfig, readings: seq<ReadResult>, stamps: seq<Stamp>, k: nat)
    requires k <= |readings| == |device.variables| && |stamps| == |readings| + 1
  {
    && EventAt(device, readings, k, stamps[k]).key == key
    && forall j :: 0 <= j <= |readings| && j != k ==> EventAt(device, readings, j, stamps[j]).key != key
  }

  lemma {:induction false} LooksBefore(key: string, t: Tracker, device: DeviceConfig, readings: seq<ReadResult>,
                                       stamps: seq<Stamp>, k: nat, n: nat)
    requires k <= |readings| == |device.variables| && |stamps| == |readings| + 1 && n <= |readings|
    requires OnlyLook(key, device, readings, stamps, k)
    ensures Agree(key, TrackAll(t, RefreshEvents(device, readings, n, stamps)),
                  if n < k then t else Track(t, EventAt(device, readings, k, stamps[k])))
  {
    var e := EventAt(device, readings, n, stamps[n]);
    var before := if n == 0 then [] else RefreshEvents(device, readings, n - 1, stamps);
    RefreshEventsGrow(device, readings, n, stamps);
    TrackStep(t, before, e);
    if n > 0 {
      LooksBefore(key, t, device, readings, stamps, k, n - 1);
    }
    if n == k {
      OnKey(key, TrackAll(t, before), t, e);
    } else {
      OffKey(key, TrackAll(t, before), e);
    }
  }

  lemma VariableLook(device: DeviceConfig, readings: seq<ReadResult>, stamps: seq<Stamp>, k: nat)
    requires k < |readings| == |device.variables| && |stamps| == |readings| + 1
    requires device.variables[k].name != COMMUNICATION
    ensures OnlyLook(KeyOf(device.id, device.variables[k].name), device, readings, stamps, k + 1)
  {
    var name := device.variables[k].name;
    NeverCollidesWithItself(device.id);
    forall j | 0 <= j <= |readings| && j != k + 1
      ensures EventAt(device, readings, j, stamps[j]).key != KeyOf(device.id, name)
    {
      KeysAreDistinct(device.id, if j == 0 then COMMUNICATION else device.variables[j - 1].name, device.id, name);
    }
  }

  /** A variable of the reserved name is a second look at the key of its device. */
  lemma {:induction false} TwoLooks(t: Tracker, device: DeviceConfig, readings: seq<ReadResult>, stamps: seq<Stamp>,
                                    k: nat, n: nat)
    requires k < |readings| == |device.variables| && |stamps| == |readings| + 1 && n <= |readings|
    requires device.variables[k].name == COMMUNICATION
    ensures var told := Track(t, CommunicationEvent(device, readings, stamps[0]));
            Agree(KeyOf(device.id, COMMUNICATION), TrackAll(t, RefreshEvents(device, readings, n, stamps)),
                  if n <= k then told else Track(told, VariableEvent(device, readings, k, stamps[k + 1])))
  {
    var key, told := KeyOf(device.id, COMMUNICATION), Track(t, CommunicationEvent(device, readings, stamps[0]));
    if n == 0 {
      TrackFirst(t, device, readings, stamps);
    } else {
      TwoLooks(t, device, readings, stamps, k, n - 1);
      TrackNext(t, device, readings, n - 1, stamps);
      var before, e := TrackAll(t, RefreshEvents(device, readings, n - 1, stamps)),
          VariableEvent(device, readings, n - 1, stamps[n]);
      if n - 1 == k {
        OnKey(key, before, told, e);
      } else {
        NeverCollidesWithItself(device.id);
        KeysAreDistinct(device.id, device.variables[n - 1].name, device.id, COMMUNICATION);
        OffKey(key, before, e);
      }
    }
  }

  lemma DeviceLook(device: DeviceConfig, readings: seq<ReadResult>, stamps: seq<Stamp>)
    requires |readings| == |device.variables| && |stamps| == |readings| + 1 && NotReserved(device)
    ensures OnlyLook(KeyOf(device.id, COMMUNICATION), device, readings, stamps, 0)
  {
    NeverCollidesWithItself(device.id);
    forall j | 1 <= j <= |readings|
      ensures EventAt(device, readings, j, stamps[j]).key != KeyOf(device.id, COMMUNICATION)
    {
      KeysAreDistinct(device.id, device.variables[j - 1].name, device.id, COMMUNICATION);
    }
  }

  /** No variable has the reserved name. */
  predicate NotReserved(device: DeviceConfig) {
    forall k :: 0 <= k < |device.variables| ==> device.variables[k].name != COMMUNICATION
  }

  /** The key ends up with this signature; one alarm is appended unless the signature was active already. */
  ghost predicate Raises(key: string, before: Tracker, after: Tracker, signature: Signature, alarm: Alarm) {
    && ActiveAt(after.active, key) == Some(signature)
    && EntriesOf(key, after.log) == EntriesOf(key, before.log) +
         if ActiveAt(before.active, key) == Some(signature) then [] else [Attempted(key, signature, alarm)]
  }

  /** The key ends up with no signature, and nothing is appended for it. */
  ghost predicate Clears(key: string, before: Tracker, after: Tracker) {
    ActiveAt(after.active, key) == None && EntriesOf(key, after.log) == EntriesOf(key, before.log)
  }

  lemma RaisedBy(key: string, t: Tracker, after: Tracker, signature: Signature, alarm: Alarm)
    requires Agree(key, after, Track(t, Saw(key, Abnormal(signature), alarm)))
    ensures Raises(key, t, after, signature, alarm)
  {
    EntriesGrow(key, t.log, Attempted(key, signature, alarm));
  }

  predicate SomeGood(readings: seq<ReadResult>) {
    exists i: nat :: i < |readings| && readings[i].ok
  }

  /** The tracker after a refresh. */
  function AfterPass(t: Tracker, device: DeviceConfig, readings: seq<ReadResult>, stamps: seq<Stamp>): Tracker
    requires |readings| == |device.variables| && |stamps| == |readings| + 1
  {
    TrackAll(t, RefreshEvents(device, readings, |readings|, stamps))
  }

  lemma PassOfRefresh(view: View, device: DeviceConfig, readings: seq<ReadResult>, health: ManagedState,
                      stamps: seq<Stamp>)
    requires |readings| == |device.variables| && |stamps| == |readings| + 1
    ensures Refreshed(view, device, readings, health, stamps).tracker ==
            AfterPass(view.tracker, device, readings, stamps)
  {
  }

  /** The tracker when the pass comes to a variable: one of the reserved name shares the key of its device, which is
      looked at first. */
  function Met(t: Tracker, device: DeviceConfig, readings: seq<ReadResult>, stamp: Stamp, name: string): Tracker
    requires |readings| == |device.variables|
  {
    if name == COMMUNICATION then Track(t, CommunicationEvent(device, readings, stamp)) else t
  }

  lemma VariablePass(t: Tracker, device: DeviceConfig, readings: seq<ReadResult>, stamps: seq<Stamp>, k: nat)
    requires k < |readings| == |device.variables| && |stamps| == |readings| + 1
    ensures var name := device.variables[k].name;
            Agree(KeyOf(device.id, name), AfterPass(t, device, readings, stamps),
                  Track(Met(t, device, readings, stamps[0], name), VariableEvent(device, readings, k, stamps[k + 1])))
  {
    if device.variables[k].name == COMMUNICATION {
      TwoLooks(t, device, readings, stamps, k, |readings|);
    } else {
      VariableLook(device, readings, stamps, k);
      LooksBefore(KeyOf(device.id, device.variables[k].name), t, device, readings, stamps, k + 1, |readings|);
    }
  }

  lemma DevicePass(t: Tracker, device: DeviceConfig, readings: seq<ReadResult>, stamps: seq<Stamp>)
    requires |readings| == |device.variables| && |stamps| == |readings| + 1 && NotReserved(device)
    ensures Agree(KeyOf(device.id, COMMUNICATION), AfterPass(t, device, readings, stamps),
                  Track(t, CommunicationEvent(device, readings, stamps[0])))
  {
    DeviceLook(device, readings, stamps);
    LooksBefore(KeyOf(device.id, COMMUNICATION), t, device, readings, stamps, 0, |readings|);
  }

  /** The same when every read fails, even where a variable has the reserved name. */
  lemma LostDevicePass(t: Tracker, device: DeviceConfig, readings: seq<ReadResult>, stamps: seq<Stamp>)
    requires |readings| == |device.variables| && |stamps| == |readings| + 1
    requires readings != [] && !SomeGood(readings)
    ensures Agree(KeyOf(device.id, COMMUNICATION), AfterPass(t, device, readings, stamps),
                  Track(t, CommunicationEvent(device, readings, stamps[0])))
  {
    GoodIsAnyOk(readings);
    if k: nat :| k < |device.variables| && device.variables[k].name == COMMUNICATION {
      TwoLooks(t, device, readings, stamps, k, |readings|);
    } else {
      DevicePass(t, device, readings, stamps);
    }
  }

  /** The alarms that a variable's look starts from: those before the refresh, but for a variable of the reserved name,
      whose key a good read of its device has just cleared. */
  function Cleared(t: Tracker, device: DeviceConfig, name: string): Tracker {
    if name == COMMUNICATION then Tracker(t.active - {KeyOf(device.id, name)}, t.log) else t
  }

  lemma MetIsCleared(t: Tracker, device: DeviceConfig, readings: seq<ReadResult>, stamp: Stamp, name: string)
    requires |readings| == |device.variables| && SomeGood(readings)
    ensures Met(t, device, readings, stamp, name) == Cleared(t, device, name)
  {
    GoodIsAnyOk(readings);
  }

  lemma GoodIsAnyOk(readings: seq<ReadResult>)
    ensures SomeGood(readings) <==> AnyOk(readings)
  {
  }

  /** A lost read raises its alarm while some read of the device is good. */
  lemma FailedReadRaises(t: Tracker, device: DeviceConfig, readings: seq<ReadResult>, stamps: seq<Stamp>, k: nat)
    requires k < |readings| == |device.variables| && |stamps| == |readings| + 1
    requires !readings[k].ok && SomeGood(readings)
    ensures var v, lost := device.variables[k], Signature(ERROR, OPCUA_READ_FAILED);
            Raises(KeyOf(device.id, v.name), Cleared(t, device, v.name), AfterPass(t, device, readings, stamps), lost,
                   Alarm(device.id, lost, stamps[k + 1].clock, Failure(readings[k].error), v.nodeId, None, None))
  {
    var v, lost := device.variables[k], Signature(ERROR, OPCUA_READ_FAILED);
    GoodIsAnyOk(readings);
    VariablePass(t, device, readings, stamps, k);
    MetIsCleared(t, device, readings, stamps[0], v.name);
    RaisedBy(KeyOf(device.id, v.name), Cleared(t, device, v.name), AfterPass(t, device, readings, stamps), lost,
             Alarm(device.id, lost, stamps[k + 1].clock, Failure(readings[k].error), v.nodeId, None, None));
  }

  /** The text of the first failed reading that has one, its error or else its status. */
  ghost predicate IsFirstText(readings: seq<ReadResult>, text: string) {
    || (text == "" && forall i: nat :: i < |readings| ==> readings[i].ok || TextOf(readings[i]) == "")
    || (text != "" && exists k: nat :: HasFirstText(readings, k) && TextOf(readings[k]) == text)
  }

  predicate HasFirstText(readings: seq<ReadResult>, k: nat) {
    && k < |readings| && !readings[k].ok && TextOf(readings[k]) != ""
    && forall i: nat :: i < k ==> readings[i].ok || TextOf(readings[i]) == ""
  }

  function TextOf(reading: ReadResult): string {
    if reading.error == "" then reading.statusCode else reading.error
  }

  lemma {:induction false} FirstErrorIsFirst(readings: seq<ReadResult>, n: nat)
    requires n <= |readings|
    ensures IsFirstText(readings[..n], FirstError(readings, n))
  {
    if n > 0 {
      FirstErrorIsFirst(readings, n - 1);
      var before, all := readings[..n - 1], readings[..n];
      assert forall i :: 0 <= i < n - 1 ==> before[i] == all[i];
      assert all[n - 1] == readings[n - 1];
      if FirstError(readings, n - 1) != "" {
        var k: nat :| HasFirstText(before, k) && TextOf(before[k]) == FirstError(readings, n - 1);
        assert HasFirstText(all, k) && TextOf(all[k]) == FirstError(readings, n);
      } else if !readings[n - 1].ok && TextOf(readings[n - 1]) != "" {
        assert HasFirstText(all, n - 1);
      }
    }
  }

  /** When every read fails the device raises one alarm, with the first error text, and its variables none. */
  lemma TotalLossRaises(t: Tracker, device: DeviceConfig, readings: seq<ReadResult>, stamps: seq<Stamp>)
    returns (text: string)
    requires |readings| == |device.variables| && |stamps| == |readings| + 1
    requires readings != [] && !SomeGood(readings)
    ensures IsFirstText(readings, text)
    ensures var lost, after := Signature(ERROR, COMMUNICATION_ERROR), AfterPass(t, device, readings, stamps);
            && Raises(KeyOf(device.id, COMMUNICATION), t, after, lost,
                      Alarm(device.id, lost, stamps[0].clock, Failure(text), device.endpoint, None, None))
            && forall k :: 0 <= k < |readings| && device.variables[k].name != COMMUNICATION ==>
                 Agree(KeyOf(device.id, device.variables[k].name), after, t)
  {
    var lost, after := Signature(ERROR, COMMUNICATION_ERROR), AfterPass(t, device, readings, stamps);
    text := FirstError(readings, |readings|);
    FirstErrorIsFirst(readings, |readings|);
    assert readings[..|readings|] == readings;
    GoodIsAnyOk(readings);
    LostDevicePass(t, device, readings, stamps);
    RaisedBy(KeyOf(device.id, COMMUNICATION), t, after, lost,
             Alarm(device.id, lost, stamps[0].clock, Failure(text), device.endpoint, None, None));
    forall k | 0 <= k < |readings| && device.variables[k].name != COMMUNICATION
      ensures Agree(KeyOf(device.id, device.variables[k].name), after, t)
    {
      VariablePass(t, device, readings, stamps, k);
    }
  }

  /** One good read, or none to make, clears the alarm of the device as a whole. */
  lemma GoodReadClearsDevice(t: Tracker, device: DeviceConfig, readings: seq<ReadResult>, stamps: seq<Stamp>)
    requires |readings| == |device.variables| && |stamps| == |readings| + 1 && NotReserved(device)
    requires readings == [] || SomeGood(readings)
    ensures Clears(KeyOf(device.id, COMMUNICATION), t, AfterPass(t, device, readings, stamps))
  {
    GoodIsAnyOk(readings);
    DevicePass(t, device, readings, stamps);
  }

  /** The JSON value is this number. */
  predicate IsNumberOf(value: Value, number: real) {
    value == Real(number) || (value.Integer? && value.i as real == number)
  }

  predicate Above(limit: Option<real>, number: real) {
    limit.Some? && number > limit.value
  }

  predicate Below(limit: Option<real>, number: real) {
    limit.Some? && number < limit.value
  }

  predicate Within(rule: Rule, number: real) {
    !Above(rule.alarmMax, number) && !Below(rule.alarmMin, number) &&
    !Above(rule.warnMax, number) && !Below(rule.warnMin, number)
  }

  /** The number exceeds this limit, and the signature says how; alarm limits come before warning limits, and upper
      ones before lower ones. */
  predicate Exceeds(rule: Rule, number: real, signature: Signature, limit: real) {
    match signature
    case Signature(CRITICAL, VARIABLE_ABOVE_ALARM_MAX) => rule.alarmMax == Some(limit) && number > limit
    case Signature(CRITICAL, VARIABLE_BELOW_ALARM_MIN) =>
      rule.alarmMin == Some(limit) && number < limit && !Above(rule.alarmMax, number)
    case Signature(WARN, VARIABLE_ABOVE_WARN_MAX) =>
      rule.warnMax == Some(limit) && number > limit && !Above(rule.alarmMax, number) && !Below(rule.alarmMin, number)
    case Signature(WARN, VARIABLE_BELOW_WARN_MIN) =>
      rule.warnMin == Some(limit) && number < limit && !Above(rule.alarmMax, number) &&
      !Below(rule.alarmMin, number) && !Above(rule.warnMax, number)
    case _ => false
  }

  /** A value that is no number, or one within the limits, leaves no alarm on its variable. */
  lemma NormalReadClears(t: Tracker, device: DeviceConfig, readings: seq<ReadResult>, stamps: seq<Stamp>, k: nat)
    requires k < |readings| == |device.variables| && |stamps| == |readings| + 1
    requires readings[k].ok
    requires forall number | IsNumberOf(readings[k].value, number) :: Within(device.variables[k].rule, number)
    ensures Clears(KeyOf(device.id, device.variables[k].name), t, AfterPass(t, device, readings, stamps))
  {
    VariablePass(t, device, readings, stamps, k);
    MetIsCleared(t, device, readings, stamps[0], device.variables[k].name);
    if NumericValue(readings[k].value).Some? {
      assert IsNumberOf(readings[k].value, NumericValue(readings[k].value).value);
    }
  }

  /** A number beyond a limit raises the alarm of that limit, with the number and the limit. */
  lemma LimitRaises(t: Tracker, device: DeviceConfig, readings: seq<ReadResult>, stamps: seq<Stamp>, k: nat,
                    number: real)
    returns (signature: Signature, limit: real)
    requires k < |readings| == |device.variables| && |stamps| == |readings| + 1
    requires readings[k].ok
    requires IsNumberOf(readings[k].value, number) && !Within(device.variables[k].rule, number)
    ensures Exceeds(device.variables[k].rule, number, signature, limit)
    ensures var v, stamp := device.variables[k], stamps[k + 1];
            Raises(KeyOf(device.id, v.name), Cleared(t, device, v.name), AfterPass(t, device, readings, stamps),
                   signature,
                   Alarm(device.id, signature, stamp.clock, Limit(v.name, stamp.value, stamp.threshold), v.nodeId,
                         Some(number), Some(limit)))
  {
    var v, stamp := device.variables[k], stamps[k + 1];
    var verdict := CacheVerdict(v.rule, number).value;
    signature, limit := verdict.signature, verdict.threshold;
    VariablePass(t, device, readings, stamps, k);
    MetIsCleared(t, device, readings, stamps[0], v.name);
    RaisedBy(KeyOf(device.id, v.name), Cleared(t, device, v.name), AfterPass(t, device, readings, stamps), signature,
             Alarm(device.id, signature, stamp.clock, Limit(v.name, stamp.value, stamp.threshold), v.nodeId,
                   Some(number), Some(limit)));
  }

  /** A refresh leaves the alarms of every other device as they were, unless its id collides. */
  lemma {:induction false} OtherDevicesStand(t: Tracker, device: DeviceConfig, readings: seq<ReadResult>,
                                             stamps: seq<Stamp>, n: nat, id: string, name: string)
    requires n <= |readings| == |device.variables| && |stamps| == |readings| + 1
    requires id != device.id && !Collide(id, device.id)
    ensures Agree(KeyOf(id, name), TrackAll(t, RefreshEvents(device, readings, n, stamps)), t)
  {
    var e := EventAt(device, readings, n, stamps[n]);
    var before := if n == 0 then [] else RefreshEvents(device, readings, n - 1, stamps);
    RefreshEventsGrow(device, readings, n, stamps);
    TrackStep(t, before, e);
    if n > 0 {
      OtherDevicesStand(t, device, readings, stamps, n - 1, id, name);
    }
    KeysAreDistinct(id, name, device.id, if n == 0 then COMMUNICATION else device.variables[n - 1].name);
    OffKey(KeyOf(id, name), TrackAll(t, before), e);
  }

  /** What the cached state says about the device as a whole: the status by how many reads were good, and the first
      error text, or the connection's where no read has one. */
  lemma StatusTells(device: DeviceConfig, readings: seq<ReadResult>, health: ManagedState)
    requires |readings| == |device.variables|
    ensures var s := SnapshotOf(device, readings, health);
            && s.online == SomeGood(readings)
            && (s.status == "OK" <==> readings != [] && forall i: nat :: i < |readings| ==> readings[i].ok)
            && (s.status == "DEGRADED" <==> SomeGood(readings) && exists i: nat :: i < |readings| && !readings[i].ok)
            && (s.status == "ERROR" <==> !SomeGood(readings))
            && (exists text :: IsFirstText(readings, text) && s.lastError == if text == "" then health.lastError
                else text)
            && s.connection == health.connection && s.deviceConnected == health.online
  {
    GoodIsAnyOk(readings);
    FirstErrorIsFirst(readings, |readings|);
    assert readings[..|readings|] == readings;
    StatusOf(readings);
  }

  lemma StatusOf(readings: seq<ReadResult>)
    ensures AllOk(readings) <==> readings != [] && forall i: nat :: i < |readings| ==> readings[i].ok
    ensures AllOk(readings) ==> AnyOk(readings)
  {
    if AllOk(readings) {
      assert readings[0].ok;
    }
  }

  /** Different signatures are printed differently, and an alarm's record tells its parts. */
  lemma RecordTells(a: Alarm, b: Alarm)
    ensures ToRecord(a).level == ToRecord(b).level && ToRecord(a).code == ToRecord(b).code ==>
            a.signature == b.signature
    ensures var r := ToRecord(a);
            && r.deviceId == a.deviceId && r.timestamp == a.clock && r.sourceNode == a.node
            && r.value == a.value && r.threshold == a.threshold && !r.acknowledged
            && r.source == "device_state_cache" && r.severity == r.level &&
              r.alarmId == a.deviceId + ":" + r.code + ":" + a.clock
  {
    LevelsDiffer(a.signature.level, b.signature.level);
    CodesDiffer(a.signature.code, b.signature.code);
  }

  lemma LevelsDiffer(a: Level, b: Level)
    ensures LevelName(a) == LevelName(b) ==> a == b
    ensures LevelName(WARN) == "WARN" && LevelName(CRITICAL) == "CRITICAL" && LevelName(ERROR) == "ERROR"
  {
    assert LevelName(WARN)[0] == 'W' && LevelName(CRITICAL)[0] == 'C' && LevelName(ERROR)[0] == 'E';
  }

  lemma CodesDiffer(a: Code, b: Code)
    ensures CodeName(a) == CodeName(b) ==> a == b
    ensures CodeName(VARIABLE_ABOVE_ALARM_MAX) == "VARIABLE_ABOVE_ALARM_MAX"
    ensures CodeName(VARIABLE_BELOW_ALARM_MIN) == "VARIABLE_BELOW_ALARM_MIN"
    ensures CodeName(VARIABLE_ABOVE_WARN_MAX) == "VARIABLE_ABOVE_WARN_MAX"
    ensures CodeName(VARIABLE_BELOW_WARN_MIN) == "VARIABLE_BELOW_WARN_MIN"
    ensures CodeName(OPCUA_READ_FAILED) == "OPCUA_READ_FAILED" && CodeName(COMMUNICATION_ERROR) == "COMMUNICATION_ERROR"
  {
    assert |CodeName(VARIABLE_ABOVE_ALARM_MAX)| == |CodeName(VARIABLE_BELOW_ALARM_MIN)| == 24;
    assert |CodeName(VARIABLE_ABOVE_WARN_MAX)| == |CodeName(VARIABLE_BELOW_WARN_MIN)| == 23;
    assert |CodeName(OPCUA_READ_FAILED)| == 17 && |CodeName(COMMUNICATION_ERROR)| == 19;
    assert CodeName(VARIABLE_ABOVE_ALARM_MAX)[9] == CodeName(VARIABLE_ABOVE_WARN_MAX)[9] == 'A';
    assert CodeName(VARIABLE_BELOW_ALARM_MIN)[9] == CodeName(VARIABLE_BELOW_WARN_MIN)[9] == 'B';
  }

  /** The words of a threshold message tell above from below and an alarm limit from a warning limit as its code
      does. */
  lemma DirectionTells(code: Code)
    requires code !in {OPCUA_READ_FAILED, COMMUNICATION_ERROR}
    ensures |Direction(code)| >= 10
    ensures Direction(code)[0] == 'a' <==> code in {VARIABLE_ABOVE_ALARM_MAX, VARIABLE_ABOVE_WARN_MAX}
    ensures Direction(code)[6] == 'a' <==> code in {VARIABLE_ABOVE_ALARM_MAX, VARIABLE_BELOW_ALARM_MIN}
  {
  }

  lemma EndsWith(before: string, end: string)
    ensures (before + end)[|before + end| - |end|..] == end
  {
  }

  /** A lost read's message is its error text, and not empty where there is none. */
  lemma LossTells(text: string, code: Code)
    ensures MessageOf(Failure(text), code) == text || text == ""
    ensures MessageOf(Failure(text), code) != ""
  {
  }

  /** The message begins with its variable and ends with the limit. */
  lemma MessageTells(name: string, value: string, limit: string, code: Code)
    ensures var message := MessageOf(Limit(name, value, limit), code);
            name <= message && |limit| <= |message| && message[|message| - |limit|..] == limit
  {
    EndsWith(name + " is " + Direction(code) + " threshold; value=" + value + ", threshold=", limit);
  }

  /** Each variable is cached as it was read. */
  lemma CachedAsRead(device: DeviceConfig, readings: seq<ReadResult>, health: ManagedState, k: nat)
    requires k < |readings| == |device.variables|
    ensures var cached, r := SnapshotOf(device, readings, health).variables, readings[k];
            && device.variables[k].name in cached
            && var v := cached[device.variables[k].name];
            v.value == r.value && v.ok == r.ok && v.statusCode == r.statusCode && v.error == r.error
  {
    CacheHoldsReadings(device.variables, readings);
  }
}
