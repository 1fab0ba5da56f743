/** From the cache's alarm log to what the alarm store's callers read back. */
module Pipeline {
  import opened Config
  import opened AlarmEdges
  import opened AlarmStore
  import opened CacheRuns
  import opened ConnectionManager
  import opened DeviceState
  import opened Lexicographic
  import opened Sorting
  import opened StateCache
  import Timestamps

  /** The line that the store's append writes for an alarm. */
  function LineOf(a: Alarm): Line {
    Document(Encode(Normalise(ToRecord(a), "")))
  }

  /** The lines of the log's alarms. */
  function LinesOf(log: seq<Attempted>): seq<Line> {
    if log == [] then [] else LinesOf(Init(log)) + [LineOf(Last(log).alarm)]
  }

  function Stored(a: Alarm): AlarmRecord {
    ToRecord(a).(state := "active")
  }

  function StoredAll(log: seq<Attempted>): (records: seq<AlarmRecord>)
    ensures |records| == |log|
    ensures forall i :: 0 <= i < |log| ==> records[i] == Stored(log[i].alarm)
  {
    seq(|log|, i requires 0 <= i < |log| => Stored(log[i].alarm))
  }

  /** Device ids are not empty and clocks read like the wall clock. */
  predicate Storable(log: seq<Attempted>) {
    forall i :: 0 <= i < |log| ==> log[i].alarm.deviceId != "" && Timestamps.ValidShape(log[i].alarm.clock)
  }

  lemma StoredForm(a: Alarm, now: string)
    requires Timestamps.ValidShape(a.clock)
    ensures Normalise(ToRecord(a), now) == Stored(a)
    ensures Decode(Encode(Stored(a))) == Stored(a)
  {
    RoundTrip(Stored(a));
    assert ToRecord(a).level != "" && ToRecord(a).alarmId != "" && a.clock != "";
  }

  lemma AppendAlarm(lines: seq<Line>, a: Alarm)
    requires a.deviceId != "" && Timestamps.ValidShape(a.clock)
    ensures Loaded(lines + [LineOf(a)]) == Loaded(lines) + [Stored(a)]
    ensures InvalidCount(lines + [LineOf(a)]) == InvalidCount(lines)
  {
    StoredForm(a, "");
    AppendAddsOne(lines, ToRecord(a), "");
  }

  lemma StoredByParts(log: seq<Attempted>)
    requires log != []
    ensures StoredAll(log) == StoredAll(Init(log)) + [Stored(Last(log).alarm)]
  {
  }

  /** The lines of the log hold exactly its alarms, and nothing is invalid. */
  lemma {:induction false} StoreHoldsLog(log: seq<Attempted>)
    requires Storable(log)
    ensures Loaded(LinesOf(log)) == StoredAll(log) && InvalidCount(LinesOf(log)) == 0
  {
    if log != [] {
      StoreHoldsLog(Init(log));
      AppendAlarm(LinesOf(Init(log)), Last(log).alarm);
      StoredByParts(log);
    }
  }

  /** The sequence is made of the other two, each in its own order. */
  ghost predicate Merges<T>(merged: seq<T>, a: seq<T>, b: seq<T>)
    decreases merged
  {
    if merged == [] then a == [] && b == []
    else
      || (a != [] && Last(merged) == Last(a) && Merges(Init(merged), Init(a), b))
      || (b != [] && Last(merged) == Last(b) && Merges(Init(merged), a, Init(b)))
  }

  lemma MergeLeft<T>(merged: seq<T>, a: seq<T>, b: seq<T>, x: T)
    requires Merges(merged, a, b)
    ensures Merges(merged + [x], a + [x], b)
  {
    assert Init(merged + [x]) == merged && Init(a + [x]) == a;
  }

  lemma MergeRight<T>(merged: seq<T>, a: seq<T>, b: seq<T>, x: T)
    requires Merges(merged, a, b)
    ensures Merges(merged + [x], a, b + [x])
  {
    assert Init(merged + [x]) == merged && Init(b + [x]) == b;
  }

  lemma {:induction false} MergeOne<T>(b: seq<T>)
    ensures Merges(b, [], b)
    decreases b
  {
    if b != [] {
      MergeOne(Init(b));
    }
  }

  /** What one line adds to a load. */
  lemma LoadedByParts(lines: seq<Line>)
    requires lines != []
    ensures Loaded(lines) == Loaded(Init(lines)) + Loaded([Last(lines)])
    ensures InvalidCount(lines) == InvalidCount(Init(lines)) + InvalidCount([Last(lines)])
  {
    assert [Last(lines)][..0] == [];
  }

  /** Merged lines hold what their two parts hold. */
  lemma {:induction false} MergeLoads(lines: seq<Line>, a: seq<Line>, b: seq<Line>)
    requires Merges(lines, a, b)
    ensures multiset(Loaded(lines)) == multiset(Loaded(a)) + multiset(Loaded(b))
    ensures InvalidCount(lines) == InvalidCount(a) + InvalidCount(b)
    decreases lines
  {
    if lines != [] {
      LoadedByParts(lines);
      if a != [] && Last(lines) == Last(a) && Merges(Init(lines), Init(a), b) {
        MergeLoads(Init(lines), Init(a), b);
        LoadedByParts(a);
      } else {
        MergeLoads(Init(lines), a, Init(b));
        LoadedByParts(b);
      }
    }
  }

  /** What a load finds: each alarm of the log as often as it was raised, and what the other lines hold. */
  ghost predicate Finds(lines: seq<Line>, log: seq<Attempted>, others: seq<Line>) {
    && multiset(Loaded(lines)) == multiset(StoredAll(log)) + multiset(Loaded(others))
    && InvalidCount(lines) == InvalidCount(others)
  }

  /** Wherever other lines stand before, after or between those of the log. */
  lemma MergedStoreHoldsLog(lines: seq<Line>, log: seq<Attempted>, others: seq<Line>)
    requires Merges(lines, LinesOf(log), others) && Storable(log)
    ensures Finds(lines, log, others)
  {
    StoreHoldsLog(log);
    MergeLoads(lines, LinesOf(log), others);
  }

  /** Sorted by timestamp, the records of the log come in log order wherever the clock moved on. */
  lemma LaterClockLater(log: seq<Attempted>, alarms: seq<AlarmRecord>, i: nat, j: nat, p: nat, q: nat)
    requires SortedBy(Earlier, alarms) && i < |log| && j < |log| && p < |alarms| && q < |alarms|
    requires alarms[p] == Stored(log[i].alarm) && alarms[q] == Stored(log[j].alarm)
    requires Less(log[i].alarm.clock, log[j].alarm.clock)
    ensures p < q
  {
    Trichotomy(log[i].alarm.clock, log[j].alarm.clock);
  }

  ghost predicate Ascending(records: seq<AlarmRecord>) {
    forall i, j :: 0 <= i < j < |records| ==> Less(records[i].timestamp, records[j].timestamp)
  }

  lemma HeadsAgree(s: seq<AlarmRecord>, t: seq<AlarmRecord>)
    requires multiset(s) == multiset(t) && SortedBy(Earlier, s) && Ascending(t) && t != []
    ensures s != [] && s[0] == t[0]
  {
    assert t[0] in multiset(s);
    assert s != [] && s[0] in multiset(t);
    var i :| 0 <= i < |s| && s[i] == t[0];
    var j :| 0 <= j < |t| && t[j] == s[0];
    Trichotomy(t[0].timestamp, t[j].timestamp);
  }

  lemma TailsAgree(s: seq<AlarmRecord>, t: seq<AlarmRecord>)
    requires s != [] && t != [] && s[0] == t[0] && multiset(s) == multiset(t)
    ensures multiset(s[1..]) == multiset(t[1..])
  {
    assert s == [s[0]] + s[1..] && t == [t[0]] + t[1..];
    assert multiset(s[1..]) == multiset(s) - multiset{s[0]} == multiset(t[1..]);
  }

  /** There is only one way to sort records with distinct timestamps. */
  lemma {:induction false} SortedIsAscending(s: seq<AlarmRecord>, t: seq<AlarmRecord>)
    requires multiset(s) == multiset(t) && SortedBy(Earlier, s) && Ascending(t)
    ensures s == t
    decreases t
  {
    if t == [] {
      assert |multiset(s)| == 0;
    } else {
      HeadsAgree(s, t);
      TailsAgree(s, t);
      SortedIsAscending(s[1..], t[1..]);
      assert s == [s[0]] + s[1..] == t;
    }
  }

  /** Entry p of the loaded records is alarm i of the log, and entry q is alarm j, which reads a later clock. */
  ghost predicate LoggedLater(log: seq<Attempted>, alarms: seq<AlarmRecord>, i: nat, j: nat, p: nat, q: nat) {
    && i < |log| && j < |log| && p < |alarms| && q < |alarms|
    && alarms[p] == Stored(log[i].alarm) && alarms[q] == Stored(log[j].alarm)
    && Less(log[i].alarm.clock, log[j].alarm.clock)
  }

  /** What a load of a store with the log and other records returns: every alarm as often as it was raised and every
      other record, by timestamp, and the alarms in log order where clocks strictly increase. Records with equal
      timestamps may come in any order; where there are none and the others are older, nothing is reordered. */
  ghost predicate ReadBack(log: seq<Attempted>, others: seq<AlarmRecord>, alarms: seq<AlarmRecord>) {
    && multiset(alarms) == multiset(StoredAll(log)) + multiset(others) && SortedBy(Earlier, alarms)
    && (forall i, j, p, q :: LoggedLater(log, alarms, i, j, p, q) ==> p < q)
    && (Ascending(others + StoredAll(log)) ==> alarms == others + StoredAll(log))
  }

  lemma LoadReadsBack(log: seq<Attempted>, others: seq<AlarmRecord>, alarms: seq<AlarmRecord>)
    requires multiset(alarms) == multiset(StoredAll(log)) + multiset(others) && SortedBy(Earlier, alarms)
    ensures ReadBack(log, others, alarms)
  {
    forall i, j, p, q | LoggedLater(log, alarms, i, j, p, q) ensures p < q {
      LaterClockLater(log, alarms, i, j, p, q);
    }
    if Ascending(others + StoredAll(log)) {
      SortedIsAscending(alarms, others + StoredAll(log));
    }
  }

  /** What is written to the file while the server runs: the cache's alarms, and acknowledgements between them. */
  datatype Write =
    | Raise(attempt: Attempted)
    | Acknowledge(alarmId: string, deviceId: string, user: string, message: string, idClock: string, clock: string)

  function LineOfWrite(w: Write): Line {
    match w
    case Raise(attempt) => LineOf(attempt.alarm)
    case Acknowledge(alarmId, deviceId, user, message, idClock, clock) =>
      Document(Encode(AckRecord(alarmId, deviceId, user, message, idClock, clock)))
  }

  function Raised(writes: seq<Write>): seq<Attempted> {
    if writes == [] then []
    else Raised(Init(writes)) + if Last(writes).Raise? then [Last(writes).attempt] else []
  }

  /** The lines that are no alarms of the cache: those the file held before, and the acknowledgements. */
  function Others(prior: seq<Line>, writes: seq<Write>): seq<Line> {
    if writes == [] then prior
    else Others(prior, Init(writes)) + if Last(writes).Raise? then [] else [LineOfWrite(Last(writes))]
  }

  function Written(prior: seq<Line>, writes: seq<Write>): seq<Line> {
    if writes == [] then prior else Written(prior, Init(writes)) + [LineOfWrite(Last(writes))]
  }

  /** One more line on the left or on the right. */
  predicate GrowsBy<T(==)>(merged: seq<T>, a: seq<T>, b: seq<T>, longer: seq<T>, c: seq<T>, d: seq<T>, x: T) {
    longer == merged + [x] && ((c == a + [x] && d == b) || (c == a && d == b + [x]))
  }

  lemma MergeGrows<T>(merged: seq<T>, a: seq<T>, b: seq<T>, longer: seq<T>, c: seq<T>, d: seq<T>, x: T)
    requires Merges(merged, a, b) && GrowsBy(merged, a, b, longer, c, d, x)
    ensures Merges(longer, c, d)
  {
    if c == a + [x] && d == b {
      MergeLeft(merged, a, b, x);
    } else {
      MergeRight(merged, a, b, x);
    }
  }

  lemma LastWrite(prior: seq<Line>, writes: seq<Write>) returns (line: Line)
    requires writes != []
    ensures var before := Init(writes);
            GrowsBy(Written(prior, before), LinesOf(Raised(before)), Others(prior, before),
                    Written(prior, writes), LinesOf(Raised(writes)), Others(prior, writes), line)
  {
    line := LineOfWrite(Last(writes));
    if Last(writes).Raise? {
      assert Init(Raised(writes)) == Raised(Init(writes));
    } else {
      assert Raised(writes) == Raised(Init(writes));
    }
  }

  /** Whatever the file held, what is written afterwards merges with it. */
  lemma {:induction false} WrittenMerges(prior: seq<Line>, writes: seq<Write>)
    ensures Merges(Written(prior, writes), LinesOf(Raised(writes)), Others(prior, writes))
  {
    if writes == [] {
      MergeOne(prior);
    } else {
      var before := Init(writes);
      var line := LastWrite(prior, writes);
      WrittenMerges(prior, before);
      MergeGrows(Written(prior, before), LinesOf(Raised(before)), Others(prior, before),
                 Written(prior, writes), LinesOf(Raised(writes)), Others(prior, writes), line);
    }
  }

  /** Clocks read like the wall clock, and alarms name a device. */
  predicate Clocked(writes: seq<Write>) {
    && Storable(Raised(writes))
    && forall i :: 0 <= i < |writes| && writes[i].Acknowledge? ==> writes[i].clock != ""
  }

  lemma {:induction false} ClockedAt(writes: seq<Write>, k: nat)
    requires k < |writes| && writes[k].Raise? && Storable(Raised(writes))
    ensures Timestamps.ValidShape(writes[k].attempt.alarm.clock)
  {
    var before := Raised(Init(writes));
    if k < |writes| - 1 {
      assert forall i :: 0 <= i < |before| ==> before[i] == Raised(writes)[i];
      ClockedAt(Init(writes), k);
    } else {
      assert Raised(writes)[|before|] == writes[k].attempt;
    }
  }

  /** The writes, one after the other, to a store that accepts them, whatever it holds; the clock of an append is not
      read because every record brings its own. */
  method WriteAll(store: AlarmStore, writes: seq<Write>, now: string)
    requires store.Valid() && store.path != "" && Clocked(writes)
    modifies store
    ensures store.Valid() && store.lines == Written(old(store.lines), writes)
  {
    for k := 0 to |writes|
      invariant store.Valid() && store.lines == Written(old(store.lines), writes[..k])
    {
      assert Init(writes[..k + 1]) == writes[..k];
      match writes[k]
      case Raise(attempt) =>
        ClockedAt(writes, k);
        StoredForm(attempt.alarm, now);
        StoredForm(attempt.alarm, "");
        var _ := store.Append(ToRecord(attempt.alarm), now, true);
      case Acknowledge(alarmId, deviceId, user, message, idClock, clock) =>
        var _ := store.Acknowledge(alarmId, deviceId, user, message, idClock, clock, true);
    }
    assert writes[..|writes|] == writes;
  }

  /** A server on a file with any lines: its writes, then a load. */
  method StoreAndLoad(path: string, prior: seq<Line>, writes: seq<Write>, now: string)
    returns (alarms: seq<AlarmRecord>, invalid: nat)
    requires path != "" && Clocked(writes)
    ensures ReadBack(Raised(writes), Loaded(Others(prior, writes)), alarms)
    ensures invalid == InvalidCount(Others(prior, writes))
  {
    var store := new AlarmStore(path, prior);
    WriteAll(store, writes, now);
    WrittenMerges(prior, writes);
    MergedStoreHoldsLog(store.lines, Raised(writes), Others(prior, writes));
    alarms, invalid := store.LoadAll();
    LoadReadsBack(Raised(writes), Loaded(Others(prior, writes)), alarms);
  }

  lemma QueryFinds(q: AlarmQuery, lines: seq<Line>, log: seq<Attempted>, others: seq<Line>, result: seq<AlarmRecord>)
    requires Finds(lines, log, others) && NewestMatches(q, Loaded(lines), result)
    ensures NewestMatches(q, StoredAll(log) + Loaded(others), result)
  {
    NewestOfPermutation(q, Loaded(lines), StoredAll(log) + Loaded(others), result);
  }

  method StoreAndQuery(path: string, prior: seq<Line>, writes: seq<Write>, now: string, query: AlarmQuery)
    returns (result: seq<AlarmRecord>)
    requires path != "" && Clocked(writes)
    ensures NewestMatches(query, StoredAll(Raised(writes)) + Loaded(Others(prior, writes)), result)
  {
    var store := new AlarmStore(path, prior);
    WriteAll(store, writes, now);
    WrittenMerges(prior, writes);
    MergedStoreHoldsLog(store.lines, Raised(writes), Others(prior, writes));
    result := store.Query(query);
    QueryFinds(query, store.lines, Raised(writes), Others(prior, writes), result);
  }

  lemma {:induction false} LowerJoins(a: string, b: string)
    ensures Lower(a + b) == Lower(a) + Lower(b)
  {
    if a == [] {
      assert a + b == b;
    } else {
      assert (a + b)[0] == a[0] && (a + b)[1..] == a[1..] + b;
      LowerJoins(a[1..], b);
    }
  }

  lemma {:induction false} ContainsMiddle(before: string, middle: string, after: string)
    ensures Contains(before + middle + after, middle)
  {
    var whole := before + middle + after;
    if before == [] {
      assert whole == middle + after;
    } else {
      assert whole[1..] == before[1..] + middle + after;
      ContainsMiddle(before[1..], middle, after);
    }
  }

  lemma LowerContains(before: string, found: string, after: string)
    ensures Contains(Lower(before + found + after), Lower(found))
  {
    LowerJoins(before, found);
    LowerJoins(before + found, after);
    ContainsMiddle(Lower(before), Lower(found), Lower(after));
  }

  lemma MoreText(before: string, found: string, after: string, code: string, node: string)
    ensures (before + found + after) + " " + code + " " + node == before + found + (after + " " + code + " " + node)
  {
  }

  /** A keyword in any mixture of cases finds every record whose message holds it. */
  lemma KeywordFindsMessage(q: AlarmQuery, a: AlarmRecord, before: string, found: string, after: string)
    requires a.message == before + found + after && Lower(q.keyword) == Lower(found)
    requires Matches(q.(keyword := ""), a)
    ensures Matches(q, a)
  {
    MoreText(before, found, after, a.code, a.sourceNode);
    LowerContains(before, found, after + " " + a.code + " " + a.sourceNode);
  }

  /** What is searched of a threshold alarm names its variable, so that a query for the variable finds them all. */
  lemma KeywordFindsVariable(q: AlarmQuery, a: Alarm)
    requires a.cause.Limit? && q.keyword == a.cause.variable && Matches(q.(keyword := ""), Stored(a))
    ensures Matches(q, Stored(a))
  {
    var name := a.cause.variable;
    var rest := MessageOf(a.cause, a.signature.code)[|name|..];
    assert MessageOf(a.cause, a.signature.code)[..|name|] == name;
    assert MessageOf(a.cause, a.signature.code) == [] + name + rest;
    KeywordFindsMessage(q, Stored(a), [], name, rest);
  }

  /** Device ids of every configuration a run sees are not empty, and its refreshes read the wall clock. */
  ghost predicate WellSupplied(devices: seq<DeviceConfig>, ops: seq<Op>) {
    && Named(devices)
    && forall i :: 0 <= i < |ops| ==> OpSupplied(ops[i])
  }

  ghost predicate OpSupplied(op: Op) {
    && (op.Reconfigure? ==> Named(op.devices))
    && (op.Refresh? ==> forall k :: 0 <= k < |op.stamps| ==> Timestamps.ValidShape(op.stamps[k].clock))
  }

  ghost predicate Named(devices: seq<DeviceConfig>) {
    forall i :: 0 <= i < |devices| ==> devices[i].id != ""
  }

  predicate Supplied(e: Event) {
    e.Saw? && e.observation.Abnormal? ==> e.alarm.deviceId != "" && Timestamps.ValidShape(e.alarm.clock)
  }

  ghost predicate AllSupplied(events: seq<Event>) {
    forall e :: e in events ==> Supplied(e)
  }

  lemma TrackKeepsStorable(t: Tracker, e: Event)
    requires Storable(t.log) && Supplied(e)
    ensures Storable(Track(t, e).log)
  {
  }

  lemma {:induction false} TrackAllKeepsStorable(t: Tracker, events: seq<Event>)
    requires Storable(t.log) && AllSupplied(events)
    ensures Storable(TrackAll(t, events).log)
  {
    if events != [] {
      TrackAllKeepsStorable(t, Init(events));
      TrackKeepsStorable(TrackAll(t, Init(events)), Last(events));
    }
  }

  lemma {:induction false} RefreshIsSupplied(device: DeviceConfig, readings: seq<ReadResult>, n: nat,
                                             stamps: seq<Stamp>)
    requires n <= |readings| == |device.variables| && n < |stamps| && device.id != ""
    requires forall k :: 0 <= k < |stamps| ==> Timestamps.ValidShape(stamps[k].clock)
    ensures AllSupplied(RefreshEvents(device, readings, n, stamps))
  {
    if n == 0 {
      assert Timestamps.ValidShape(stamps[0].clock);
    } else {
      RefreshIsSupplied(device, readings, n - 1, stamps);
      assert Supplied(VariableEvent(device, readings, n - 1, stamps[n]));
    }
  }

  lemma StepKeepsStorable(m: Model, op: Op)
    requires Possible(m, op) && Named(m.devices) && Storable(m.view.tracker.log) && OpSupplied(op)
    ensures Storable(CacheRuns.Step(m, op).view.tracker.log)
  {
    if op.Refresh? {
      RefreshIsSupplied(m.devices[op.k], op.readings, |op.readings|, op.stamps);
      TrackAllKeepsStorable(m.view.tracker, RefreshEvents(m.devices[op.k], op.readings, |op.readings|, op.stamps));
    }
  }

  lemma StepKeepsNamed(m: Model, op: Op)
    requires Possible(m, op) && Named(m.devices) && OpSupplied(op)
    ensures Named(CacheRuns.Step(m, op).devices)
  {
  }

  lemma {:induction false} RunIsStorable(devices: seq<DeviceConfig>, ops: seq<Op>)
    requires IsRun(devices, ops) && WellSupplied(devices, ops)
    ensures Named(After(devices, ops).devices) && Storable(After(devices, ops).view.tracker.log)
  {
    if ops != [] {
      assert Last(ops) == ops[|ops| - 1];
      assert forall i :: 0 <= i < |Init(ops)| ==> Init(ops)[i] == ops[i];
      RunIsStorable(devices, Init(ops));
      StepKeepsNamed(After(devices, Init(ops)), Last(ops));
      StepKeepsStorable(After(devices, Init(ops)), Last(ops));
    }
  }

  /** Whatever the cache goes through, and whatever else stands in the file: every load of a store that accepted the
      cache's appends returns each alarm as often as it was raised and unchanged, by timestamp, beside the other
      records, and every query the newest matching ones. */
  lemma RunIsReadBack(devices: seq<DeviceConfig>, ops: seq<Op>, lines: seq<Line>, others: seq<Line>,
                      alarms: seq<AlarmRecord>, query: AlarmQuery, result: seq<AlarmRecord>)
    requires IsRun(devices, ops) && WellSupplied(devices, ops)
    requires Merges(lines, LinesOf(After(devices, ops).view.tracker.log), others)
    requires multiset(alarms) == multiset(Loaded(lines)) && SortedBy(Earlier, alarms)
    requires NewestMatches(query, Loaded(lines), result)
    ensures var log := After(devices, ops).view.tracker.log;
            && ReadBack(log, Loaded(others), alarms)
            && NewestMatches(query, StoredAll(log) + Loaded(others), result)
            && InvalidCount(lines) == InvalidCount(others)
  {
    var log := After(devices, ops).view.tracker.log;
    RunIsStorable(devices, ops);
    MergedStoreHoldsLog(lines, log, others);
    LoadReadsBack(log, Loaded(others), alarms);
    QueryFinds(query, lines, log, others, result);
  }
}
