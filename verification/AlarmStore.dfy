/** The alarm store: records as JSON lines, loading with normalisation, querying and analysis. */
module AlarmStore {
  import opened Config
  import opened Lexicographic
  import opened Sorting
  import Timestamps

  datatype AlarmRecord = AlarmRecord(
    alarmId: string, timestamp: string, deviceId: string, level: string, severity: string,
    code: string, message: string, state: string, source: string, sourceNode: string,
    value: Option<real>, threshold: Option<real>, acknowledged: bool)

  /** A JSON document: an object, by what it holds under the keys that are ever read, or something else. */
  datatype Json =
    | Object(
        alarmId: Option<Value>, timestamp: Option<Value>, deviceId: Option<Value>, level: Option<Value>,
        severity: Option<Value>, code: Option<Value>, message: Option<Value>, state: Option<Value>,
        source: Option<Value>, sourceNode: Option<Value>, value: Option<Value>, threshold: Option<Value>,
        acknowledged: Option<Value>)
    | Scalar

  /** A line of the log file: empty, not JSON, or one JSON document. */
  datatype Line = Blank | Garbage | Document(json: Json)

  function StringOf(v: Option<Value>): string {
    if v.Some? && v.value.Text? then v.value.s else ""
  }

  function DoubleOf(v: Option<Value>): Option<real> {
    if v.Some? then NumericValue(v.value) else None
  }

  function BoolOf(v: Option<Value>): bool {
    v == Some(Boolean(true))
  }

  function CanonicalLevel(a: AlarmRecord): string {
    if a.level == "" then a.severity else a.level
  }

  function FillLevels(a: AlarmRecord): AlarmRecord {
    var level := if a.level == "" then a.severity else a.level;
    a.(level := level, severity := if a.severity == "" then level else a.severity)
  }

  /** Read a record back from a document. */
  function Decode(json: Json): AlarmRecord {
    if json.Scalar? then AlarmRecord("", "", "", "", "", "", "", "", "", "", None, None, false)
    else FillLevels(AlarmRecord(
      StringOf(json.alarmId), StringOf(json.timestamp), StringOf(json.deviceId), StringOf(json.level),
      StringOf(json.severity), StringOf(json.code), StringOf(json.message), StringOf(json.state),
      StringOf(json.source), StringOf(json.sourceNode), DoubleOf(json.value), DoubleOf(json.threshold),
      BoolOf(json.acknowledged)))
  }

  /** Print a record; level and severity both carry the canonical level, absent numbers are left out. */
  function Encode(a: AlarmRecord): Json {
    Object(Some(Text(a.alarmId)), Some(Text(a.timestamp)), Some(Text(a.deviceId)), Some(Text(CanonicalLevel(a))),
           Some(Text(CanonicalLevel(a))), Some(Text(a.code)), Some(Text(a.message)), Some(Text(a.state)),
           Some(Text(a.source)), Some(Text(a.sourceNode)),
           if a.value.Some? then Some(Real(a.value.value)) else None,
           if a.threshold.Some? then Some(Real(a.threshold.value)) else None,
           Some(Boolean(a.acknowledged)))
  }

  /** Only the level pair changes on the way through the store: severity takes the canonical level. */
  lemma RoundTrip(a: AlarmRecord)
    ensures Decode(Encode(a)) == a.(level := CanonicalLevel(a), severity := CanonicalLevel(a))
  {
  }

  /** Printing a reloaded record reproduces the printed object. */
  lemma PrintIsStable(a: AlarmRecord)
    ensures Encode(Decode(Encode(a))) == Encode(a)
  {
    RoundTrip(a);
  }

  /** A record is kept when it names a device and its timestamp has the right shape. */
  predicate Keeps(a: AlarmRecord) {
    a.deviceId != "" && Timestamps.ValidShape(a.timestamp)
  }

  /** The kept records, in storage order. */
  function Loaded(lines: seq<Line>): seq<AlarmRecord> {
    if lines == [] then []
    else
      var last := lines[|lines| - 1];
      Loaded(lines[..|lines| - 1]) +
      if last.Document? && Keeps(Decode(last.json)) then [Decode(last.json)] else []
  }

  function InvalidCount(lines: seq<Line>): nat {
    if lines == [] then 0
    else
      var last := lines[|lines| - 1];
      InvalidCount(lines[..|lines| - 1]) +
      if last.Garbage? || (last.Document? && !Keeps(Decode(last.json))) then 1 else 0
  }

  function NonBlank(lines: seq<Line>): nat {
    if lines == [] then 0
    else NonBlank(lines[..|lines| - 1]) + if lines[|lines| - 1].Blank? then 0 else 1
  }

  /** Every non-blank line is either loaded or counted as invalid. */
  lemma {:induction false} LoadConserves(lines: seq<Line>)
    ensures |Loaded(lines)| + InvalidCount(lines) == NonBlank(lines)
  {
    if lines != [] {
      LoadConserves(lines[..|lines| - 1]);
    }
  }

  /** The record that append hands to the backend. */
  function Normalise(a: AlarmRecord, now: string): AlarmRecord {
    var stamped := FillLevels(if a.timestamp == "" then a.(timestamp := now) else a);
    var sourced := stamped.(source := if a.source == "" then "device_state_cache" else a.source,
                            state := if a.state == "" then "active" else a.state);
    if a.alarmId == "" then sourced.(alarmId := a.deviceId + ":" + a.code + ":" + sourced.timestamp) else sourced
  }

  /** A successful append adds exactly one record or exactly one invalid line. */
  lemma AppendAddsOne(lines: seq<Line>, a: AlarmRecord, now: string)
    ensures var stored := Normalise(a, now);
            var kept := stored.(level := CanonicalLevel(stored), severity := CanonicalLevel(stored));
            var after := lines + [Document(Encode(stored))];
            if a.deviceId != "" && Timestamps.ValidShape(stored.timestamp)
            then Loaded(after) == Loaded(lines) + [kept] && InvalidCount(after) == InvalidCount(lines)
            else Loaded(after) == Loaded(lines) && InvalidCount(after) == InvalidCount(lines) + 1
  {
    var stored := Normalise(a, now);
    RoundTrip(stored);
    var after := lines + [Document(Encode(stored))];
    assert after[..|after| - 1] == lines;
  }

  /** The record of an acknowledgement. */
  function AckRecord(alarmId: string, deviceId: string, user: string, message: string, idClock: string,
                     clock: string): AlarmRecord {
    AlarmRecord((if alarmId == "" then deviceId else alarmId) + ":ACK:" + idClock, clock, deviceId, "INFO", "INFO",
                "ALARM_ACKNOWLEDGED", if message == "" then "alarm acknowledged by " + user else message,
                "acknowledged", "mcp_tool", alarmId, None, None, true)
  }

  /** Nothing is filled in where nothing is missing. */
  lemma AckIsNormal(a: AlarmRecord, now: string)
    requires a.timestamp != "" && a.level != "" && a.severity != "" && a.source != "" && a.state != "" &&
             a.alarmId != ""
    ensures Normalise(a, now) == a
  {
  }

  function LowerChar(c: char): char {
    if 'A' <= c <= 'Z' then ((c as int) + 32) as char else c
  }

  function Lower(s: string): (r: string)
    ensures |r| == |s|
  {
    if s == [] then [] else [LowerChar(s[0])] + Lower(s[1..])
  }

  predicate Contains(haystack: string, needle: string) {
    needle <= haystack || (haystack != [] && Contains(haystack[1..], needle))
  }

  datatype AlarmQuery = AlarmQuery(
    deviceId: string, startTime: string, endTime: string, level: string, severity: string, keyword: string, limit: nat)

  /** All filters of a query. */
  predicate Matches(q: AlarmQuery, a: AlarmRecord) {
    var level := if q.level == "" then q.severity else q.level;
    && (q.deviceId == "" || a.deviceId == q.deviceId)
    && (level == "" || Lower(CanonicalLevel(a)) == Lower(level))
    && Timestamps.InRange(a.timestamp, q.startTime, q.endTime)
    && (q.keyword == "" || Contains(Lower(a.message + " " + a.code + " " + a.sourceNode), Lower(q.keyword)))
  }

  function Keep(p: AlarmRecord -> bool, alarms: seq<AlarmRecord>): seq<AlarmRecord> {
    if alarms == [] then []
    else (if p(alarms[0]) then [alarms[0]] else []) + Keep(p, alarms[1..])
  }

  function Matcher(q: AlarmQuery): AlarmRecord -> bool {
    (a: AlarmRecord) => Matches(q, a)
  }

  function Filter(q: AlarmQuery, alarms: seq<AlarmRecord>): seq<AlarmRecord> {
    Keep(Matcher(q), alarms)
  }

  lemma {:induction false} KeepCounts(p: AlarmRecord -> bool, alarms: seq<AlarmRecord>, a: AlarmRecord)
    ensures multiset(Keep(p, alarms))[a] == if p(a) then multiset(alarms)[a] else 0
  {
    if alarms != [] {
      KeepCounts(p, alarms[1..], a);
      assert alarms == [alarms[0]] + alarms[1..];
    }
  }

  lemma KeepPermutes(p: AlarmRecord -> bool, a: seq<AlarmRecord>, b: seq<AlarmRecord>)
    requires multiset(a) == multiset(b)
    ensures multiset(Keep(p, a)) == multiset(Keep(p, b))
    ensures |Keep(p, a)| == |Keep(p, b)|
  {
    forall x: AlarmRecord ensures multiset(Keep(p, a))[x] == multiset(Keep(p, b))[x] {
      KeepCounts(p, a, x);
      KeepCounts(p, b, x);
    }
    assert multiset(Keep(p, a)) == multiset(Keep(p, b));
    assert |multiset(Keep(p, a))| == |Keep(p, a)|;
  }

  lemma KeepCons(p: AlarmRecord -> bool, a: AlarmRecord, rest: seq<AlarmRecord>)
    ensures Keep(p, [a] + rest) == (if p(a) then [a] else []) + Keep(p, rest)
  {
    assert ([a] + rest)[1..] == rest;
  }

  lemma {:induction false} KeepConcat(p: AlarmRecord -> bool, a: seq<AlarmRecord>, b: seq<AlarmRecord>)
    ensures Keep(p, a + b) == Keep(p, a) + Keep(p, b)
  {
    if a == [] {
      assert a + b == b;
    } else {
      KeepConcat(p, a[1..], b);
      KeepCons(p, a[0], a[1..]);
      KeepCons(p, a[0], a[1..] + b);
      assert a == [a[0]] + a[1..] && a + b == [a[0]] + (a[1..] + b);
    }
  }

  predicate Earlier(a: AlarmRecord, b: AlarmRecord) {
    Leq(a.timestamp, b.timestamp)
  }

  lemma EarlierIsPreorder()
    ensures TotalPreorder(Earlier)
  {
    forall a, b ensures Earlier(a, b) || Earlier(b, a) {
      LeqTotal(a.timestamp, b.timestamp);
    }
    forall a, b, c | Earlier(a, b) && Earlier(b, c) ensures Earlier(a, c) {
      LeqTransitive(a.timestamp, b.timestamp, c.timestamp);
    }
  }

  /** What a query promises about the records it returns, out of all records that match. */
  ghost predicate NewestMatches(q: AlarmQuery, all: seq<AlarmRecord>, result: seq<AlarmRecord>) {
    var matching := Filter(q, all);
    && multiset(result) <= multiset(matching)
    && |result| == (if |matching| <= q.limit then |matching| else if q.limit == 0 then 1 else q.limit)
    && (forall i, j :: 0 <= i < j < |result| ==> Earlier(result[j], result[i]))
    && (forall a, i :: a in multiset(matching) - multiset(result) && 0 <= i < |result| ==> Earlier(a, result[i]))
  }

  /** Exactly when a query returns more records than its limit: when that is 0 and something matches. */
  lemma LimitExceededExactly(q: AlarmQuery, all: seq<AlarmRecord>, result: seq<AlarmRecord>)
    requires NewestMatches(q, all, result)
    ensures |result| > q.limit <==> q.limit == 0 && Filter(q, all) != []
  {
  }

  /** A query without filters and with limit 0 on a store with one record returns it. */
  lemma LimitZeroReturnsOne(a: AlarmRecord, result: seq<AlarmRecord>)
    requires NewestMatches(AlarmQuery("", "", "", "", "", "", 0), [a], result)
    ensures result == [a]
  {
    var q := AlarmQuery("", "", "", "", "", "", 0);
    assert Matches(q, a) && Matcher(q)(a) && [a][1..] == [];
    assert Keep(Matcher(q), [a]) == [a] + Keep(Matcher(q), []) == [a];
    assert |result| == 1;
    assert result[0] in multiset(result) && multiset(result) <= multiset([a]);
  }

  datatype Analysis = Analysis(
    alarms: seq<AlarmRecord>, total: nat, invalid: nat,
    byLevel: seq<(string, nat)>, frequent: seq<(string, nat)>, timeline: seq<(string, string, string)>,
    latest: Option<AlarmRecord>, first: Option<AlarmRecord>)

  function Count(key: string, keys: seq<string>): nat {
    if keys == [] then 0 else Count(key, keys[1..]) + if keys[0] == key then 1 else 0
  }

  function SumPairs(pairs: seq<(string, nat)>): nat {
    if pairs == [] then 0 else pairs[0].1 + SumPairs(pairs[1..])
  }

  /** A tally lists every key that occurs once, with its number of occurrences. */
  ghost predicate IsTally(pairs: seq<(string, nat)>, keys: seq<string>) {
    && (forall i, j :: 0 <= i < j < |pairs| ==> pairs[i].0 != pairs[j].0)
    && (forall i :: 0 <= i < |pairs| ==> pairs[i].1 == Count(pairs[i].0, keys) > 0)
    && (forall k :: k in keys ==> exists i :: 0 <= i < |pairs| && pairs[i].0 == k)
  }

  function Without(key: string, keys: seq<string>): seq<string> {
    if keys == [] then []
    else (if keys[0] == key then [] else [keys[0]]) + Without(key, keys[1..])
  }

  lemma {:induction false} WithoutCounts(key: string, keys: seq<string>, other: string)
    ensures Count(other, Without(key, keys)) == if other == key then 0 else Count(other, keys)
    ensures |keys| == Count(key, keys) + |Without(key, keys)|
    ensures other in Without(key, keys) <==> other in keys && other != key
  {
    if keys != [] {
      WithoutCounts(key, keys[1..], other);
      var rest := Without(key, keys[1..]);
      if keys[0] == key {
        assert Without(key, keys) == rest;
      } else {
        assert Without(key, keys) == [keys[0]] + rest;
        assert ([keys[0]] + rest)[1..] == rest;
      }
    }
  }

  lemma HasElement(keys: seq<string>)
    requires keys != []
    ensures exists k :: k in keys
  {
    assert keys[0] in keys;
  }

  /** The counts of a tally add up to the number of records. */
  lemma {:induction false} TallySums(pairs: seq<(string, nat)>, keys: seq<string>)
    requires IsTally(pairs, keys)
    ensures SumPairs(pairs) == |keys|
  {
    if pairs == [] {
      if keys != [] {
        HasElement(keys);
        assert false;
      }
    } else {
      var key, rest := pairs[0].0, Without(pairs[0].0, keys);
      WithoutCounts(key, keys, key);
      forall i | 0 <= i < |pairs[1..]| ensures pairs[1..][i].1 == Count(pairs[1..][i].0, rest) > 0 {
        WithoutCounts(key, keys, pairs[i + 1].0);
      }
      forall k | k in rest ensures exists i :: 0 <= i < |pairs[1..]| && pairs[1..][i].0 == k {
        WithoutCounts(key, keys, k);
        var i :| 0 <= i < |pairs| && pairs[i].0 == k;
        assert pairs[1..][i - 1].0 == k;
      }
      TallySums(pairs[1..], rest);
    }
  }

  lemma TallyPermutes(a: seq<(string, nat)>, b: seq<(string, nat)>, keys: seq<string>)
    requires IsTally(a, keys) && multiset(b) == multiset(a)
    ensures IsTally(b, keys)
  {
    forall i | 0 <= i < |b| ensures b[i].1 == Count(b[i].0, keys) > 0 {
      assert b[i] in multiset(b);
      assert b[i] in a;
    }
    forall k | k in keys ensures exists i :: 0 <= i < |b| && b[i].0 == k {
      var i :| 0 <= i < |a| && a[i].0 == k;
      assert a[i] in multiset(a);
      assert a[i] in b;
    }
    forall i, j | 0 <= i < j < |b| ensures b[i].0 != b[j].0 {
      if b[i].0 == b[j].0 {
        assert b[i] in multiset(b) && b[j] in multiset(b);
        assert b[i] == b[j];
        assert b == b[..i] + [b[i]] + b[i + 1..j] + [b[j]] + b[j + 1..];
        assert multiset(b)[b[i]] >= 2;
        AtMostOnce(a, b[i]);
        assert false;
      }
    }
  }

  lemma {:induction false} AtMostOnce(a: seq<(string, nat)>, x: (string, nat))
    requires forall i, j :: 0 <= i < j < |a| ==> a[i].0 != a[j].0
    ensures multiset(a)[x] <= 1
  {
    if a != [] {
      AtMostOnce(a[1..], x);
      assert a == [a[0]] + a[1..];
      assert a[0] !in a[1..];
    }
  }

  /** Higher counts first, then by code. */
  predicate MoreFrequent(a: (string, nat), b: (string, nat)) {
    a.1 > b.1 || (a.1 == b.1 && Leq(a.0, b.0))
  }

  lemma MoreFrequentIsPreorder()
    ensures TotalPreorder(MoreFrequent)
  {
    forall a, b ensures MoreFrequent(a, b) || MoreFrequent(b, a) {
      LeqTotal(a.0, b.0);
    }
    forall a, b, c | MoreFrequent(a, b) && MoreFrequent(b, c) ensures MoreFrequent(a, c) {
      if a.1 == b.1 == c.1 {
        LeqTransitive(a.0, b.0, c.0);
      }
    }
  }

  function Codes(alarms: seq<AlarmRecord>): seq<string> {
    seq(|alarms|, i requires 0 <= i < |alarms| => alarms[i].code)
  }

  function Levels(alarms: seq<AlarmRecord>): seq<string> {
    seq(|alarms|, i requires 0 <= i < |alarms| => CanonicalLevel(alarms[i]))
  }

  lemma {:induction false} CountLast(key: string, keys: seq<string>, last: string)
    ensures Count(key, keys + [last]) == Count(key, keys) + if last == key then 1 else 0
  {
    if keys == [] {
      assert [last][1..] == [];
    } else {
      CountLast(key, keys[1..], last);
      assert (keys + [last])[1..] == keys[1..] + [last];
    }
  }

  ghost predicate CountsOf(counts: map<string, nat>, keys: seq<string>) {
    && (forall k :: k in counts <==> k in keys)
    && (forall k :: k in counts ==> counts[k] == Count(k, keys) > 0)
  }

  lemma CountOneMore(counts: map<string, nat>, keys: seq<string>, key: string)
    requires CountsOf(counts, keys)
    ensures CountsOf(counts[key := (if key in counts then counts[key] else 0) + 1], keys + [key])
  {
    forall k ensures Count(k, keys + [key]) == Count(k, keys) + if key == k then 1 else 0 {
      CountLast(k, keys, key);
    }
    if key !in counts {
      AbsentCount(key, keys);
    }
  }

  /** Count occurrences in a map, as the analysis loop does, and list the map's entries. */
  method Tally(keys: seq<string>) returns (pairs: seq<(string, nat)>)
    ensures IsTally(pairs, keys)
  {
    var counts: map<string, nat> := map[];
    for i := 0 to |keys|
      invariant CountsOf(counts, keys[..i])
    {
      CountOneMore(counts, keys[..i], keys[i]);
      assert keys[..i + 1] == keys[..i] + [keys[i]];
      counts := counts[keys[i] := (if keys[i] in counts then counts[keys[i]] else 0) + 1];
    }
    assert keys[..|keys|] == keys;
    pairs := Entries(counts);
  }

  method Entries(counts: map<string, nat>) returns (pairs: seq<(string, nat)>)
    ensures forall i :: 0 <= i < |pairs| ==> pairs[i].0 in counts && pairs[i].1 == counts[pairs[i].0]
    ensures forall i, j :: 0 <= i < j < |pairs| ==> pairs[i].0 != pairs[j].0
    ensures forall k :: k in counts ==> exists i :: 0 <= i < |pairs| && pairs[i].0 == k
  {
    pairs := [];
    var left := counts.Keys;
    while left != {}
      invariant left <= counts.Keys
      invariant forall i :: 0 <= i < |pairs| ==>
                pairs[i].0 in counts && pairs[i].1 == counts[pairs[i].0] && pairs[i].0 !in left
      invariant forall i, j :: 0 <= i < j < |pairs| ==> pairs[i].0 != pairs[j].0
      invariant forall k :: k in counts && k !in left ==> exists i :: 0 <= i < |pairs| && pairs[i].0 == k
      decreases |left|
    {
      var key :| key in left;
      ghost var before := pairs;
      pairs := pairs + [(key, counts[key])];
      left := left - {key};
      forall k | k in counts && k !in left ensures exists i :: 0 <= i < |pairs| && pairs[i].0 == k {
        if k == key {
          assert pairs[|before|].0 == k;
        } else {
          var i :| 0 <= i < |before| && before[i].0 == k;
          assert pairs[i].0 == k;
        }
      }
    }
  }

  lemma {:induction false} AbsentCount(key: string, keys: seq<string>)
    requires key !in keys
    ensures Count(key, keys) == 0
  {
    if keys != [] {
      AbsentCount(key, keys[1..]);
    }
  }

  class AlarmStore {
    const path: string
    var lines: seq<Line>

    ghost predicate Valid()
      reads this
    {
      path == "" ==> lines == []
    }

    /** A store on a file that already holds these lines; without a path there is no file. */
    constructor (path: string, existing: seq<Line>)
      ensures Valid() && this.path == path && lines == if path == "" then [] else existing
    {
      this.path := path;
      lines := if path == "" then [] else existing;
    }

    /** Append one record; `written` is the backend's answer. */
    method Append(alarm: AlarmRecord, now: string, written: bool) returns (ok: bool)
      requires Valid()
      modifies this
      ensures Valid() && ok == (path != "" && written)
      ensures lines == if ok then old(lines) + [Document(Encode(Normalise(alarm, now)))] else old(lines)
      ensures ok && alarm.deviceId != "" && Timestamps.ValidShape(Normalise(alarm, now).timestamp) ==>
                multiset(Loaded(lines)) ==
                  multiset(old(Loaded(lines))) + multiset{Decode(Encode(Normalise(alarm, now)))}
    {
      if path == "" {
        return false;
      }
      var record := NormaliseRecord(alarm, now);
      AppendAddsOne(lines, alarm, now);
      RoundTrip(record);
      if written {
        lines := lines + [Document(Encode(record))];
      }
      ok := written;
    }

    /** Append the record of an acknowledgement; the wall clock is read once for its id and once for its time. */
    method Acknowledge(alarmId: string, deviceId: string, user: string, message: string, idClock: string,
                       clock: string, written: bool)
      returns (ok: bool)
      requires Valid() && clock != ""
      modifies this
      ensures Valid() && ok == (path != "" && written)
      ensures lines == if ok then old(lines) +
                [Document(Encode(AckRecord(alarmId, deviceId, user, message, idClock, clock)))] else old(lines)
    {
      var record := AlarmRecord((if alarmId == "" then deviceId else alarmId) + ":ACK:" + idClock, clock, deviceId,
                                "INFO", "INFO", "ALARM_ACKNOWLEDGED",
                                if message == "" then "alarm acknowledged by " + user else message, "acknowledged",
                                "mcp_tool", alarmId, None, None, true);
      AckIsNormal(record, clock);
      ok := Append(record, clock, written);
    }

    method NormaliseRecord(alarm: AlarmRecord, now: string) returns (record: AlarmRecord)
      ensures record == Normalise(alarm, now)
    {
      record := alarm;
      if record.timestamp == "" {
        record := record.(timestamp := now);
      }
      if record.level == "" {
        record := record.(level := record.severity);
      }
      if record.severity == "" {
        record := record.(severity := record.level);
      }
      if record.source == "" {
        record := record.(source := "device_state_cache");
      }
      if record.state == "" {
        record := record.(state := "active");
      }
      if record.alarmId == "" {
        record := record.(alarmId := record.deviceId + ":" + record.code + ":" + record.timestamp);
      }
    }

    method LoadAll() returns (alarms: seq<AlarmRecord>, invalid: nat)
      requires Valid()
      ensures path == "" ==> alarms == []
      ensures multiset(alarms) == multiset(Loaded(lines)) && SortedBy(Earlier, alarms)
      ensures invalid == InvalidCount(lines)
      ensures |alarms| + invalid == NonBlank(lines)
    {
      alarms, invalid := [], 0;
      if path == "" {
        return;
      }
      for i := 0 to |lines|
        invariant alarms == Loaded(lines[..i]) && invalid == InvalidCount(lines[..i])
      {
        assert lines[..i + 1][..i] == lines[..i];
        match lines[i]
        case Blank =>
        case Garbage =>
          invalid := invalid + 1;
        case Document(json) =>
          var alarm := Decode(json);
          if Keeps(alarm) {
            alarms := alarms + [alarm];
          } else {
            invalid := invalid + 1;
          }
      }
      assert lines[..|lines|] == lines;
      LoadConserves(lines);
      EarlierIsPreorder();
      ghost var unsorted := alarms;
      alarms := Sort(alarms, Earlier);
      assert |multiset(alarms)| == |multiset(unsorted)|;
    }

    method Query(q: AlarmQuery) returns (result: seq<AlarmRecord>)
      requires Valid()
      ensures NewestMatches(q, Loaded(lines), result)
    {
      var alarms, _ := LoadAll();
      result := Scan(q, alarms);
      NewestOfPermutation(q, alarms, Loaded(lines), result);
    }

    /** Counts by level and by code, the ranking of codes, and the timeline from oldest to newest. */
    method Analyze(q: AlarmQuery) returns (a: Analysis)
      requires Valid()
      ensures NewestMatches(q, Loaded(lines), a.alarms)
      ensures a.total == |a.alarms| && a.invalid == InvalidCount(lines)
      ensures Counted(a) && AreExtremes(a.alarms, a.latest, a.first)
      ensures |a.timeline| == a.total
      ensures forall i :: 0 <= i < a.total ==> a.timeline[i] == Brief(a.alarms[a.total - 1 - i])
    {
      var _, invalid := LoadAll();
      var alarms := Query(q);
      LatestComeFirst(q, Loaded(lines), alarms);
      a := Summarise(alarms, invalid);
    }
  }

  predicate LatestFirst(alarms: seq<AlarmRecord>) {
    forall i, j :: 0 <= i < j < |alarms| ==> Earlier(alarms[j], alarms[i])
  }

  lemma LatestComeFirst(q: AlarmQuery, all: seq<AlarmRecord>, result: seq<AlarmRecord>)
    requires NewestMatches(q, all, result)
    ensures LatestFirst(result)
  {
  }

  /** The counts by level and by code hold each key once with its number of occurrences, add up to the total, and the
      codes come most frequent first. */
  ghost predicate Counted(a: Analysis) {
    && IsTally(a.byLevel, Levels(a.alarms)) && SumPairs(a.byLevel) == a.total
    && IsTally(a.frequent, Codes(a.alarms)) && SumPairs(a.frequent) == a.total
    && SortedBy(MoreFrequent, a.frequent)
  }

  method Summarise(alarms: seq<AlarmRecord>, invalid: nat) returns (a: Analysis)
    requires LatestFirst(alarms)
    ensures a.alarms == alarms && a.total == |alarms| && a.invalid == invalid
    ensures Counted(a) && AreExtremes(alarms, a.latest, a.first)
    ensures |a.timeline| == |alarms|
    ensures forall i :: 0 <= i < |alarms| ==> a.timeline[i] == Brief(alarms[|alarms| - 1 - i])
  {
    var byLevel := CountAll(Levels(alarms));
    var frequent := Ranking(Codes(alarms));
    var timeline := Timeline(alarms);
    var latest, first := Extremes(alarms);
    a := Analysis(alarms, |alarms|, invalid, byLevel, frequent, timeline, latest, first);
  }

  /** The tally of the keys. */
  method CountAll(keys: seq<string>) returns (tally: seq<(string, nat)>)
    ensures IsTally(tally, keys) && SumPairs(tally) == |keys|
  {
    tally := Tally(keys);
    TallySums(tally, keys);
  }

  /** The tally of the keys, most frequent first. */
  method Ranking(keys: seq<string>) returns (tally: seq<(string, nat)>)
    ensures IsTally(tally, keys) && SumPairs(tally) == |keys| && SortedBy(MoreFrequent, tally)
  {
    var unsorted := Tally(keys);
    MoreFrequentIsPreorder();
    tally := Sort(unsorted, MoreFrequent);
    TallyPermutes(unsorted, tally, keys);
    TallySums(tally, keys);
  }

  /** A newest and an oldest record, if there is any. */
  ghost predicate AreExtremes(alarms: seq<AlarmRecord>, latest: Option<AlarmRecord>, first: Option<AlarmRecord>) {
    if alarms == [] then latest.None? && first.None?
    else
      && latest.Some? && first.Some? && latest.value in alarms && first.value in alarms
      && forall a :: a in alarms ==> Earlier(first.value, a) && Earlier(a, latest.value)
  }

  method Extremes(alarms: seq<AlarmRecord>) returns (latest: Option<AlarmRecord>, first: Option<AlarmRecord>)
    requires LatestFirst(alarms)
    ensures AreExtremes(alarms, latest, first)
  {
    if alarms == [] {
      return None, None;
    }
    var n := |alarms| - 1;
    LeqTotal(alarms[0].timestamp, alarms[0].timestamp);
    LeqTotal(alarms[n].timestamp, alarms[n].timestamp);
    return Some(alarms[0]), Some(alarms[n]);
  }

  /** The records in reverse, from oldest to newest. */
  method Timeline(alarms: seq<AlarmRecord>) returns (timeline: seq<(string, string, string)>)
    ensures |timeline| == |alarms|
    ensures forall i :: 0 <= i < |alarms| ==> timeline[i] == Brief(alarms[|alarms| - 1 - i])
  {
    timeline := [];
    var i := |alarms|;
    while i > 0
      invariant 0 <= i <= |alarms| && |timeline| == |alarms| - i
      invariant forall k :: 0 <= k < |timeline| ==> timeline[k] == Brief(alarms[|alarms| - 1 - k])
    {
      i := i - 1;
      timeline := timeline + [Brief(alarms[i])];
    }
  }

  /** Read backwards, a newest-first result is in chronological string order. */
  lemma TimelineAscends(alarms: seq<AlarmRecord>, timeline: seq<(string, string, string)>)
    requires LatestFirst(alarms)
    requires |timeline| == |alarms|
    requires forall i :: 0 <= i < |alarms| ==> timeline[i] == Brief(alarms[|alarms| - 1 - i])
    ensures forall i, j :: 0 <= i < j < |timeline| ==> Leq(timeline[i].0, timeline[j].0)
  {
    forall i, j | 0 <= i < j < |timeline| ensures Leq(timeline[i].0, timeline[j].0) {
      assert Earlier(alarms[|alarms| - 1 - i], alarms[|alarms| - 1 - j]);
    }
  }

  /** Walk the sorted records from the newest backwards until the limit is reached. */
  method Scan(q: AlarmQuery, alarms: seq<AlarmRecord>) returns (result: seq<AlarmRecord>)
    requires SortedBy(Earlier, alarms)
    ensures NewestMatches(q, alarms, result)
  {
    result := [];
    var i := |alarms|;
    while i > 0
      invariant 0 <= i <= |alarms|
      invariant Scanned(q, alarms, i, result)
      invariant |result| < q.limit || result == []
    {
      i := i - 1;
      ScanStep(q, alarms, i, result);
      if Matches(q, alarms[i]) {
        result := result + [alarms[i]];
        if |result| >= q.limit {
          break;
        }
      }
    }
    NewestAreReturned(q, alarms, i, result);
  }

  lemma NewestOfPermutation(q: AlarmQuery, a: seq<AlarmRecord>, b: seq<AlarmRecord>, result: seq<AlarmRecord>)
    requires multiset(a) == multiset(b) && NewestMatches(q, a, result)
    ensures NewestMatches(q, b, result)
  {
    KeepPermutes(Matcher(q), a, b);
  }

  /** Timeline entry: timestamp, code, level. */
  function Brief(a: AlarmRecord): (string, string, string) {
    (a.timestamp, a.code, CanonicalLevel(a))
  }

  /** The time bounds of the query are open or well formed. */
  predicate ClearBounds(q: AlarmQuery) {
    && (q.startTime == "" || Timestamps.WellFormed(q.startTime))
    && (q.endTime == "" || Timestamps.WellFormed(q.endTime))
  }

  /** Matches every filter of the query but its time window, and lies in the closed interval, which may be open
      at either end. */
  ghost predicate InWindow(q: AlarmQuery, a: AlarmRecord)
    requires Timestamps.WellFormed(a.timestamp) && ClearBounds(q)
  {
    && Matches(q.(startTime := "", endTime := ""), a)
    && (q.startTime != "" ==> Timestamps.Instant(q.startTime) <= Timestamps.Instant(a.timestamp))
    && (q.endTime != "" ==> Timestamps.Instant(a.timestamp) <= Timestamps.Instant(q.endTime))
  }

  lemma WindowIsMatch(q: AlarmQuery, a: AlarmRecord)
    requires Timestamps.WellFormed(a.timestamp) && ClearBounds(q)
    ensures InWindow(q, a) <==> Matches(q, a)
  {
    Timestamps.InRangeIsInterval(a.timestamp, q.startTime, q.endTime);
  }

  lemma ReturnedMatches(q: AlarmQuery, all: seq<AlarmRecord>, result: seq<AlarmRecord>, i: nat)
    requires NewestMatches(q, all, result) && i < |result|
    ensures result[i] in all && Matches(q, result[i])
  {
    assert result[i] in multiset(result);
    KeepCounts(Matcher(q), all, result[i]);
  }

  /** When all timestamps are well formed, a query with a time window returns, latest instant first,
      records of the closed interval, and leaves one out only when the limit is used up by later ones. */
  lemma QueryIsChronological(q: AlarmQuery, all: seq<AlarmRecord>, result: seq<AlarmRecord>)
    requires NewestMatches(q, all, result)
    requires forall a :: a in all ==> Timestamps.WellFormed(a.timestamp)
    requires ClearBounds(q)
    ensures forall i :: 0 <= i < |result| ==> result[i] in all
    ensures forall i :: 0 <= i < |result| ==> InWindow(q, result[i])
    ensures forall i, j :: 0 <= i < j < |result| ==>
              Timestamps.Instant(result[j].timestamp) <= Timestamps.Instant(result[i].timestamp)
    ensures forall a :: a in all && a !in result && InWindow(q, a) ==> |result| >= q.limit
    ensures forall a, i :: a in all && a !in result && InWindow(q, a) && 0 <= i < |result| ==>
              Timestamps.Instant(a.timestamp) <= Timestamps.Instant(result[i].timestamp)
  {
    forall i | 0 <= i < |result|
      ensures result[i] in all && InWindow(q, result[i])
    {
      ReturnedMatches(q, all, result, i);
      WindowIsMatch(q, result[i]);
    }
    forall i, j | 0 <= i < j < |result|
      ensures Timestamps.Instant(result[j].timestamp) <= Timestamps.Instant(result[i].timestamp)
    {
      assert Earlier(result[j], result[i]);
      Timestamps.StringOrderIsChronological(result[i].timestamp, result[j].timestamp);
    }
    forall a | a in all && a !in result && InWindow(q, a)
      ensures |result| >= q.limit
      ensures forall i :: 0 <= i < |result| ==>
              Timestamps.Instant(a.timestamp) <= Timestamps.Instant(result[i].timestamp)
    {
      WindowIsMatch(q, a);
      OmittedIsOlder(q, all, result, a);
      forall i | 0 <= i < |result| ensures Timestamps.Instant(a.timestamp) <= Timestamps.Instant(result[i].timestamp) {
        Timestamps.StringOrderIsChronological(result[i].timestamp, a.timestamp);
      }
    }
  }

  lemma OmittedIsOlder(q: AlarmQuery, all: seq<AlarmRecord>, result: seq<AlarmRecord>, a: AlarmRecord)
    requires NewestMatches(q, all, result) && a in all && a !in result && Matches(q, a)
    ensures |result| >= q.limit
    ensures forall i :: 0 <= i < |result| ==> Earlier(a, result[i])
  {
    KeepCounts(Matcher(q), all, a);
    assert a in multiset(all);
    assert a !in multiset(result);
    var matching := Filter(q, all);
    assert a in multiset(matching) - multiset(result);
    if |result| == |matching| {
      assert |multiset(result)| == |result| && |multiset(matching)| == |matching|;
      SubmultisetOfSameSize(multiset(result), multiset(matching));
    }
  }

  lemma SubmultisetOfSameSize(a: multiset<AlarmRecord>, b: multiset<AlarmRecord>)
    requires a <= b && |a| == |b|
    ensures a == b
  {
    assert b == a + (b - a);
    assert |b| == |a| + |b - a|;
  }

  /** `result` is newest first and nothing before position i is newer than it. */
  ghost predicate NewestFirst(alarms: seq<AlarmRecord>, i: nat, result: seq<AlarmRecord>)
    requires i <= |alarms|
  {
    && (forall k, j :: 0 <= k < |result| && 0 <= j < i ==> Earlier(alarms[j], result[k]))
    && (forall k, j :: 0 <= k < j < |result| ==> Earlier(result[j], result[k]))
  }

  /** `result` holds the matches of alarms[i..], newest first. */
  ghost predicate Scanned(q: AlarmQuery, alarms: seq<AlarmRecord>, i: nat, result: seq<AlarmRecord>)
    requires i <= |alarms|
  {
    && multiset(result) == multiset(Filter(q, alarms[i..]))
    && |result| == |Filter(q, alarms[i..])|
    && NewestFirst(alarms, i, result)
  }

  lemma ExtendNewestFirst(alarms: seq<AlarmRecord>, i: nat, result: seq<AlarmRecord>)
    requires i < |alarms| && SortedBy(Earlier, alarms) && NewestFirst(alarms, i + 1, result)
    ensures NewestFirst(alarms, i, result + [alarms[i]]) && NewestFirst(alarms, i, result)
  {
    forall j | 0 <= j < i ensures Earlier(alarms[j], alarms[i]) {
    }
  }

  lemma ScanStep(q: AlarmQuery, alarms: seq<AlarmRecord>, i: nat, result: seq<AlarmRecord>)
    requires i < |alarms| && SortedBy(Earlier, alarms) && Scanned(q, alarms, i + 1, result)
    ensures Scanned(q, alarms, i, if Matches(q, alarms[i]) then result + [alarms[i]] else result)
  {
    ExtendNewestFirst(alarms, i, result);
    assert alarms[i..] == [alarms[i]] + alarms[i + 1..];
    KeepConcat(Matcher(q), [alarms[i]], alarms[i + 1..]);
    assert [alarms[i]][1..] == [];
  }

  lemma NewestAreReturned(q: AlarmQuery, alarms: seq<AlarmRecord>, i: nat, result: seq<AlarmRecord>)
    requires i <= |alarms| && Scanned(q, alarms, i, result)
    requires i > 0 ==> |result| == if q.limit == 0 then 1 else q.limit
    requires |result| <= q.limit || |result| == 1
    requires q.limit == 0 && i == 0 ==> |result| <= 1
    ensures NewestMatches(q, alarms, result)
  {
    assert alarms == alarms[..i] + alarms[i..];
    KeepConcat(Matcher(q), alarms[..i], alarms[i..]);
    var omitted := Filter(q, alarms[..i]);
    assert multiset(Filter(q, alarms)) - multiset(result) == multiset(omitted);
    forall a, k | a in multiset(omitted) && 0 <= k < |result| ensures Earlier(a, result[k]) {
      KeepCounts(Matcher(q), alarms[..i], a);
      assert a in multiset(alarms[..i]);
      assert a in alarms[..i];
      var j :| 0 <= j < i && alarms[j] == a;
    }
  }
}
