/** What a query and an analysis answer, told from the fields of the records alone. */
module Queries {
  import opened AlarmStore
  import opened Config
  import opened Lexicographic
  import opened Sorting
  import Timestamps

  predicate SameLetter(a: char, b: char) {
    || a == b
    || ('A' <= a <= 'Z' && b as int == a as int + 32)
    || ('A' <= b <= 'Z' && a as int == b as int + 32)
  }

  /** Equal up to the case of ASCII letters. */
  predicate SameText(a: string, b: string) {
    |a| == |b| && forall i :: 0 <= i < |a| ==> SameLetter(a[i], b[i])
  }

  /** The word stands somewhere in the text, in any mixture of cases. */
  predicate Holds(text: string, word: string) {
    exists i :: 0 <= i <= |text| && StandsAt(text, i, word)
  }

  predicate StandsAt(text: string, i: nat, word: string) {
    i + |word| <= |text| && SameText(text[i..i + |word|], word)
  }

  predicate BeginsAt(text: string, i: nat, word: string) {
    i + |word| <= |text| && text[i..i + |word|] == word
  }

  function LevelText(a: AlarmRecord): string {
    if a.level != "" then a.level else a.severity
  }

  /** The record is one that the query asks for. */
  predicate Wanted(q: AlarmQuery, a: AlarmRecord) {
    && (q.deviceId != "" ==> a.deviceId == q.deviceId)
    && (q.level != "" ==> SameText(LevelText(a), q.level))
    && (q.level == "" && q.severity != "" ==> SameText(LevelText(a), q.severity))
    && (q.startTime != "" ==> !Less(a.timestamp, q.startTime))
    && (q.endTime != "" ==> !Less(q.endTime, a.timestamp))
    && (q.keyword != "" ==> Holds(a.message + " " + a.code + " " + a.sourceNode, q.keyword))
  }

  lemma {:induction false} LowerAt(s: string, i: nat)
    requires i < |s|
    ensures Lower(s)[i] == LowerChar(s[i])
  {
    if i > 0 {
      LowerAt(s[1..], i - 1);
    }
  }

  lemma LettersLower(a: char, b: char)
    ensures LowerChar(a) == LowerChar(b) <==> SameLetter(a, b)
  {
  }

  lemma SameTextExactly(a: string, b: string)
    ensures Lower(a) == Lower(b) <==> SameText(a, b)
  {
    if |a| == |b| {
      forall i: nat | i < |a| ensures Lower(a)[i] == Lower(b)[i] <==> SameLetter(a[i], b[i]) {
        LowerAt(a, i);
        LowerAt(b, i);
        LettersLower(a[i], b[i]);
      }
    }
  }

  lemma {:induction false} ContainsAt(haystack: string, needle: string)
    ensures Contains(haystack, needle) <==> exists i :: 0 <= i <= |haystack| && BeginsAt(haystack, i, needle)
  {
    if needle <= haystack {
      assert BeginsAt(haystack, 0, needle);
    } else if haystack != [] {
      var rest := haystack[1..];
      ContainsAt(rest, needle);
      if i :| 0 <= i <= |rest| && BeginsAt(rest, i, needle) {
        assert BeginsAt(haystack, i + 1, needle);
      }
      if i :| 0 <= i <= |haystack| && BeginsAt(haystack, i, needle) {
        NotAtStart(haystack, i, needle);
        assert BeginsAt(rest, i - 1, needle);
      }
    }
  }

  lemma NotAtStart(haystack: string, i: nat, needle: string)
    requires BeginsAt(haystack, i, needle) && !(needle <= haystack)
    ensures i > 0 && haystack[1..][i - 1..i - 1 + |needle|] == needle
  {
  }

  lemma LowerIs(s: string, lowered: string)
    requires |lowered| == |s| && forall k :: 0 <= k < |s| ==> lowered[k] == LowerChar(s[k])
    ensures lowered == Lower(s)
  {
    forall k: nat | k < |s| ensures lowered[k] == Lower(s)[k] {
      LowerAt(s, k);
    }
  }

  lemma LowerPiece(s: string, i: nat, piece: string)
    requires i + |piece| <= |s| && s[i..i + |piece|] == piece
    ensures Lower(s)[i..i + |piece|] == Lower(piece)
  {
    var part := Lower(s)[i..i + |piece|];
    forall k: nat | k < |piece| ensures part[k] == LowerChar(piece[k]) {
      LowerAt(s, i + k);
    }
    LowerIs(piece, part);
  }

  lemma StandsWhereItBegins(text: string, i: nat, word: string)
    ensures BeginsAt(Lower(text), i, Lower(word)) <==> StandsAt(text, i, word)
  {
    if i + |word| <= |text| {
      LowerPiece(text, i, text[i..i + |word|]);
      SameTextExactly(text[i..i + |word|], word);
    }
  }

  lemma HoldsExactly(text: string, word: string)
    ensures Contains(Lower(text), Lower(word)) <==> Holds(text, word)
  {
    ContainsAt(Lower(text), Lower(word));
    if i :| 0 <= i <= |text| && BeginsAt(Lower(text), i, Lower(word)) {
      StandsWhereItBegins(text, i, word);
    }
    if i :| 0 <= i <= |text| && StandsAt(text, i, word) {
      StandsWhereItBegins(text, i, word);
    }
  }

  /** The filters of a query keep exactly the records it asks for. */
  lemma MatchesExactly(q: AlarmQuery, a: AlarmRecord)
    ensures Matches(q, a) <==> Wanted(q, a)
  {
    SameTextExactly(LevelText(a), q.level);
    SameTextExactly(LevelText(a), q.severity);
    HoldsExactly(a.message + " " + a.code + " " + a.sourceNode, q.keyword);
  }

  /** Every returned record is stored and asked for, latest first; one that is asked for is left out only when the
      limit is used up by records no older than it. */
  ghost predicate Answers(q: AlarmQuery, all: seq<AlarmRecord>, result: seq<AlarmRecord>) {
    && multiset(result) <= multiset(all)
    && (forall i :: 0 <= i < |result| ==> Wanted(q, result[i]))
    && (forall i, j :: 0 <= i < j < |result| ==> !Less(result[i].timestamp, result[j].timestamp))
    && |result| <= (if q.limit == 0 then 1 else q.limit)
    && forall a | Wanted(q, a) && multiset(result)[a] < multiset(all)[a] ::
         result != [] && |result| >= q.limit && forall i :: 0 <= i < |result| ==>
           !Less(result[i].timestamp, a.timestamp)
  }

  lemma LeqIsNotLess(a: string, b: string)
    ensures Leq(a, b) ==> !Less(b, a)
  {
    Trichotomy(a, b);
  }

  lemma OmittedIsOlder(q: AlarmQuery, all: seq<AlarmRecord>, result: seq<AlarmRecord>, a: AlarmRecord)
    requires NewestMatches(q, all, result) && Wanted(q, a) && multiset(result)[a] < multiset(all)[a]
    ensures result != [] && |result| >= q.limit
    ensures forall i :: 0 <= i < |result| ==> !Less(result[i].timestamp, a.timestamp)
  {
    var matching := Filter(q, all);
    MatchesExactly(q, a);
    KeepCounts(Matcher(q), all, a);
    assert multiset(matching)[a] == multiset(all)[a];
    assert a in multiset(matching) - multiset(result);
    if |matching| <= q.limit {
      SameSize(matching, result);
    }
    forall i | 0 <= i < |result| ensures !Less(result[i].timestamp, a.timestamp) {
      assert Earlier(a, result[i]);
      LeqIsNotLess(a.timestamp, result[i].timestamp);
    }
  }

  lemma SameSize(matching: seq<AlarmRecord>, result: seq<AlarmRecord>)
    requires multiset(result) <= multiset(matching) && |result| == |matching|
    ensures multiset(result) == multiset(matching)
  {
    var left := multiset(matching) - multiset(result);
    assert |left| == |multiset(matching)| - |multiset(result)| == 0;
    assert multiset(matching) == multiset(result) + left;
  }

  lemma ReturnedIsWanted(q: AlarmQuery, all: seq<AlarmRecord>, result: seq<AlarmRecord>, i: nat)
    requires NewestMatches(q, all, result) && i < |result|
    ensures Wanted(q, result[i]) && multiset(result)[result[i]] <= multiset(all)[result[i]]
  {
    var a := result[i];
    assert a in multiset(result);
    assert multiset(result)[a] <= multiset(Filter(q, all))[a];
    KeepCounts(Matcher(q), all, a);
    MatchesExactly(q, a);
  }

  /** What every query of the store answers. */
  lemma QueryAnswers(q: AlarmQuery, all: seq<AlarmRecord>, result: seq<AlarmRecord>)
    requires NewestMatches(q, all, result)
    ensures Answers(q, all, result)
  {
    forall a ensures multiset(result)[a] <= multiset(all)[a] {
      if a in multiset(result) {
        var i :| 0 <= i < |result| && result[i] == a;
        ReturnedIsWanted(q, all, result, i);
      }
    }
    forall i | 0 <= i < |result| ensures Wanted(q, result[i]) {
      ReturnedIsWanted(q, all, result, i);
    }
    forall i, j | 0 <= i < j < |result| ensures !Less(result[i].timestamp, result[j].timestamp) {
      assert Earlier(result[j], result[i]);
      LeqIsNotLess(result[j].timestamp, result[i].timestamp);
    }
    forall a | Wanted(q, a) && multiset(result)[a] < multiset(all)[a]
      ensures result != [] && |result| >= q.limit &&
              forall i :: 0 <= i < |result| ==> !Less(result[i].timestamp, a.timestamp)
    {
      OmittedIsOlder(q, all, result, a);
    }
  }

  /** A store's query, in these terms. */
  method Ask(store: AlarmStore, q: AlarmQuery) returns (result: seq<AlarmRecord>)
    requires store.Valid()
    ensures Answers(q, Loaded(store.lines), result)
  {
    result := store.Query(q);
    QueryAnswers(q, Loaded(store.lines), result);
  }

  /** The positions at which a key stands. */
  function Positions(key: string, keys: seq<string>): set<nat> {
    set i: nat | i < |keys| && keys[i] == key
  }

  lemma {:induction false} CountIsPositions(key: string, keys: seq<string>)
    ensures Count(key, keys) == |Positions(key, keys)|
  {
    if keys != [] {
      var last, before := keys[|keys| - 1], keys[..|keys| - 1];
      assert keys == before + [last];
      CountIsPositions(key, before);
      CountLast(key, before, last);
      assert Positions(key, keys) == Positions(key, before) + if last == key then {|keys| - 1} else {};
    } else {
      assert Positions(key, keys) == {};
    }
  }

  /** The records of this level, and those of this code, by position. */
  function AtLevel(alarms: seq<AlarmRecord>, level: string): set<nat> {
    set i: nat | i < |alarms| && LevelText(alarms[i]) == level
  }

  function OfCode(alarms: seq<AlarmRecord>, code: string): set<nat> {
    set i: nat | i < |alarms| && alarms[i].code == code
  }

  /** The numbers of an analysis: for each level and each code that occurs, how many of its records have it, codes by
      falling count and then by name; and its timeline, each record's time, code and level from the oldest on. */
  lemma AnalysisTells(a: Analysis)
    requires Counted(a) && |a.timeline| == a.total == |a.alarms|
    requires forall i :: 0 <= i < a.total ==> a.timeline[i] == Brief(a.alarms[a.total - 1 - i])
    ensures forall i :: 0 <= i < |a.byLevel| ==> a.byLevel[i].1 == |AtLevel(a.alarms, a.byLevel[i].0)| > 0
    ensures forall i :: 0 <= i < |a.frequent| ==> a.frequent[i].1 == |OfCode(a.alarms, a.frequent[i].0)| > 0
    ensures forall k: nat :: k < |a.alarms| ==>
              && (exists i :: 0 <= i < |a.byLevel| && a.byLevel[i].0 == LevelText(a.alarms[k]))
              && (exists i :: 0 <= i < |a.frequent| && a.frequent[i].0 == a.alarms[k].code)
    ensures forall i, j :: 0 <= i < j < |a.frequent| ==>
              a.frequent[i].1 > a.frequent[j].1 ||
              (a.frequent[i].1 == a.frequent[j].1 && !Less(a.frequent[j].0, a.frequent[i].0))
    ensures forall i :: 0 <= i < a.total ==> var r := a.alarms[a.total - 1 - i];
              a.timeline[i] == (r.timestamp, r.code, LevelText(r))
  {
    forall i | 0 <= i < |a.byLevel| ensures a.byLevel[i].1 == |AtLevel(a.alarms, a.byLevel[i].0)| > 0 {
      CountIsPositions(a.byLevel[i].0, Levels(a.alarms));
      assert AtLevel(a.alarms, a.byLevel[i].0) == Positions(a.byLevel[i].0, Levels(a.alarms));
    }
    forall i | 0 <= i < |a.frequent| ensures a.frequent[i].1 == |OfCode(a.alarms, a.frequent[i].0)| > 0 {
      CountIsPositions(a.frequent[i].0, Codes(a.alarms));
      assert OfCode(a.alarms, a.frequent[i].0) == Positions(a.frequent[i].0, Codes(a.alarms));
    }
    forall k: nat | k < |a.alarms|
      ensures exists i :: 0 <= i < |a.byLevel| && a.byLevel[i].0 == LevelText(a.alarms[k])
      ensures exists i :: 0 <= i < |a.frequent| && a.frequent[i].0 == a.alarms[k].code
    {
      assert Levels(a.alarms)[k] in Levels(a.alarms) && Codes(a.alarms)[k] in Codes(a.alarms);
    }
    forall i, j | 0 <= i < j < |a.frequent|
      ensures a.frequent[i].1 > a.frequent[j].1 ||
              (a.frequent[i].1 == a.frequent[j].1 && !Less(a.frequent[j].0, a.frequent[i].0))
    {
      assert MoreFrequent(a.frequent[i], a.frequent[j]);
      LeqIsNotLess(a.frequent[i].0, a.frequent[j].0);
    }
  }

  /** The line is an object that names a device and has a time of the right shape, both as texts. */
  predicate Complete(line: Line) {
    && line.Document? && line.json.Object?
    && line.json.deviceId.Some? && line.json.deviceId.value.Text? && |line.json.deviceId.value.s| > 0
    && line.json.timestamp.Some? && line.json.timestamp.value.Text?
    && var time := line.json.timestamp.value.s;
    && |time| >= 20 && time[4] == time[7] == '-' && time[10] == 'T' && time[13] == time[16] == ':' && time[19] == 'Z'
  }

  /** Exactly the complete lines are loaded, with their own texts and numbers; every other line that is not blank is
      invalid. */
  lemma LineLoads(line: Line)
    ensures Complete(line) ==>
              && |Loaded([line])| == 1 && InvalidCount([line]) == 0
              && var r := Loaded([line])[0];
              && r.deviceId == line.json.deviceId.value.s && r.timestamp == line.json.timestamp.value.s
              && TextIs(line.json.alarmId, r.alarmId) && TextIs(line.json.code, r.code)
              && TextIs(line.json.message, r.message) && TextIs(line.json.state, r.state)
              && TextIs(line.json.source, r.source) && TextIs(line.json.sourceNode, r.sourceNode)
              && TextIs(if HasText(line.json.level) then line.json.level else line.json.severity, r.level)
              && TextIs(if HasText(line.json.severity) then line.json.severity else line.json.level, r.severity)
              && r.value == NumberIn(line.json.value) && r.threshold == NumberIn(line.json.threshold)
              && (r.acknowledged <==> line.json.acknowledged == Some(Boolean(true)))
    ensures !Complete(line) ==> Loaded([line]) == [] && InvalidCount([line]) == if line.Blank? then 0 else 1
  {
    assert [line][..0] == [];
  }

  predicate HasText(field: Option<Value>) {
    field.Some? && field.value.Text? && |field.value.s| > 0
  }

  /** A text field holds its text; one that is absent or of another kind is empty. */
  predicate TextIs(field: Option<Value>, text: string) {
    if HasText(field) then text == field.value.s else text == ""
  }

  function NumberIn(field: Option<Value>): Option<real> {
    match field
    case Some(Integer(i)) => Some(i as real)
    case Some(Real(r)) => Some(r)
    case _ => None
  }

  /** What an append fills in: only what is missing. */
  lemma FilledIn(a: AlarmRecord, now: string)
    ensures var r := Normalise(a, now);
            && r == a.(timestamp := r.timestamp, level := r.level, severity := r.severity, source := r.source,
                       state := r.state, alarmId := r.alarmId)
            && r.timestamp == (if a.timestamp != "" then a.timestamp else now)
            && r.level == (if a.level != "" then a.level else a.severity)
            && r.severity == (if a.severity != "" then a.severity else a.level)
            && (a.source != "" ==> r.source == a.source) && r.source != ""
            && (a.state != "" ==> r.state == a.state) && (a.state == "" ==> r.state == "active")
            && (a.alarmId != "" ==> r.alarmId == a.alarmId) && r.alarmId != ""
  {
  }

  /** What an acknowledgement records: who or what acknowledged which alarm of which device, and when. */
  lemma AckTells(alarmId: string, deviceId: string, user: string, message: string, idClock: string, clock: string)
    ensures var r := AckRecord(alarmId, deviceId, user, message, idClock, clock);
            && r.acknowledged && r.timestamp == clock && r.deviceId == deviceId && r.sourceNode == alarmId
            && r.level == r.severity == "INFO" && r.value == r.threshold == None
            && (message != "" ==> r.message == message)
            && (message == "" ==> |user| <= |r.message| && r.message[|r.message| - |user|..] == user)
            && (if alarmId != "" then alarmId else deviceId) <= r.alarmId &&
              idClock <= r.alarmId[|r.alarmId| - |idClock|..]
  {
    var text := "alarm acknowledged by ";
    assert (text + user)[|text + user| - |user|..] == user;
    var before := (if alarmId == "" then deviceId else alarmId) + ":ACK:";
    assert (before + idClock)[|before + idClock| - |idClock|..] == idClock;
  }
}
