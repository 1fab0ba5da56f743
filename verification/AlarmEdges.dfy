/** Duplicate suppression of alarms: the appended alarms are the edges of each key's observation stream. */
module AlarmEdges {
  import opened Config
  import opened DeviceState
  import opened Thresholds

  /** What one look at a key shows: nothing (the read was lost in a total failure), a normal state,
      or an abnormal one with its signature. */
  datatype Observation = Skip | Normal | Abnormal(signature: Signature)

  /** What the cache knows when it raises an alarm; the node is the variable's, or the device's endpoint. */
  datatype Alarm = Alarm(deviceId: string, signature: Signature, clock: string, cause: Cause, node: string,
                         value: Option<real>, threshold: Option<real>)

  /** What the message of an alarm is made of: the text of an error, or the variable and the printed numbers. */
  datatype Cause = Failure(text: string) | Limit(variable: string, value: string, threshold: string)

  datatype Event = Saw(key: string, observation: Observation, alarm: Alarm) | ClearAll

  /** One call of the alarm store's append. */
  datatype Attempted = Attempted(key: string, signature: Signature, alarm: Alarm)

  datatype Tracker = Tracker(active: map<string, Signature>, log: seq<Attempted>)

  function ActiveAt(active: map<string, Signature>, key: string): Option<Signature> {
    if key in active then Some(active[key]) else None
  }

  function Track(t: Tracker, e: Event): Tracker {
    match e
    case ClearAll => Tracker(map[], t.log)
    case Saw(_, Skip, _) => t
    case Saw(key, Normal, _) => Tracker(t.active - {key}, t.log)
    case Saw(key, Abnormal(signature), alarm) =>
      if ActiveAt(t.active, key) == Some(signature) then t
      else Tracker(t.active[key := signature], t.log + [Attempted(key, signature, alarm)])
  }

  function TrackAll(t: Tracker, events: seq<Event>): Tracker {
    if events == [] then t else Track(TrackAll(t, Init(events)), Last(events))
  }

  lemma TrackOne(t: Tracker, e: Event)
    ensures TrackAll(t, [e]) == Track(t, e)
  {
    assert Init([e]) == [];
  }

  lemma TrackStep(t: Tracker, events: seq<Event>, e: Event)
    ensures TrackAll(t, events + [e]) == Track(TrackAll(t, events), e)
  {
    assert Init(events + [e]) == events;
  }

  lemma {:induction false} TrackConcat(t: Tracker, a: seq<Event>, b: seq<Event>)
    ensures TrackAll(t, a + b) == TrackAll(TrackAll(t, a), b)
  {
    if b == [] {
      assert a + b == a;
    } else {
      TrackConcat(t, a, Init(b));
      assert Init(a + b) == a + Init(b);
    }
  }

  /** The observations of one key; clearing everything is a normal observation of every key. */
  function Stream(key: string, events: seq<Event>): seq<Observation> {
    if events == [] then [] else Stream(key, Init(events)) + Shown(key, Last(events))
  }

  function Shown(key: string, e: Event): (shown: seq<Observation>)
    ensures |shown| <= 1
  {
    match e
    case ClearAll => [Normal]
    case Saw(k, observation, _) => if k == key then [observation] else []
  }

  lemma StreamOfOne(key: string, events: seq<Event>, e: Event)
    ensures Stream(key, events + [e]) == Stream(key, events) + Shown(key, e)
  {
    assert Init(events + [e]) == events;
  }

  lemma Associate(a: seq<Observation>, b: seq<Observation>, c: seq<Observation>)
    ensures (a + b) + c == a + (b + c)
  {
  }

  lemma {:induction false} StreamConcat(key: string, a: seq<Event>, b: seq<Event>)
    ensures Stream(key, a + b) == Stream(key, a) + Stream(key, b)
  {
    if b == [] {
      assert a + b == a;
    } else {
      StreamConcat(key, a, Init(b));
      StreamOfOne(key, a + Init(b), Last(b));
      AppendByParts(a, b);
      Associate(Stream(key, a), Stream(key, Init(b)), Shown(key, Last(b)));
    }
  }

  /** The signatures appended for one key, in order. */
  function LogOf(key: string, log: seq<Attempted>): seq<Signature> {
    if log == [] then []
    else LogOf(key, Init(log)) + if Last(log).key == key then [Last(log).signature] else []
  }

  /** The latest observation that is not a skip; a key starts out normal. */
  function Standing(stream: seq<Observation>): Observation {
    if stream == [] then Normal
    else if Last(stream) != Skip then Last(stream)
    else Standing(Init(stream))
  }

  /** An abnormal observation that differs from what stood before it. */
  predicate IsEdge(stream: seq<Observation>, i: nat)
    requires i < |stream|
  {
    stream[i].Abnormal? && stream[i] != Standing(stream[..i])
  }

  function Edges(stream: seq<Observation>): seq<Signature> {
    if stream == [] then []
    else Edges(Init(stream)) + if IsEdge(stream, |stream| - 1) then [Last(stream).signature] else []
  }

  function SignatureStanding(stream: seq<Observation>): Option<Signature> {
    match Standing(stream)
    case Abnormal(signature) => Some(signature)
    case _ => None
  }

  function Emitted(standing: Option<Signature>, shown: seq<Observation>): seq<Signature> {
    if shown != [] && shown[0].Abnormal? && standing != Some(shown[0].signature) then [shown[0].signature] else []
  }

  lemma LogStep(key: string, t: Tracker, e: Event)
    ensures LogOf(key, Track(t, e).log) == LogOf(key, t.log) + Emitted(ActiveAt(t.active, key), Shown(key, e))
  {
    var u := Track(t, e);
    assert u.log == t.log || (u.log != [] && Init(u.log) == t.log);
  }

  /** The active signature of a key after a stream, given the one before it. */
  function ActiveAfter(before: Option<Signature>, stream: seq<Observation>): Option<Signature> {
    if stream == [] then before
    else match Last(stream)
      case Skip => ActiveAfter(before, Init(stream))
      case Normal => None
      case Abnormal(signature) => Some(signature)
  }

  lemma ActiveAfterOne(t: Tracker, key: string, e: Event)
    ensures ActiveAt(Track(t, e).active, key) == ActiveAfter(ActiveAt(t.active, key), Shown(key, e))
  {
    var shown := Shown(key, e);
    if shown != [] {
      assert Init(shown) == [];
    }
  }

  lemma ActiveAfterAppend(before: Option<Signature>, stream: seq<Observation>, shown: seq<Observation>)
    requires |shown| <= 1
    ensures ActiveAfter(before, stream + shown) == ActiveAfter(ActiveAfter(before, stream), shown)
  {
    if shown == [] {
      assert stream + shown == stream;
    } else {
      assert Init(stream + shown) == stream && Init(shown) == [];
    }
  }

  lemma EdgesOfShown(stream: seq<Observation>, shown: seq<Observation>)
    requires |shown| <= 1
    ensures Edges(stream + shown) == Edges(stream) + Emitted(SignatureStanding(stream), shown)
    ensures SignatureStanding(stream + shown) == ActiveAfter(SignatureStanding(stream), shown)
  {
    if shown == [] {
      assert stream + shown == stream;
    } else {
      assert Init(stream + shown) == stream && (stream + shown)[..|stream|] == stream && Init(shown) == [];
    }
  }

  /** Alarm log refinement: from an empty tracker, the alarms appended for a key are exactly the edges of its
      stream, and its active signature is the one standing at the end. */
  lemma {:induction false} LogIsEdges(key: string, events: seq<Event>)
    ensures LogOf(key, TrackAll(Tracker(map[], []), events).log) == Edges(Stream(key, events))
    ensures ActiveAt(TrackAll(Tracker(map[], []), events).active, key) == SignatureStanding(Stream(key, events))
  {
    if events != [] {
      var t := TrackAll(Tracker(map[], []), Init(events));
      LogIsEdges(key, Init(events));
      LogStep(key, t, Last(events));
      ActiveAfterOne(t, key, Last(events));
      EdgesOfShown(Stream(key, Init(events)), Shown(key, Last(events)));
    }
  }

  /** How a tracker with any past sees one key after more events. */
  lemma {:induction false} ActiveFollowsStream(t: Tracker, key: string, events: seq<Event>)
    ensures ActiveAt(TrackAll(t, events).active, key) == ActiveAfter(ActiveAt(t.active, key), Stream(key, events))
  {
    if events != [] {
      ActiveFollowsStream(t, key, Init(events));
      ActiveAfterOne(TrackAll(t, Init(events)), key, Last(events));
      ActiveAfterAppend(ActiveAt(t.active, key), Stream(key, Init(events)), Shown(key, Last(events)));
    }
  }

  /** Observations from..to repeat one signature or skip. */
  predicate Unchanged(stream: seq<Observation>, from: nat, to: nat, signature: Signature)
    requires to <= |stream|
  {
    forall k :: from <= k < to ==> stream[k] == Skip || stream[k] == Abnormal(signature)
  }

  lemma {:induction false} StandingWhileUnchanged(stream: seq<Observation>, i: nat, j: nat, signature: Signature)
    requires i < j <= |stream| && stream[i] == Abnormal(signature) && Unchanged(stream, i, j, signature)
    ensures Standing(stream[..j]) == Abnormal(signature)
  {
    if j > i + 1 {
      StandingWhileUnchanged(stream, i, j - 1, signature);
      assert Init(stream[..j]) == stream[..j - 1];
    }
  }

  /** An abnormal state that does not change is reported once. */
  lemma UnchangedEmitsOnce(stream: seq<Observation>, i: nat, j: nat, signature: Signature)
    requires i < j < |stream| && stream[i] == stream[j] == Abnormal(signature) && Unchanged(stream, i, j, signature)
    ensures !IsEdge(stream, j)
  {
    StandingWhileUnchanged(stream, i, j, signature);
  }

  /** Every abnormal observation belongs to a reported episode: it is an edge, or an edge with the same
      signature precedes it with nothing else in between. */
  lemma {:induction false} EveryAlarmReported(stream: seq<Observation>, i: nat) returns (edge: nat)
    requires i < |stream| && stream[i].Abnormal?
    ensures edge <= i && IsEdge(stream, edge) && stream[edge] == stream[i]
    ensures Unchanged(stream, edge, i, stream[i].signature)
  {
    edge := i;
    if !IsEdge(stream, i) {
      var k := StandingComesFrom(stream, i);
      edge := EveryAlarmReported(stream, k);
    }
  }

  /** A standing abnormal state was observed, with only skips since. */
  lemma {:induction false} StandingComesFrom(stream: seq<Observation>, n: nat) returns (k: nat)
    requires n <= |stream| && Standing(stream[..n]).Abnormal?
    ensures k < n && stream[k] == Standing(stream[..n])
    ensures forall j :: k < j < n ==> stream[j] == Skip
  {
    assert Init(stream[..n]) == stream[..n - 1];
    k := n - 1;
    if stream[n - 1] == Skip {
      k := StandingComesFrom(stream, n - 1);
    }
  }

  /** After a recovery the next abnormal observation is reported again. */
  lemma {:induction false} RecoveryReemits(stream: seq<Observation>, i: nat, j: nat)
    requires i < j < |stream| && stream[i] == Normal && stream[j].Abnormal?
    requires forall k :: i < k < j ==> stream[k] == Skip
    ensures IsEdge(stream, j)
  {
    var n := i + 1;
    assert Standing(stream[..n]) == Normal;
    while n < j
      invariant i < n <= j && Standing(stream[..n]) == Normal
    {
      assert Init(stream[..n + 1]) == stream[..n];
      n := n + 1;
    }
  }
}
