/** Where the agreement of the cache with the current rules fails: the exact condition on the configured ids. */
module Agreement {
  import opened Config
  import opened AlarmEdges
  import opened CacheRuns
  import opened Collisions
  import opened ConnectionManager
  import opened DeviceState
  import opened StateCache
  import opened Thresholds

  const NO_LIMITS := Rule(None, None, None, None)
  const NO_MORE_THAN_ZERO := Rule(None, None, None, Some(0.0))

  function IdsOf(devices: seq<DeviceConfig>): (ids: seq<string>)
    ensures |ids| == |devices| && forall k :: 0 <= k < |ids| ==> ids[k] == devices[k].id
  {
    seq(|devices|, k requires 0 <= k < |devices| => devices[k].id)
  }

  /** The id at position i neither occurs elsewhere nor collides with another. */
  predicate OwnsIds(ids: seq<string>, i: nat)
    requires i < |ids|
  {
    forall j :: 0 <= j < |ids| && j != i ==> ids[j] != ids[i] && !Collide(ids[i], ids[j])
  }

  /** After the run the active signature of variable k of device i is what CacheAgreesWithRules says. */
  ghost predicate AgreesAfter(devices: seq<DeviceConfig>, ops: seq<Op>, i: nat, k: nat)
    requires IsRun(devices, ops)
    requires i < |After(devices, ops).devices| && k < |After(devices, ops).devices[i].variables|
  {
    Agrees(After(devices, ops), i, k, ClearedSince(ops, i, VariableKey(After(devices, ops), i, k)))
  }

  /** So it is for every variable of device i after every run that ends with these ids, whatever the variables and
      rules are. */
  ghost predicate AlwaysAgrees(ids: seq<string>, i: nat)
    requires i < |ids|
  {
    forall devices, ops, k: nat | IsRun(devices, ops) && IdsOf(After(devices, ops).devices) == ids &&
                                  k < |After(devices, ops).devices[i].variables| ::
      AgreesAfter(devices, ops, i, k)
  }

  /** A device with one variable under this rule. */
  function Single(id: string, name: string, rule: Rule): DeviceConfig {
    DeviceConfig(id, "", true, [VariableConfig(name, "", rule, READ_ONLY)], [])
  }

  /** A limited variable at position i, an unlimited one at j and nothing elsewhere. */
  function PairAt(ids: seq<string>, i: nat, x: string, j: nat, y: string, m: nat): (device: DeviceConfig)
    requires m < |ids|
    ensures device.id == ids[m]
  {
    if m == i then Single(ids[m], x, NO_MORE_THAN_ZERO)
    else if m == j then Single(ids[m], y, NO_LIMITS)
    else DeviceConfig(ids[m], "", true, [], [])
  }

  function Pair(ids: seq<string>, i: nat, x: string, j: nat, y: string): (devices: seq<DeviceConfig>)
    requires i < |ids| && j < |ids| && i != j
    ensures IdsOf(devices) == ids
    ensures devices[i] == Single(ids[i], x, NO_MORE_THAN_ZERO) && devices[j] == Single(ids[j], y, NO_LIMITS)
  {
    var devices := seq(|ids|, m requires 0 <= m < |ids| => PairAt(ids, i, x, j, y, m));
    assert IdsOf(devices) == ids;
    devices
  }

  /** Two ids that are equal or collide have a key in common. */
  lemma CommonKey(a: string, b: string) returns (x: string, y: string)
    requires a == b || Collide(a, b)
    ensures KeyOf(a, x) == KeyOf(b, y) && x != COMMUNICATION && y != COMMUNICATION
    ensures a == b ==> x == y
  {
    if a == b {
      x, y := "", "";
    } else if a + "|" <= b {
      x, y := CollisionHasKey(a, b);
    } else {
      y, x := CollisionHasKey(b, a);
    }
  }

  lemma UnlimitedIsNormal(name: string, reading: ReadResult)
    requires reading.ok
    ensures Observe(VariableConfig(name, "", NO_LIMITS, READ_ONLY), reading, false) == Normal
  {
  }

  /** A refresh of the unlimited variable shows a normal state under its key. */
  lemma ShowsNormal(id: string, name: string)
    requires name != COMMUNICATION
    ensures Stream(KeyOf(id, name), RefreshEvents(Single(id, name, NO_LIMITS), [HIGH], 1, STAMPS)) == [Normal]
  {
    assert AnyOk([HIGH]) by {
      assert [HIGH][0].ok;
    }
    NeverCollidesWithItself(id);
    UnlimitedIsNormal(name, HIGH);
    StreamOfRefresh(Single(id, name, NO_LIMITS), [HIGH], 1, STAMPS, id, name);
    assert FindVariableByName(Single(id, name, NO_LIMITS).variables, name) == Some(0);
  }

  lemma ReadIsPossible(m: Model, k: nat, reading: ReadResult)
    requires k < |m.devices| && |m.devices[k].variables| == 1
    ensures Possible(m, Read(k, reading))
  {
  }

  /** Reading the unlimited variable clears the common key. */
  lemma ClearsCommonKey(m: Model, j: nat, id: string, y: string, key: string)
    requires j < |m.devices| && m.devices[j] == Single(id, y, NO_LIMITS) && key == KeyOf(id, y) && y != COMMUNICATION
    ensures Possible(m, Read(j, HIGH))
    ensures ActiveAt(CacheRuns.Step(m, Read(j, HIGH)).view.tracker.active, key) == None
  {
    ReadIsPossible(m, j, HIGH);
    StepTracks(m, Read(j, HIGH));
    ShowsNormal(id, y);
    ActiveFollowsStream(m.view.tracker, key, OpEvents(m, Read(j, HIGH)));
  }

  /** Once both variables have been read, the limited one is cached with its high value. */
  lemma StillCached(m: Model, i: nat, j: nat)
    requires i < |m.devices| && j < |m.devices| && |m.devices[i].variables| == |m.devices[j].variables| == 1
    requires m.devices[i].id == m.devices[j].id ==> m.devices[i].variables[0].name == m.devices[j].variables[0].name
    requires Possible(m, Read(j, HIGH))
    requires CachedValue(m, i, 0) == Some(1.0)
    ensures CachedValue(CacheRuns.Step(m, Read(j, HIGH)), i, 0) == Some(1.0)
  {
    CachedAfterRefresh(m, Read(j, HIGH), j, 0);
  }

  lemma TwoReads(devices: seq<DeviceConfig>, p: Op, q: Op)
    requires Possible(Start(devices), p) && Possible(CacheRuns.Step(Start(devices), p), q)
    ensures IsRun(devices, [p, q])
    ensures After(devices, [p, q]) == CacheRuns.Step(CacheRuns.Step(Start(devices), p), q)
  {
    RunGrows(devices, [], p);
    assert [] + [p] == [p] && [p] + [q] == [p, q];
    RunGrows(devices, [p], q);
  }

  lemma NotCleared(p: Op, q: Op, i: nat, key: string)
    requires p.Refresh? && q.Refresh? && p.k == i
    ensures !ClearedSince([p, q], i, key)
  {
    assert Init([p, q]) == [p];
  }

  /** A run that disagrees: the limited variable is read too high, then the unlimited one clears its alarm. */
  lemma SharedKeyDisagrees(ids: seq<string>, i: nat, j: nat) returns (devices: seq<DeviceConfig>, ops: seq<Op>)
    requires i < |ids| && j < |ids| && i != j && (ids[i] == ids[j] || Collide(ids[i], ids[j]))
    ensures IsRun(devices, ops) && After(devices, ops).devices == devices && IdsOf(devices) == ids
    ensures |devices[i].variables| == 1 && !AgreesAfter(devices, ops, i, 0)
    ensures CachedValue(After(devices, ops), i, 0) == Some(1.0) && ActiveSignature(After(devices, ops), i, 0) == None
  {
    var x, y := CommonKey(ids[i], ids[j]);
    var p, q := Read(i, HIGH), Read(j, HIGH);
    devices, ops := Pair(ids, i, x, j, y), [p, q];
    var start := Start(devices);
    var middle := CacheRuns.Step(start, p);
    CachedAfterRefresh(start, p, i, 0);
    ClearsCommonKey(middle, j, ids[j], y, KeyOf(ids[i], x));
    StillCached(middle, i, j);
    TwoReads(devices, p, q);
    NotCleared(p, q, i, KeyOf(ids[i], x));
    Disagrees(After(devices, ops), i);
  }

  lemma Disagrees(m: Model, i: nat)
    requires i < |m.devices| && |m.devices[i].variables| == 1 && m.devices[i].variables[0].rule == NO_MORE_THAN_ZERO
    requires CachedValue(m, i, 0) == Some(1.0) && ActiveSignature(m, i, 0) == None
    ensures !Agrees(m, i, 0, false)
  {
  }

  /** Exactly when the active alarms of a device follow from the values cached for it and the current rules, over every
      run that ends with these ids: when its id neither occurs elsewhere nor collides with another. */
  lemma AgreementExactly(ids: seq<string>, i: nat)
    requires i < |ids|
    ensures AlwaysAgrees(ids, i) <==> OwnsIds(ids, i)
  {
    if OwnsIds(ids, i) {
      forall devices, ops, k: nat | IsRun(devices, ops) && IdsOf(After(devices, ops).devices) == ids &&
                                    k < |After(devices, ops).devices[i].variables|
        ensures AgreesAfter(devices, ops, i, k)
      {
        CacheAgreesWithRules(devices, ops, i, k);
      }
    } else {
      var j :| 0 <= j < |ids| && j != i && (ids[j] == ids[i] || Collide(ids[i], ids[j]));
      var devices, ops := SharedKeyDisagrees(ids, i, j);
    }
  }
}
