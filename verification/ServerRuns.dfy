/** Whole runs of the server: tools, refreshes and manual clears in any order, as the cache sees them. */
module ServerRuns {
  import opened CacheRuns
  import opened Config
  import opened DeviceState
  import opened Thresholds
  import Operations

  /** A request of the server, or something the cache does by itself or for a tool. */
  datatype Event = Tool(t: Operations.Timed) | Cache(op: Op)

  datatype World = World(server: Operations.OpsState, cache: Model)

  ghost predicate CanHappen(w: World, e: Event) {
    e.Cache? ==> (e.op.Refresh? || e.op.ClearAlarm?) && Possible(w.cache, e.op)
  }

  /** A tool that changes the configuration empties the cache; the other tools leave it alone. */
  ghost function AfterEvent(w: World, e: Event): World
    requires CanHappen(w, e)
  {
    match e
    case Cache(op) => w.(cache := CacheRuns.Step(w.cache, op))
    case Tool(t) =>
      var (server, response) := Operations.Handle(w.server, t);
      World(server, if response.Changed? then Model(server.config.devices, ResetView(w.cache.view)) else w.cache)
  }

  ghost predicate IsHistory(start: Operations.OpsState, events: seq<Event>)
    decreases |events|, 0
  {
    events == [] || (IsHistory(start, Init(events)) && CanHappen(AfterAll(start, Init(events)), Last(events)))
  }

  ghost function AfterAll(start: Operations.OpsState, events: seq<Event>): World
    requires IsHistory(start, events)
    decreases |events|, 1
  {
    if events == [] then World(start, Start(start.config.devices))
    else AfterEvent(AfterAll(start, Init(events)), Last(events))
  }

  /** What a tool that changed the configuration is to the cache. */
  ghost function CacheOp(s: Operations.OpsState, t: Operations.Timed): Op {
    var r := t.request;
    if !r.UpdateRule? then Reconfigure(Operations.Handle(s, t).0.config.devices)
    else match Operations.DeviceOf(s, r.deviceId)
      case None => Reconfigure(s.config.devices)
      case Some(device) =>
        match FindVariable(device.variables, r.variable)
        case None => Reconfigure(s.config.devices)
        case Some(v) => UpdateRule(r.deviceId, r.variable, Operations.ApplyRule(r.rule, device.variables[v].rule))
  }

  lemma ToolIsCacheStep(s: Operations.OpsState, t: Operations.Timed, m: Model)
    requires m.devices == s.config.devices && Operations.Handle(s, t).1.Changed?
    ensures Possible(m, CacheOp(s, t))
    ensures CacheRuns.Step(m, CacheOp(s, t)) ==
            Model(Operations.Handle(s, t).0.config.devices, ResetView(m.view))
  {
  }

  lemma OtherToolsKeepDevices(s: Operations.OpsState, t: Operations.Timed)
    requires !Operations.Handle(s, t).1.Changed?
    ensures Operations.Handle(s, t).0.config == s.config
  {
  }

  /** The cache's part in one event: one of its steps, or none. */
  lemma EventForCache(w: World, e: Event) returns (ops: seq<Op>)
    requires CanHappen(w, e) && w.cache.devices == w.server.config.devices
    ensures var after := AfterEvent(w, e);
            && after.cache.devices == after.server.config.devices
            && if |ops| == 1 then Possible(w.cache, ops[0]) && after.cache == CacheRuns.Step(w.cache, ops[0])
               else ops == [] && after.cache == w.cache
  {
    match e
    case Cache(op) =>
      ops := [op];
    case Tool(t) =>
      if Operations.Handle(w.server, t).1.Changed? {
        ToolIsCacheStep(w.server, t, w.cache);
        ops := [CacheOp(w.server, t)];
      } else {
        OtherToolsKeepDevices(w.server, t);
        ops := [];
      }
  }

  /** Whatever the server is asked to do, its cache goes through a run of the cache and keeps to the configured
      devices, so that every theorem on those runs is one on the server. */
  lemma {:induction false} ServerRunIsCacheRun(start: Operations.OpsState, events: seq<Event>) returns (ops: seq<Op>)
    requires IsHistory(start, events)
    ensures IsRun(start.config.devices, ops) && After(start.config.devices, ops) == AfterAll(start, events).cache
    ensures AfterAll(start, events).cache.devices == AfterAll(start, events).server.config.devices
  {
    if events == [] {
      ops := [];
    } else {
      ops := ServerRunIsCacheRun(start, Init(events));
      var more := EventForCache(AfterAll(start, Init(events)), Last(events));
      if more != [] {
        RunGrows(start.config.devices, ops, more[0]);
        ops := ops + [more[0]];
      }
    }
  }

  /** In every state of the server an active alarm of a variable whose value is cached and whose device shares its
      keys with no other names the class that the diagnosis gives that value under the configured thresholds. */
  lemma ActiveAlarmsAreCurrent(start: Operations.OpsState, events: seq<Event>, i: nat, k: nat)
    requires IsHistory(start, events)
    requires var m := AfterAll(start, events).cache;
             && i < |m.devices| && k < |m.devices[i].variables| && OwnsKeys(m.devices, i)
             && CachedValue(m, i, k).Some? && ActiveSignature(m, i, k).Some?
    ensures var w := AfterAll(start, events);
            && i < |w.server.config.devices| && k < |w.server.config.devices[i].variables|
            && SameClass(ActiveSignature(w.cache, i, k),
                         DiagnosisStatus(w.server.config.devices[i].variables[k].rule,
                                         CachedValue(w.cache, i, k).value))
  {
    var ops := ServerRunIsCacheRun(start, events);
    CacheAndDiagnosisAgree(start.config.devices, ops, i, k);
  }
}
