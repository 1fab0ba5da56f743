/** The start/stop protocol between the tool thread and the cache worker thread. */
module CacheWorker {
  import opened Config
  import opened DeviceState

  /** Where a worker thread is: not yet in its first refresh, inside refresh_once, about to take the lock,
      blocked in the timed wait, past a timeout with the lock released, or gone. */
  datatype WorkerPc = Begun | Refreshing | Locking | Waiting | TimedOut | Exited

  /** `late` counts refreshes begun since stop was last requested; `seen` is the configuration version
      the current refresh started on. */
  datatype Worker = Worker(pc: WorkerPc, late: nat, seen: nat)

  /** The tool thread: serving ordinary tools, joining the worker, past the join, or between stop and start. */
  datatype ToolPc = Serving | Joining | Joined | Mutating

  datatype System = System(
    tool: ToolPc, started: bool, stopRequested: bool, cacheEnabled: bool, version: nat,
    workers: seq<Worker>, handle: Option<nat>, aborted: bool)

  datatype Action =
    | RequestStop | Join | FinishStop
    | Mutate(cacheEnabled: bool) | Start
    | BeginRefresh(w: nat) | EndRefresh(w: nat) | CheckStop(w: nat) | Wake(w: nat, timeout: bool)

  /** The server's constructor is about to start the cache. */
  function Initial(cacheEnabled: bool): System {
    System(Mutating, false, false, cacheEnabled, 0, [], None, false)
  }

  predicate Enabled(s: System, a: Action) {
    match a
    case RequestStop => s.tool == Serving
    case Join => s.tool == Joining &&
      (s.handle.Some? ==> s.handle.value < |s.workers| && s.workers[s.handle.value].pc == Exited)
    case FinishStop => s.tool == Joined
    case Mutate(_) => s.tool == Mutating
    case Start => s.tool == Mutating
    case BeginRefresh(w) => w < |s.workers| && s.workers[w].pc in {Begun, TimedOut}
    case EndRefresh(w) => w < |s.workers| && s.workers[w].pc == Refreshing
    case CheckStop(w) => w < |s.workers| && s.workers[w].pc == Locking
    case Wake(w, _) => w < |s.workers| && s.workers[w].pc == Waiting
  }

  function Forget(workers: seq<Worker>): seq<Worker> {
    seq(|workers|, i requires 0 <= i < |workers| => workers[i].(late := 0))
  }

  function Next(s: System, a: Action): System
    requires Enabled(s, a)
  {
    match a
    case RequestStop =>
      if !s.started then s.(tool := Mutating)
      else s.(tool := Joining, stopRequested := true, workers := Forget(s.workers))
    case Join => s.(tool := Joined, handle := None)
    case FinishStop => s.(tool := Mutating, started := false)
    case Mutate(cacheEnabled) => s.(cacheEnabled := cacheEnabled, version := s.version + 1)
    case Start =>
      if !s.cacheEnabled || s.started then s.(tool := Serving)
      else
        // Assigning to a thread object that is still joinable aborts the process.
        s.(tool := Serving, started := true, stopRequested := false, aborted := s.aborted || s.handle.Some?,
           workers := s.workers + [Worker(Begun, 0, 0)], handle := Some(|s.workers|))
    case BeginRefresh(w) =>
      s.(workers := s.workers[w := Worker(Refreshing, s.workers[w].late + (if s.stopRequested then 1 else 0),
                                          s.version)])
    case EndRefresh(w) => s.(workers := s.workers[w := s.workers[w].(pc := Locking)])
    case CheckStop(w) => s.(workers := s.workers[w := s.workers[w].(pc := if s.stopRequested then Exited else Waiting)])
    case Wake(w, timeout) =>
      s.(workers := s.workers[w := s.workers[w].(pc := if s.stopRequested then Exited else if timeout then TimedOut
                                                 else Waiting)])
  }

  /** Any interleaving of the two threads. */
  ghost predicate IsRun(cacheEnabled: bool, actions: seq<Action>)
    decreases |actions|, 0
  {
    actions == [] || (IsRun(cacheEnabled, Init(actions)) && Enabled(After(cacheEnabled, Init(actions)), Last(actions)))
  }

  ghost function After(cacheEnabled: bool, actions: seq<Action>): System
    requires IsRun(cacheEnabled, actions)
    decreases |actions|, 1
  {
    if actions == [] then Initial(cacheEnabled) else Next(After(cacheEnabled, Init(actions)), Last(actions))
  }

  ghost predicate AllExited(s: System) {
    forall i :: 0 <= i < |s.workers| ==> s.workers[i].pc == Exited
  }

  /** Every worker but the newest is gone, and the newest is the one that can be joined. */
  ghost predicate OneWorker(s: System) {
    && (forall i :: 0 <= i < |s.workers| - 1 ==> s.workers[i].pc == Exited)
    && (s.handle.Some? ==> s.workers != [] && s.handle.value == |s.workers| - 1)
    && (s.handle.None? ==> AllExited(s))
    && (s.handle.Some? <==> s.started && s.tool != Joined)
  }

  ghost predicate StopFlag(s: System) {
    && (s.tool in {Joining, Joined} ==> s.started && s.stopRequested)
    && (s.tool == Serving && s.started ==> !s.stopRequested)
    && (s.tool == Mutating ==> !s.started)
  }

  /** A worker that has not noticed the stop yet has begun no late refresh; none ever begins two. */
  ghost predicate FewLate(s: System) {
    forall i :: 0 <= i < |s.workers| ==>
      && s.workers[i].late <= 1
      && (s.workers[i].pc in {Begun, TimedOut, Waiting} ==> s.workers[i].late == 0)
      && (s.workers[i].pc != Exited && s.tool == Serving ==> s.workers[i].late == 0)
      && (s.workers[i].pc == Refreshing ==> s.workers[i].seen == s.version)
  }

  ghost predicate Invariant(s: System) {
    OneWorker(s) && StopFlag(s) && FewLate(s) && !s.aborted
  }

  lemma StepKeepsInvariant(s: System, a: Action)
    requires Invariant(s) && Enabled(s, a)
    ensures Invariant(Next(s, a))
  {
  }

  lemma {:induction false} InvariantHolds(cacheEnabled: bool, actions: seq<Action>)
    requires IsRun(cacheEnabled, actions)
    ensures Invariant(After(cacheEnabled, actions))
  {
    if actions != [] {
      InvariantHolds(cacheEnabled, Init(actions));
      StepKeepsInvariant(After(cacheEnabled, Init(actions)), Last(actions));
    }
  }

  /** In every interleaving: the configuration changes only while no worker lives, so each refresh runs on one
      version of it from begin to end; at most one worker is alive; after a stop request a worker begins at
      most one more refresh; and no start ever overwrites a joinable thread. */
  lemma WorkerMutatorExclusion(cacheEnabled: bool, actions: seq<Action>)
    requires IsRun(cacheEnabled, actions)
    ensures var s := After(cacheEnabled, actions);
            && (Enabled(s, Mutate(true)) ==> AllExited(s))
            && (forall i :: 0 <= i < |s.workers| && s.workers[i].pc == Refreshing ==>
                s.workers[i].seen == s.version && s.tool != Mutating)
            && (forall i :: 0 <= i < |s.workers| - 1 ==> s.workers[i].pc == Exited)
            && (forall i :: 0 <= i < |s.workers| ==> s.workers[i].late <= 1)
            && !s.aborted
  {
    InvariantHolds(cacheEnabled, actions);
  }

  function Rank(pc: WorkerPc): nat {
    match pc
    case Exited => 0
    case Waiting => 1
    case Locking => 2
    case Refreshing => 3
    case _ => 4
  }

  /** The step a live worker takes next. */
  function WorkerStep(w: nat, pc: WorkerPc): Action
    requires pc != Exited
  {
    match pc
    case Refreshing => EndRefresh(w)
    case Locking => CheckStop(w)
    case Waiting => Wake(w, false)
    case _ => BeginRefresh(w)
  }

  /** A stop never hangs: while the tool thread joins, either the join can return or the worker can step, and
      every step of the worker brings it strictly closer to its exit. */
  lemma StopTerminates(cacheEnabled: bool, actions: seq<Action>)
    requires IsRun(cacheEnabled, actions) && After(cacheEnabled, actions).tool == Joining
    ensures var s := After(cacheEnabled, actions);
            && s.handle.Some? && s.handle.value < |s.workers|
            && var w := s.handle.value;
            && (s.workers[w].pc == Exited ==> Enabled(s, Join))
            && (s.workers[w].pc != Exited ==> Enabled(s, WorkerStep(w, s.workers[w].pc)))
            && (forall a: Action :: a.BeginRefresh? || a.EndRefresh? || a.CheckStop? || a.Wake? ==> Enabled(s, a) ==>
                  a.w == w && Rank(Next(s, a).workers[w].pc) < Rank(s.workers[w].pc))
  {
    InvariantHolds(cacheEnabled, actions);
  }

  /** While the server serves, a worker lives exactly if the cache is on. */
  ghost predicate Attended(s: System) {
    s.tool == Serving ==>
      && (s.started <==> s.cacheEnabled)
      && (s.started ==> s.handle.Some? && s.handle.value < |s.workers| && s.workers[s.handle.value].pc != Exited)
  }

  lemma StepKeepsAttended(s: System, a: Action)
    requires Invariant(s) && Attended(s) && Enabled(s, a)
    ensures Attended(Next(s, a))
  {
  }

  lemma {:induction false} AttendedHolds(cacheEnabled: bool, actions: seq<Action>)
    requires IsRun(cacheEnabled, actions)
    ensures Attended(After(cacheEnabled, actions))
  {
    if actions != [] {
      var s := After(cacheEnabled, Init(actions));
      AttendedHolds(cacheEnabled, Init(actions));
      InvariantHolds(cacheEnabled, Init(actions));
      StepKeepsAttended(s, Last(actions));
    }
  }

  /** Steps that a live worker still needs to its next refresh, if its waits time out. */
  function Distance(pc: WorkerPc): nat {
    match pc
    case Begun => 0
    case TimedOut => 0
    case Waiting => 1
    case Locking => 2
    case Refreshing => 3
    case Exited => 4
  }

  function StepToRefresh(w: nat, pc: WorkerPc): Action
    requires pc != Exited
  {
    match pc
    case Refreshing => EndRefresh(w)
    case Locking => CheckStop(w)
    case Waiting => Wake(w, true)
    case _ => BeginRefresh(w)
  }

  /** In every interleaving, while the server serves with the cache on, its one live worker can always step, begins a
      refresh on the current configuration after at most three more steps, and again and again; only waking up early
      leaves it where it is. With the cache off no worker lives. */
  lemma ServesWithFreshCache(cacheEnabled: bool, actions: seq<Action>)
    requires IsRun(cacheEnabled, actions) && After(cacheEnabled, actions).tool == Serving
    ensures var s := After(cacheEnabled, actions);
            if !s.cacheEnabled then AllExited(s)
            else
              && s.handle.Some? && s.handle.value < |s.workers| && s.workers[s.handle.value].pc != Exited
              && var w := s.handle.value;
              && Enabled(s, StepToRefresh(w, s.workers[w].pc))
              && forall a: Action | (a.BeginRefresh? || a.EndRefresh? || a.CheckStop? || a.Wake?) && Enabled(s, a) ::
                   a.w == w && StepsToRefresh(s, a, w)
  {
    InvariantHolds(cacheEnabled, actions);
    AttendedHolds(cacheEnabled, actions);
    var s := After(cacheEnabled, actions);
    if s.cacheEnabled {
      forall a: Action | (a.BeginRefresh? || a.EndRefresh? || a.CheckStop? || a.Wake?) && Enabled(s, a)
        ensures a.w == s.handle.value && StepsToRefresh(s, a, s.handle.value)
      {
        WorkerSteps(s, a);
      }
    }
  }

  /** The worker begins a refresh, comes one step closer to it, or wakes up early and waits on. */
  ghost predicate StepsToRefresh(s: System, a: Action, w: nat)
    requires Enabled(s, a) && w < |s.workers| && s.workers[w].pc != Exited && w < |Next(s, a).workers|
  {
    var before, after := s.workers[w], Next(s, a).workers[w];
    if a.BeginRefresh? then after.pc == Refreshing && after.seen == s.version
    else if a == Wake(w, false) then Next(s, a) == s
    else after.pc != Exited && Distance(after.pc) + 1 == Distance(before.pc)
  }

  lemma WorkerSteps(s: System, a: Action)
    requires Invariant(s) && Attended(s) && s.tool == Serving && s.cacheEnabled && Enabled(s, a)
    requires a.BeginRefresh? || a.EndRefresh? || a.CheckStop? || a.Wake?
    ensures a.w == s.handle.value && |Next(s, a).workers| == |s.workers|
    ensures StepsToRefresh(s, a, s.handle.value)
  {
    if a == Wake(s.handle.value, false) {
      assert Next(s, a).workers == s.workers;
    }
  }

  /** Starting with the cache on puts one new worker to work, about to refresh; with the cache off none. */
  lemma StartPutsToWork(cacheEnabled: bool, actions: seq<Action>)
    requires IsRun(cacheEnabled, actions) && After(cacheEnabled, actions).tool == Mutating
    ensures var s := After(cacheEnabled, actions);
            var after := Next(s, Start);
            && after.tool == Serving && after.version == s.version
            && after.workers == (if s.cacheEnabled then s.workers + [Worker(Begun, 0, 0)] else s.workers)
            && (s.cacheEnabled ==> after.started && !after.stopRequested && after.handle == Some(|s.workers|))
  {
    InvariantHolds(cacheEnabled, actions);
  }
}
