/** The windows say exactly what load is possible: every plan of windows is that of some run. The sequential outage load
    bound is met with equality, by reads that sleep exactly where there is room for their sleep. */
module OutageTightness {
  import opened Config
  import opened DeviceState
  import opened OutageLoad
  import opened OutageWindows
  import RetryPolicy

  /** A caller of a run and what the others are doing. */
  datatype Stage = Stage(start: System, sleepy: bool, who: nat, others: seq<Caller>)

  /** Where the run stands at time t, from that caller's view. */
  datatype Scene = Scene(t: nat, caller: Caller, failures: nat, circuit: Circuit, first: Option<nat>, admission: nat)

  /** The run leads to the scene; if `sleepy`, every read of it backs off. */
  ghost predicate Shows(c: ReliabilityConfig, g: Stage, moves: seq<Move>, scene: Scene) {
    && IsRun(c, g.start, moves) && NoSuccess(moves) && (g.sleepy ==> AllBackOff(moves))
    && (moves != [] ==> Last(moves).at <= scene.t) && g.who < |g.others|
    && Pictures(g, After(c, g.start, moves), scene)
    && FirstOpening(c, g.start, moves) == scene.first && LastAdmission(c, g.start, moves) == scene.admission
  }

  ghost predicate Pictures(g: Stage, s: System, scene: Scene)
    requires g.who < |g.others|
  {
    && s.callers == g.others[g.who := scene.caller]
    && s.device.consecutiveFailures == scene.failures && s.device.circuit == scene.circuit
  }

  lemma MovesGrow(moves: seq<Move>, m: Move)
    ensures NoSuccess(moves + [m]) <==> NoSuccess(moves) && !m.Succeed?
    ensures AllBackOff(moves + [m]) <==> AllBackOff(moves) && (m.Ask? ==> m.kind != Read(false))
  {
    assert forall i :: 0 <= i < |moves| ==> (moves + [m])[i] == moves[i];
    assert (moves + [m])[|moves|] == m;
  }

  /** The scene after a move of the caller. */
  lemma ShowMove(c: ReliabilityConfig, g: Stage, moves: seq<Move>, scene: Scene, m: Move, after: Scene)
    requires Shows(c, g, moves, scene) && Enabled(After(c, g.start, moves), m) && !m.Succeed?
    requires scene.t <= m.at == after.t && (g.sleepy && m.Ask? ==> m.kind != Read(false))
    requires Pictures(g, Next(c, After(c, g.start, moves), m), after)
    requires after.first == if scene.first.None? && after.circuit.state == Open then Some(m.at) else scene.first
    requires after.admission == if m.Ask? && Allows(scene.circuit, c.Cooldown(), m.at) then m.at else scene.admission
    ensures Shows(c, g, moves + [m], after)
  {
    Grow(c, g.start, moves, m);
    MovesGrow(moves, m);
  }

  lemma NextPictures(c: ReliabilityConfig, g: Stage, s: System, scene: Scene, m: Move)
    requires g.who < |g.others| && Pictures(g, s, scene) && m.who == g.who && Enabled(s, m) && !m.Succeed?
    requires m.Ask? ==> Allows(scene.circuit, c.Cooldown(), m.at)
    ensures var caller := match m
              case Ask(_, at, kind) => Ready(Attempts(c, kind), kind == Read(true), at)
              case Send(_, _) => InFlight(scene.caller.left, scene.caller.backsOff)
              case Fail(_, at, _, _, _) => AfterFailure(c, scene.caller, at);
            var circuit := match m
              case Ask(_, at, _) => CircuitAfterAdmission(scene.circuit, c.Cooldown(), at)
              case Send(_, _) => scene.circuit
              case Fail(_, at, _, _, _) => CircuitAfterFailure(scene.circuit, scene.failures + 1, c.Threshold(), at);
            Pictures(g, Next(c, s, m), scene.(caller := caller, circuit := circuit,
                                              failures := scene.failures + if m.Fail? then 1 else 0))
  {
    assert Next(c, s, m).callers == g.others[g.who := Next(c, s, m).callers[g.who]];
  }

  lemma AskOnce(c: ReliabilityConfig, g: Stage, moves: seq<Move>, scene: Scene, t: nat, kind: Kind)
    returns (longer: seq<Move>)
    requires Shows(c, g, moves, scene) && scene.caller.Idle? && scene.t <= t
    requires Allows(scene.circuit, c.Cooldown(), t) && (g.sleepy ==> kind != Read(false))
    ensures Shows(c, g, longer, Scene(t, Ready(Attempts(c, kind), kind == Read(true), t), scene.failures,
                                      CircuitAfterAdmission(scene.circuit, c.Cooldown(), t), scene.first, t))
  {
    var m := Ask(g.who, t, kind);
    NextPictures(c, g, After(c, g.start, moves), scene, m);
    ShowMove(c, g, moves, scene, m, Scene(t, Ready(Attempts(c, kind), kind == Read(true), t), scene.failures,
                                          CircuitAfterAdmission(scene.circuit, c.Cooldown(), t), scene.first, t));
    longer := moves + [m];
  }

  lemma SendOnce(c: ReliabilityConfig, g: Stage, moves: seq<Move>, scene: Scene) returns (longer: seq<Move>)
    requires Shows(c, g, moves, scene) && scene.caller.Ready? && scene.t <= scene.caller.notBefore
    requires scene.circuit.state == Open ==> scene.first.Some?
    ensures Shows(c, g, longer, scene.(t := scene.caller.notBefore,
                                       caller := InFlight(scene.caller.left, scene.caller.backsOff)))
  {
    var m := Send(g.who, scene.caller.notBefore);
    NextPictures(c, g, After(c, g.start, moves), scene, m);
    ShowMove(c, g, moves, scene, m, scene.(t := scene.caller.notBefore,
                                           caller := InFlight(scene.caller.left, scene.caller.backsOff)));
    longer := moves + [m];
  }

  /** The scene after a failure of the attempt that is next, as soon as it may begin. */
  function AfterFail(c: ReliabilityConfig, scene: Scene): Scene
    requires scene.caller.Ready?
  {
    var at := scene.caller.notBefore;
    var circuit := CircuitAfterFailure(scene.circuit, scene.failures + 1, c.Threshold(), at);
    Scene(at, AfterFailure(c, InFlight(scene.caller.left, scene.caller.backsOff), at), scene.failures + 1, circuit,
          if scene.first.None? && circuit.state == Open then Some(at) else scene.first, scene.admission)
  }

  /** The next attempt fails as soon as it may begin. */
  lemma FailOnce(c: ReliabilityConfig, g: Stage, moves: seq<Move>, scene: Scene) returns (longer: seq<Move>)
    requires Shows(c, g, moves, scene) && scene.caller.Ready? && scene.t <= scene.caller.notBefore
    requires scene.circuit.state == Open ==> scene.first.Some?
    ensures Shows(c, g, longer, AfterFail(c, scene))
  {
    var at := scene.caller.notBefore;
    var sent := SendOnce(c, g, moves, scene);
    var m := Fail(g.who, at, "", 1, 0);
    var flying := scene.(t := at, caller := InFlight(scene.caller.left, scene.caller.backsOff));
    NextPictures(c, g, After(c, g.start, sent), flying, m);
    ShowMove(c, g, sent, flying, m, AfterFail(c, scene));
    longer := sent + [m];
  }

  /** Attempts that stay below the threshold. */
  lemma {:induction false} FailBelow(c: ReliabilityConfig, g: Stage, moves: seq<Move>, scene: Scene,
                                     n: nat)
    returns (longer: seq<Move>, end: Scene)
    requires Shows(c, g, moves, scene) && scene.caller.Ready? && scene.t <= scene.caller.notBefore
    requires n < scene.caller.left <= c.MaxAttempts() && scene.failures + n < c.Threshold()
    requires scene.circuit.state == Closed && scene.first.None?
    ensures Shows(c, g, longer, end) && end.caller.Ready? && end.t <= end.caller.notBefore
    ensures end == Scene(end.t, Ready(scene.caller.left - n, scene.caller.backsOff, end.caller.notBefore),
                         scene.failures + n, scene.circuit, None, scene.admission)
    ensures scene.t <= end.t
    decreases n
  {
    longer, end := moves, scene;
    if n > 0 {
      var next := AfterFail(c, scene);
      longer := FailOnce(c, g, moves, scene);
      longer, end := FailBelow(c, g, longer, next, n - 1);
    }
  }

  /** A loop that fails throughout, at or past the threshold, leaves the breaker open since its first failure. */
  lemma {:induction false} FailAll(c: ReliabilityConfig, g: Stage, moves: seq<Move>, scene: Scene)
    returns (longer: seq<Move>)
    requires Shows(c, g, moves, scene) && scene.caller.Ready? && scene.t <= scene.caller.notBefore
    requires 1 <= scene.caller.left <= c.MaxAttempts() && scene.failures + 1 >= c.Threshold()
    requires scene.circuit.state == Open ==> scene.first.Some?
    ensures var at := scene.caller.notBefore;
            var opened_ := if scene.circuit.state == Open then scene.circuit.openedAt else at;
            Shows(c, g, longer,
                  Scene(at + Rest(c, scene.caller.backsOff, scene.caller.left), Idle,
                        scene.failures + scene.caller.left,
                        Circuit(Open, opened_), if scene.first.Some? then scene.first else Some(at), scene.admission))
    decreases scene.caller.left
  {
    longer := FailOnce(c, g, moves, scene);
    var at := scene.caller.notBefore;
    if scene.caller.left > 1 {
      RestStep(c, scene.caller.backsOff, scene.caller.left);
      var next := AfterFail(c, scene);
      longer := FailAll(c, g, longer, next);
    }
  }

  /** The start of an outage, with every caller idle. */
  ghost predicate Opening(g: Stage) {
    Quiet(g.start) && g.others == g.start.callers && g.who < |g.others|
  }

  /** Single-attempt requests run the device up to n failures, below the threshold. */
  lemma {:induction false} RunUp(c: ReliabilityConfig, g: Stage, n: nat) returns (moves: seq<Move>)
    requires Opening(g) && n < c.Threshold()
    ensures Shows(c, g, moves, Scene(0, Idle, n, g.start.device.circuit, None, 0))
  {
    if n == 0 {
      moves := [];
      assert g.others[g.who := Idle] == g.others;
    } else {
      moves := RunUp(c, g, n - 1);
      moves := AskOnce(c, g, moves, Scene(0, Idle, n - 1, g.start.device.circuit, None, 0), 0, Once);
      moves := FailOnce(c, g, moves, Scene(0, Ready(1, false, 0), n - 1, g.start.device.circuit, None, 0));
    }
  }

  /** The request that makes a whole window. */
  function KindOf(c: ReliabilityConfig, w: Window): Kind
    requires IsWindow(c, w)
  {
    if w.calls == 1 then Once else Read(w.sleep == Slept(c, w.calls))
  }

  /** The scene at the end of a plan that began at time f. */
  function Ended(c: ReliabilityConfig, f: nat, plan: seq<Window>, admission: nat): Scene
    requires plan != []
  {
    var opened_ := f + TotalCost(c, Init(plan));
    Scene(opened_ + Last(plan).sleep, Idle, c.Threshold() - 1 + TotalCalls(plan), Circuit(Open, opened_), Some(f),
          admission)
  }

  lemma KindFits(c: ReliabilityConfig, w: Window)
    requires IsWindow(c, w)
    ensures w.calls <= Attempts(c, KindOf(c, w)) && Rest(c, KindOf(c, w) == Read(true), w.calls) == w.sleep
  {
  }

  lemma EndOfSingle(c: ReliabilityConfig, f: nat, w: Window, admission: nat)
    ensures Ended(c, f, [w], admission) ==
            Scene(f + w.sleep, Idle, c.Threshold() - 1 + w.calls, Circuit(Open, f), Some(f), admission)
  {
    assert Init([w]) == [] && Last([w]) == w;
    assert TotalCost(c, []) == 0 && TotalCalls([]) == 0;
    assert TotalCalls([w]) == w.calls;
  }

  /** The request of the first window, up to the attempt that reaches the threshold. */
  lemma BeforeFirst(c: ReliabilityConfig, g: Stage, w: Window)
    returns (moves: seq<Move>, scene: Scene)
    requires Opening(g) && IsWindow(c, w) && (w.calls == 1 || c.MaxAttempts() - w.calls < c.Threshold())
    requires g.sleepy ==> w.sleep == Slept(c, w.calls)
    ensures Shows(c, g, moves, scene) && scene.caller.Ready? && scene.t <= scene.caller.notBefore
    ensures scene == Scene(scene.t, Ready(w.calls, KindOf(c, w) == Read(true), scene.caller.notBefore),
                           c.Threshold() - 1, g.start.device.circuit, None, 0)
  {
    var kind := KindOf(c, w);
    KindFits(c, w);
    var skipped := Attempts(c, kind) - w.calls;
    var before := Scene(0, Idle, c.Threshold() - 1 - skipped, g.start.device.circuit, None, 0);
    moves := RunUp(c, g, before.failures);
    moves := AskOnce(c, g, moves, before, 0, kind);
    before := before.(caller := Ready(Attempts(c, kind), kind == Read(true), 0));
    moves, scene := FailBelow(c, g, moves, before, skipped);
  }

  /** A retry loop some of whose attempts stay below the threshold, or a single attempt. */
  lemma FirstWindow(c: ReliabilityConfig, g: Stage, w: Window) returns (moves: seq<Move>, f: nat)
    requires Opening(g) && IsWindow(c, w) && (w.calls == 1 || c.MaxAttempts() - w.calls < c.Threshold())
    requires g.sleepy ==> w.sleep == Slept(c, w.calls)
    ensures Shows(c, g, moves, Ended(c, f, [w], 0))
  {
    var scene;
    moves, scene := BeforeFirst(c, g, w);
    moves := FailAll(c, g, moves, scene);
    f := scene.caller.notBefore;
    KindFits(c, w);
    EndOfSingle(c, f, w, 0);
  }

  lemma NextWindow(c: ReliabilityConfig, g: Stage, moves: seq<Move>, f: nat, plan: seq<Window>,
                   admission: nat, w: Window)
    returns (longer: seq<Move>)
    requires plan != [] && IsWindow(c, w) && w.calls in {1, c.MaxAttempts()}
    requires g.sleepy ==> w.sleep == Slept(c, w.calls)
    requires Shows(c, g, moves, Ended(c, f, plan, admission)) && TotalCalls(plan) >= 1
    ensures Shows(c, g, longer, Ended(c, f, plan + [w], f + TotalCost(c, plan)))
  {
    var scene, kind, t := Ended(c, f, plan, admission), KindOf(c, w), f + TotalCost(c, plan);
    longer := AskOnce(c, g, moves, scene, t, kind);
    var asked := Scene(t, Ready(Attempts(c, kind), kind == Read(true), t), scene.failures,
                       Circuit(HalfOpen, scene.circuit.openedAt), scene.first, t);
    longer := FailAll(c, g, longer, asked);
    PlanGrows(c, plan, w);
  }

  lemma PlanByParts(c: ReliabilityConfig, plan: seq<Window>)
    requires |plan| > 1 && Admissible(c, plan)
    ensures Admissible(c, Init(plan)) && (Sleeps(c, plan) ==> Sleeps(c, Init(plan)))
    ensures IsWindow(c, Last(plan)) && Last(plan).calls in {1, c.MaxAttempts()}
    ensures Sleeps(c, plan) ==> Last(plan).sleep == Slept(c, Last(plan).calls)
  {
    assert forall i :: 0 <= i < |Init(plan)| ==> Init(plan)[i] == plan[i];
  }

  lemma {:induction false} RunOfPlan(c: ReliabilityConfig, g: Stage, plan: seq<Window>)
    returns (moves: seq<Move>, f: nat, admission: nat)
    requires Opening(g) && plan != [] && Admissible(c, plan) && (g.sleepy ==> Sleeps(c, plan))
    ensures Shows(c, g, moves, Ended(c, f, plan, admission))
    ensures if |plan| == 1 then admission <= f else admission == f + TotalCost(c, Init(plan))
    ensures TotalCalls(plan) >= 1
  {
    var w := Last(plan);
    assert plan == Init(plan) + [w];
    if |plan| == 1 {
      assert w == plan[0];
      moves, f := FirstWindow(c, g, w);
      admission := 0;
      assert plan == [w];
    } else {
      PlanByParts(c, plan);
      moves, f, admission := RunOfPlan(c, g, Init(plan));
      moves := NextWindow(c, g, moves, f, Init(plan), admission, w);
      admission := f + TotalCost(c, Init(plan));
    }
  }

  /** From every record without failures, every admissible plan is realised by a run that makes exactly its calls in
      exactly its time; if the windows are those of requests that sleep, all reads of the run do. Together with
      LoadByWindows, the largest load within a given time is that of the largest plan that fits. */
  lemma PlanIsAttained(c: ReliabilityConfig, start: System, plan: seq<Window>, sleepy: bool) returns (moves: seq<Move>)
    requires Alone(start) && plan != [] && Admissible(c, plan) && (sleepy ==> Sleeps(c, plan))
    ensures IsRun(c, start, moves) && NoSuccess(moves) && (sleepy ==> AllBackOff(moves)) &&
            FirstOpening(c, start, moves).Some?
    ensures CallsMade(c, start, moves) == c.Threshold() - 1 + TotalCalls(plan)
    ensures |plan| >= 2 ==>
              LastAdmission(c, start, moves) == FirstOpening(c, start, moves).value + TotalCost(c, Init(plan))
    ensures |plan| == 1 ==> LastAdmission(c, start, moves) <= FirstOpening(c, start, moves).value
  {
    var f, admission;
    moves, f, admission := RunOfPlan(c, Stage(start, sleepy, 0, start.callers), plan);
    CallsOfScene(c, start, moves);
  }

  /** Once every caller is idle again, the calls are the failures. */
  lemma CallsOfScene(c: ReliabilityConfig, start: System, moves: seq<Move>)
    requires Quiet(start) && IsRun(c, start, moves) && NoSuccess(moves)
    requires forall i :: 0 <= i < |After(c, start, moves).callers| ==> After(c, start, moves).callers[i].Idle?
    ensures CallsMade(c, start, moves) == After(c, start, moves).device.consecutiveFailures
  {
    LeadHolds(c, start, moves);
    SumIdle(Flying, start.callers);
    SumIdle(Flying, After(c, start, moves).callers);
  }

  function Repeated(w: Window, n: nat): seq<Window> {
    seq(n, _ => w)
  }

  lemma {:induction false} RepeatedTotals(c: ReliabilityConfig, w: Window, n: nat)
    ensures TotalCalls(Repeated(w, n)) == Times(n, w.calls) && TotalCost(c, Repeated(w, n)) == Times(n, Cost(c, w))
  {
    if n > 0 {
      RepeatedTotals(c, w, n - 1);
      assert Init(Repeated(w, n)) == Repeated(w, n - 1);
    }
  }

  lemma CallsOfOutage(threshold: nat, attempts: nat, k: nat)
    ensures threshold - 1 + Times(k + 1, attempts) == threshold + (attempts - 1) + attempts * k
  {
    TimesIsProduct(k + 1, attempts);
    Distribute(attempts, k);
  }

  lemma RepeatedFits(c: ReliabilityConfig, w: Window, n: nat)
    requires IsWindow(c, w) && w.calls == c.MaxAttempts()
    ensures Admissible(c, Repeated(w, n)) && (w.sleep == Slept(c, w.calls) ==> Sleeps(c, Repeated(w, n)))
  {
  }

  /** A loop's whole sleep, once for each of k windows, takes less than k + 1 cooldowns. */
  predicate RoomForSleep(c: ReliabilityConfig, k: nat) {
    k * RetryPolicy.TotalBackoff(c, c.MaxRetries()) < (k + 1) * c.Cooldown()
  }

  /** The run reaches the sequential outage load bound with this many cooldown periods. */
  ghost predicate MeetsBound(c: ReliabilityConfig, start: System, moves: seq<Move>, k: nat)
    requires c.Cooldown() > 0
  {
    && IsRun(c, start, moves) && NoSuccess(moves)
    && Periods(c.Cooldown(), FirstOpening(c, start, moves), LastAdmission(c, start, moves)) == k
    && CallsMade(c, start, moves) == c.Threshold() + c.MaxRetries() + (c.MaxRetries() + 1) * k
  }

  /** For every number of cooldown periods some sequential run makes exactly as many calls as the bound allows; its
      reads may sleep between their attempts where there is room for the sleep. */
  lemma BoundIsTight(c: ReliabilityConfig, start: System, k: nat, sleepy: bool) returns (moves: seq<Move>)
    requires Alone(start) && c.Cooldown() > 0
    requires sleepy ==> RoomForSleep(c, k)
    ensures MeetsBound(c, start, moves, k) && (sleepy ==> AllBackOff(moves))
  {
    var w := Window(c.MaxAttempts(), Rest(c, sleepy, c.MaxAttempts()));
    var plan := Repeated(w, k + 1);
    SleptIsBackoff(c, c.MaxAttempts());
    RepeatedFits(c, w, k + 1);
    moves := PlanIsAttained(c, start, plan, sleepy);
    TotalsOfOutage(c, w, k);
    CostsFit(k, c.Cooldown(), w.sleep);
    PeriodsOf(c.Cooldown(), FirstOpening(c, start, moves), LastAdmission(c, start, moves), k, Times(k, Cost(c, w)));
  }

  lemma CostsFit(k: nat, cooldown: nat, sleep: nat)
    requires cooldown > 0 && (sleep > 0 ==> k * sleep < (k + 1) * cooldown)
    ensures Times(k, cooldown) <= Times(k, if sleep < cooldown then cooldown else sleep) < Times(k + 1, cooldown)
  {
    TimesIsProduct(k + 1, cooldown);
    TimesIsProduct(k, cooldown);
    if sleep >= cooldown {
      TimesIsProduct(k, sleep);
      TimesGrows(k, cooldown, sleep);
    }
  }

  lemma {:induction false} TimesGrows(k: nat, a: nat, b: nat)
    requires a <= b
    ensures Times(k, a) <= Times(k, b)
  {
    if k > 0 {
      TimesGrows(k - 1, a, b);
    }
  }

  lemma TotalsOfOutage(c: ReliabilityConfig, w: Window, k: nat)
    requires w.calls == c.MaxAttempts()
    ensures TotalCost(c, Init(Repeated(w, k + 1))) == Times(k, Cost(c, w))
    ensures c.Threshold() - 1 + TotalCalls(Repeated(w, k + 1)) ==
            c.Threshold() + c.MaxRetries() + (c.MaxRetries() + 1) * k
  {
    RepeatedTotals(c, w, k + 1);
    RepeatedTotals(c, w, k);
    assert Init(Repeated(w, k + 1)) == Repeated(w, k);
    CallsOfOutage(c.Threshold(), c.MaxAttempts(), k);
  }

  lemma PeriodsOf(cooldown: nat, first: Option<nat>, last: nat, k: nat, elapsed: nat)
    requires cooldown > 0 && first.Some? && Times(k, cooldown) <= elapsed < Times(k + 1, cooldown)
    requires if k == 0 then last <= first.value else last == first.value + elapsed
    ensures Periods(cooldown, first, last) == k
  {
    WindowsFit(k, cooldown, elapsed);
    QuotientBelow(k, cooldown, elapsed);
  }

  lemma ProductMonotone(a: nat, b: nat, d: nat)
    requires a <= b
    ensures a * d <= b * d
  {
  }

  lemma QuotientBelow(k: nat, d: nat, elapsed: nat)
    requires d > 0 && elapsed < Times(k + 1, d)
    ensures elapsed / d <= k
  {
    TimesIsProduct(k + 1, d);
    if elapsed / d >= k + 1 {
      ProductMonotone(k + 1, elapsed / d, d);
    }
  }

  lemma {:induction false} EachCostsTheCooldown(c: ReliabilityConfig, plan: seq<Window>)
    ensures TotalCost(c, plan) >= Times(|plan|, c.Cooldown())
  {
    if plan != [] {
      EachCostsTheCooldown(c, Init(plan));
    }
  }

  lemma SleepsByParts(c: ReliabilityConfig, plan: seq<Window>)
    requires plan != [] && Sleeps(c, plan)
    ensures Sleeps(c, Init(plan)) && 1 <= Last(plan).calls <= c.MaxAttempts()
    ensures Last(plan).sleep == Slept(c, Last(plan).calls)
  {
    assert forall i :: 0 <= i < |Init(plan)| ==> Init(plan)[i] == plan[i];
  }

  lemma {:induction false} CallsAtMost(c: ReliabilityConfig, plan: seq<Window>)
    requires Sleeps(c, plan)
    ensures TotalCalls(plan) <= Times(|plan|, c.MaxAttempts())
  {
    if plan != [] {
      SleepsByParts(c, plan);
      CallsAtMost(c, Init(plan));
    }
  }

  /** Windows that make as many calls as they can sleep as long as they can. */
  lemma {:induction false} FullWindowsSleep(c: ReliabilityConfig, plan: seq<Window>)
    requires Sleeps(c, plan) && TotalCalls(plan) >= Times(|plan|, c.MaxAttempts())
    ensures TotalCost(c, plan) >= Times(|plan|, Slept(c, c.MaxAttempts()))
  {
    if plan != [] {
      SleepsByParts(c, plan);
      CallsAtMost(c, Init(plan));
      FullWindowsSleep(c, Init(plan));
    }
  }

  /** As many calls as k + 1 full windows make take at least k + 1 windows. */
  lemma WindowsNeeded(c: ReliabilityConfig, plan: seq<Window>, k: nat)
    requires Sleeps(c, plan) && TotalCalls(plan) >= Times(k + 1, c.MaxAttempts())
    ensures |plan| >= k + 1
  {
    CallsAtMost(c, plan);
    if |plan| <= k {
      TimesMonotone(|plan|, k, c.MaxAttempts());
    }
  }

  /** All but the last of the k + 1 full windows have slept within the time. */
  lemma SleepFits(c: ReliabilityConfig, plan: seq<Window>, k: nat, elapsed: nat)
    requires k > 0 && Sleeps(c, plan) && TotalCalls(plan) >= Times(k + 1, c.MaxAttempts())
    requires elapsed < Times(k + 1, c.Cooldown())
    requires |plan| >= 2 ==> TotalCost(c, Init(plan)) <= elapsed
    ensures k * Slept(c, c.MaxAttempts()) < (k + 1) * c.Cooldown()
  {
    WindowsNeeded(c, plan, k);
    EachCostsTheCooldown(c, Init(plan));
    if |plan| > k + 1 {
      TimesMonotone(k + 1, |plan| - 1, c.Cooldown());
    }
    SleepsByParts(c, plan);
    FullWindowsSleep(c, Init(plan));
    TimesIsProduct(k, Slept(c, c.MaxAttempts()));
    TimesIsProduct(k + 1, c.Cooldown());
  }

  /** A run that meets the bound after the first period has opened windows, and calls for k + 1 full ones. */
  lemma CallsNeeded(threshold: nat, attempts: nat, k: nat, calls: nat, plan: seq<Window>)
    requires threshold >= 1 && attempts >= 1 && k >= 1 && calls == threshold + (attempts - 1) + attempts * k
    requires calls <= if plan == [] then threshold else threshold - 1 + TotalCalls(plan)
    ensures plan != [] && TotalCalls(plan) >= Times(k + 1, attempts)
  {
    CallsOfOutage(threshold, attempts, k);
    TimesMonotone(2, k + 1, attempts);
    assert Times(2, attempts) == Times(1, attempts) + attempts == attempts + attempts;
  }

  lemma TimeLeft(cooldown: nat, first: Option<nat>, last: nat, k: nat)
    requires cooldown > 0 && k >= 1 && first.Some? && Periods(cooldown, first, last) == k
    ensures first.value <= last < first.value + Times(k + 1, cooldown)
  {
    TimesIsProduct(k + 1, cooldown);
    Distribute(cooldown, k);
  }

  lemma SleepOfTightRun(c: ReliabilityConfig, start: System, moves: seq<Move>, k: nat, plan: seq<Window>)
    requires c.Cooldown() > 0 && k >= 1 && MeetsBound(c, start, moves, k)
    requires Accounted(c, start, moves, plan) && Sleeps(c, plan)
    ensures RoomForSleep(c, k)
  {
    var first, last := FirstOpening(c, start, moves), LastAdmission(c, start, moves);
    CallsNeeded(c.Threshold(), c.MaxAttempts(), k, CallsMade(c, start, moves), plan);
    TimeLeft(c.Cooldown(), first, last, k);
    SleepFits(c, plan, k, last - first.value);
    SleptIsBackoff(c, c.MaxAttempts());
  }

  /** Exactly when reads that sleep between their attempts can reach the sequential outage load bound. */
  lemma TightExactly(c: ReliabilityConfig, start: System, k: nat)
    requires Alone(start) && c.Cooldown() > 0
    ensures (exists moves :: MeetsBound(c, start, moves, k) && AllBackOff(moves)) <==>
            k * RetryPolicy.TotalBackoff(c, c.MaxRetries()) < (k + 1) * c.Cooldown()
  {
    if RoomForSleep(c, k) {
      var moves := BoundIsTight(c, start, k, true);
      assert MeetsBound(c, start, moves, k) && AllBackOff(moves);
    }
    if moves :| MeetsBound(c, start, moves, k) && AllBackOff(moves) {
      if k > 0 {
        LoadByWindows(c, start, moves);
        SleepOfTightRun(c, start, moves, k, Plan(c, start, moves));
      }
      assert RoomForSleep(c, k);
    }
  }

  /** With one retry, a sleep of two seconds and a cooldown of one, the bound of four calls in the first period is
      out of reach. */
  lemma LongSleepsSaveCalls(start: System, moves: seq<Move>)
    requires Alone(start) && NoSuccess(moves)
    requires var c := ReliabilityConfig(1, 2000, 2000, 1, 1000);
             IsRun(c, start, moves) && AllBackOff(moves) &&
             Periods(c.Cooldown(), FirstOpening(c, start, moves), LastAdmission(c, start, moves)) == 1
    ensures CallsMade(ReliabilityConfig(1, 2000, 2000, 1, 1000), start, moves) <= 3
  {
    var c := ReliabilityConfig(1, 2000, 2000, 1, 1000);
    SequentialOutageLoad(c, start, moves);
    TightExactly(c, start, 1);
    assert RetryPolicy.TotalBackoff(c, 1) == 2000;
    assert !MeetsBound(c, start, moves, 1);
  }
}
