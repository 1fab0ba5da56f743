/** The outage load bound is met by any number of callers at once, where their reads do not sleep. */
module OutageCrowd {
  import opened Config
  import opened DeviceState
  import opened OutageLoad
  import opened OutageTightness
  import opened OutageWindows

  /** The first i of n callers are at this point of their requests, the rest are idle. */
  function Crowd(n: nat, i: nat, caller: Caller): seq<Caller>
    requires i <= n
  {
    seq(n, j => if j < i then caller else Idle)
  }

  /** The last n - i callers are at this point, the rest are idle. */
  function Rear(n: nat, i: nat, caller: Caller): seq<Caller>
    requires i <= n
  {
    seq(n, j => if j < i then Idle else caller)
  }

  lemma CrowdGrows(n: nat, i: nat, caller: Caller)
    requires i < n
    ensures Crowd(n, i, caller)[i := Idle] == Crowd(n, i, caller)
    ensures Crowd(n, i, caller)[i := caller] == Crowd(n, i + 1, caller)
  {
  }

  lemma RearShrinks(n: nat, i: nat, caller: Caller)
    requires i < n
    ensures Rear(n, i, caller)[i := caller] == Rear(n, i, caller)
    ensures Rear(n, i, caller)[i := Idle] == Rear(n, i + 1, caller)
  {
  }

  lemma AllAlike(n: nat, caller: Caller)
    ensures Crowd(n, n, caller) == Rear(n, 0, caller) && Crowd(n, 0, caller) == Rear(n, n, caller)
    ensures Crowd(n, 0, caller) == seq(n, _ => Idle)
  {
  }

  /** Where a run of the crowd stands, whoever moves next. */
  datatype Sight = Sight(t: nat, callers: seq<Caller>, failures: nat, circuit: Circuit, first: Option<nat>,
                         admission: nat)

  ghost predicate Seen(c: ReliabilityConfig, start: System, moves: seq<Move>, v: Sight) {
    && IsRun(c, start, moves) && NoSuccess(moves) && (moves != [] ==> Last(moves).at <= v.t)
    && var s := After(c, start, moves);
    && s.callers == v.callers && s.device.consecutiveFailures == v.failures && s.device.circuit == v.circuit
    && FirstOpening(c, start, moves) == v.first && LastAdmission(c, start, moves) == v.admission
  }

  /** One caller's scene in the crowd. */
  lemma FromCaller(c: ReliabilityConfig, g: Stage, moves: seq<Move>, scene: Scene)
    requires g.who < |g.others|
    ensures Shows(c, g, moves, scene) ==>
              Seen(c, g.start, moves, Sight(scene.t, g.others[g.who := scene.caller], scene.failures, scene.circuit,
                                            scene.first, scene.admission))
    ensures Seen(c, g.start, moves, Sight(scene.t, g.others[g.who := scene.caller], scene.failures, scene.circuit,
                                          scene.first, scene.admission)) && !g.sleepy ==>
              Shows(c, g, moves, scene)
  {
  }

  /** Caller i asks. */
  lemma AskNext(c: ReliabilityConfig, start: System, moves: seq<Move>, v: Sight, i: nat, t: nat)
    returns (longer: seq<Move>)
    requires Seen(c, start, moves, v) && i < |v.callers| && v.t <= t && Allows(v.circuit, c.Cooldown(), t)
    requires v.callers == Crowd(|v.callers|, i, Ready(c.MaxAttempts(), false, t))
    ensures Seen(c, start, longer, Sight(t, Crowd(|v.callers|, i + 1, Ready(c.MaxAttempts(), false, t)), v.failures,
                                         CircuitAfterAdmission(v.circuit, c.Cooldown(), t), v.first, t))
  {
    var ready := Ready(c.MaxAttempts(), false, t);
    var g, scene := Stage(start, false, i, v.callers), Scene(v.t, Idle, v.failures, v.circuit, v.first, v.admission);
    CrowdGrows(|v.callers|, i, ready);
    FromCaller(c, g, moves, scene);
    longer := AskOnce(c, g, moves, scene, t, Read(false));
    FromCaller(c, g, longer,
               Scene(t, ready, v.failures, CircuitAfterAdmission(v.circuit, c.Cooldown(), t), v.first, t));
  }

  /** The first n callers ask at the same time: once one is let through, all of them are. */
  lemma {:induction false} AskAll(c: ReliabilityConfig, start: System, moves: seq<Move>, v: Sight, n: nat, t: nat)
    returns (longer: seq<Move>)
    requires Seen(c, start, moves, v) && 1 <= n <= |v.callers| && v.t <= t && Allows(v.circuit, c.Cooldown(), t)
    requires v.callers == Crowd(|v.callers|, 0, Ready(c.MaxAttempts(), false, t))
    ensures Seen(c, start, longer, Sight(t, Crowd(|v.callers|, n, Ready(c.MaxAttempts(), false, t)), v.failures,
                                         CircuitAfterAdmission(v.circuit, c.Cooldown(), t), v.first, t))
  {
    if n == 1 {
      longer := AskNext(c, start, moves, v, 0, t);
    } else {
      longer := AskAll(c, start, moves, v, n - 1, t);
      var asked := Sight(t, Crowd(|v.callers|, n - 1, Ready(c.MaxAttempts(), false, t)), v.failures,
                         CircuitAfterAdmission(v.circuit, c.Cooldown(), t), v.first, t);
      longer := AskNext(c, start, longer, asked, n - 1, t);
    }
  }

  /** The sight once i callers have failed throughout at time t. */
  function Failed(c: ReliabilityConfig, v: Sight, i: nat): Sight
    requires i <= |v.callers|
  {
    if i == 0 then v
    else v.(callers := Rear(|v.callers|, i, Ready(c.MaxAttempts(), false, v.t)),
            failures := v.failures + Times(i, c.MaxAttempts()),
            circuit := Circuit(Open, v.t), first := if v.first.Some? then v.first else Some(v.t))
  }

  /** All callers are ready at once, and the next failure opens the breaker. */
  ghost predicate Poised(c: ReliabilityConfig, v: Sight) {
    && v.callers == Rear(|v.callers|, 0, Ready(c.MaxAttempts(), false, v.t))
    && v.failures + 1 >= c.Threshold() && v.circuit.state != Open
  }

  ghost predicate FailedSeen(c: ReliabilityConfig, start: System, moves: seq<Move>, v: Sight, i: nat) {
    i <= |v.callers| && Seen(c, start, moves, Failed(c, v, i))
  }

  lemma FailNext(c: ReliabilityConfig, start: System, moves: seq<Move>, v: Sight, i: nat) returns (longer: seq<Move>)
    requires i < |v.callers| && Poised(c, v) && FailedSeen(c, start, moves, v, i)
    ensures FailedSeen(c, start, longer, v, i + 1)
  {
    var ready, w := Ready(c.MaxAttempts(), false, v.t), Failed(c, v, i);
    var g, scene := Stage(start, false, i, w.callers), Scene(v.t, ready, w.failures, w.circuit, w.first, w.admission);
    RearShrinks(|v.callers|, i, ready);
    FromCaller(c, g, moves, scene);
    longer := FailAll(c, g, moves, scene);
    var opened_ := if w.circuit.state == Open then w.circuit.openedAt else v.t;
    FromCaller(c, g, longer, Scene(v.t, Idle, w.failures + c.MaxAttempts(), Circuit(Open, opened_),
                                   if w.first.Some? then w.first else Some(v.t), w.admission));
    FailedNext(c, v, i);
  }

  lemma FailedNext(c: ReliabilityConfig, v: Sight, i: nat)
    requires i < |v.callers| && Poised(c, v)
    ensures var w := Failed(c, v, i);
            && w.callers[i := Ready(c.MaxAttempts(), false, v.t)] == w.callers
            && Failed(c, v, i + 1) ==
               Sight(v.t, w.callers[i := Idle], w.failures + c.MaxAttempts(),
                     Circuit(Open, if w.circuit.state == Open then w.circuit.openedAt else v.t),
                     if w.first.Some? then w.first else Some(v.t), w.admission)
  {
    RearShrinks(|v.callers|, i, Ready(c.MaxAttempts(), false, v.t));
    assert Times(i + 1, c.MaxAttempts()) == Times(i, c.MaxAttempts()) + c.MaxAttempts();
  }

  lemma {:induction false} FailEach(c: ReliabilityConfig, start: System, moves: seq<Move>, v: Sight, n: nat)
    returns (longer: seq<Move>)
    requires n <= |v.callers| && Poised(c, v) && FailedSeen(c, start, moves, v, 0)
    ensures FailedSeen(c, start, longer, v, n)
  {
    if n == 0 {
      longer := moves;
    } else {
      longer := FailEach(c, start, moves, v, n - 1);
      longer := FailNext(c, start, longer, v, n - 1);
    }
  }

  /** One window: all callers are let through at time t and fail throughout. */
  lemma AllFail(c: ReliabilityConfig, start: System, moves: seq<Move>, v: Sight, t: nat) returns (longer: seq<Move>)
    requires Seen(c, start, moves, v) && |v.callers| >= 1 && v.callers == seq(|v.callers|, _ => Idle)
    requires v.t <= t && Allows(v.circuit, c.Cooldown(), t) && v.failures + 1 >= c.Threshold()
    ensures Seen(c, start, longer, Sight(t, v.callers, v.failures + Times(|v.callers|, c.MaxAttempts()),
                                         Circuit(Open, t), if v.first.Some? then v.first else Some(t), t))
  {
    var n, ready := |v.callers|, Ready(c.MaxAttempts(), false, t);
    AllAlike(n, ready);
    longer := AskAll(c, start, moves, v, n, t);
    var asked := Sight(t, Rear(n, 0, ready), v.failures, CircuitAfterAdmission(v.circuit, c.Cooldown(), t), v.first, t);
    longer := FailEach(c, start, longer, asked, n);
    assert Failed(c, asked, n).callers == v.callers;
  }

  /** The sight after the first outage and k more windows, each as soon as the cooldown allows it. */
  function Outage(c: ReliabilityConfig, n: nat, k: nat): Sight {
    Sight(Times(k, c.Cooldown()), seq(n, _ => Idle), c.Threshold() - 1 + Times(k + 1, Times(n, c.MaxAttempts())),
          Circuit(Open, Times(k, c.Cooldown())), Some(0), Times(k, c.Cooldown()))
  }

  lemma {:induction false} Outages(c: ReliabilityConfig, start: System, k: nat) returns (moves: seq<Move>)
    requires Quiet(start) && |start.callers| >= 1
    ensures Seen(c, start, moves, Outage(c, |start.callers|, k))
  {
    var n := |start.callers|;
    assert start.callers == seq(n, _ => Idle);
    assert Times(k + 1, Times(n, c.MaxAttempts())) == Times(k, Times(n, c.MaxAttempts())) + Times(n, c.MaxAttempts());
    if k == 0 {
      var g, scene := Stage(start, false, 0, start.callers),
          Scene(0, Idle, c.Threshold() - 1, start.device.circuit, None, 0);
      moves := RunUp(c, g, c.Threshold() - 1);
      FromCaller(c, g, moves, scene);
      assert start.callers[0 := Idle] == start.callers;
      var v := Sight(0, start.callers, c.Threshold() - 1, start.device.circuit, None, 0);
      moves := AllFail(c, start, moves, v, 0);
    } else {
      moves := Outages(c, start, k - 1);
      moves := AllFail(c, start, moves, Outage(c, n, k - 1), Times(k, c.Cooldown()));
    }
  }

  lemma CrowdCalls(threshold: nat, attempts: nat, n: nat, k: nat)
    ensures threshold - 1 + Times(k + 1, Times(n, attempts)) == threshold - 1 + n * attempts * (k + 1)
  {
    TimesIsProduct(n, attempts);
    TimesIsProduct(k + 1, n * attempts);
  }

  /** For any number of callers and of cooldown periods, and from every record without failures, some run makes exactly
      as many calls as the outage load bound allows. */
  lemma CrowdBoundIsTight(c: ReliabilityConfig, start: System, k: nat) returns (moves: seq<Move>)
    requires Quiet(start) && |start.callers| >= 1 && c.Cooldown() > 0
    ensures IsRun(c, start, moves) && NoSuccess(moves)
    ensures Periods(c.Cooldown(), FirstOpening(c, start, moves), LastAdmission(c, start, moves)) == k
    ensures CallsMade(c, start, moves) == c.Threshold() - 1 + |start.callers| * c.MaxAttempts() * (k + 1)
  {
    moves := Outages(c, start, k);
    CallsOfScene(c, start, moves);
    CrowdCalls(c.Threshold(), c.MaxAttempts(), |start.callers|, k);
    PeriodsOf(c.Cooldown(), FirstOpening(c, start, moves), LastAdmission(c, start, moves), k, Times(k, c.Cooldown()));
  }
}
