/** Load that a dead device sees from any number of concurrent callers. */
module OutageLoad {
  import opened Config
  import opened DeviceState
  import RetryPolicy

  /** A write, method call or health probe tries once; a read retries, and sleeps between its attempts unless it is
      the read of all variables of a device that has none. */
  datatype Kind = Once | Read(backsOff: bool)

  /** Where a caller is in its request: `left` counts the connector calls that may still fail,
      including one in flight. */
  datatype Caller =
    | Idle
    | Ready(left: nat, backsOff: bool, notBefore: nat)
    | InFlight(left: nat, backsOff: bool)

  datatype System = System(device: ManagedState, callers: seq<Caller>, calls: nat)

  /** One locked step of caller `who`: asking for admission, sending one attempt to the connector, or recording
      that the attempt failed or succeeded. */
  datatype Move =
    | Ask(who: nat, at: nat, kind: Kind)
    | Send(who: nat, at: nat)
    | Fail(who: nat, at: nat, error: string, attempts: int, latencyMs: int)
    | Succeed(who: nat, at: nat, attempts: int, latencyMs: int)

  predicate Enabled(s: System, m: Move) {
    && m.who < |s.callers|
    && match m
       case Ask(who, _, _) => s.callers[who].Idle?
       case Send(who, at) => s.callers[who].Ready? && s.callers[who].notBefore <= at
       case Fail(who, _, _, _, _) => s.callers[who].InFlight?
       case Succeed(who, _, _, _) => s.callers[who].InFlight?
  }

  /** The locked step a move performs on the device. */
  function StepOf(m: Move): Step {
    match m
    case Ask(_, at, _) => Admit(at)
    case Send(_, at) => MarkConnecting(at)
    case Fail(_, at, error, attempts, latencyMs) => RecordFailure(at, error, attempts, latencyMs)
    case Succeed(_, at, attempts, latencyMs) => RecordSuccess(at, attempts, latencyMs)
  }

  function Attempts(c: ReliabilityConfig, kind: Kind): nat {
    if kind.Once? then 1 else c.MaxAttempts()
  }

  /** The sleep after the failure of an attempt when `left` attempts remained, that one included. */
  function Pause(c: ReliabilityConfig, backsOff: bool, left: nat): nat {
    if backsOff then RetryPolicy.Delay(c, c.MaxAttempts() - left + 1) else 0
  }

  function AfterFailure(c: ReliabilityConfig, caller: Caller, at: nat): Caller
    requires caller.InFlight?
  {
    if caller.left > 1
    then Ready(caller.left - 1, caller.backsOff, at + Pause(c, caller.backsOff, caller.left))
    else Idle
  }

  function Next(c: ReliabilityConfig, s: System, m: Move): System
    requires Enabled(s, m)
  {
    var device := Apply(c, s.device, StepOf(m));
    match m
    case Ask(who, at, kind) =>
      if Allows(s.device.circuit, c.Cooldown(), at)
      then System(device, s.callers[who := Ready(Attempts(c, kind), kind == Read(true), at)], s.calls)
      else System(device, s.callers, s.calls)
    case Send(who, _) =>
      System(device, s.callers[who := InFlight(s.callers[who].left, s.callers[who].backsOff)], s.calls + 1)
    case Fail(who, at, _, _, _) =>
      System(device, s.callers[who := AfterFailure(c, s.callers[who], at)], s.calls)
    case Succeed(who, _, _, _) =>
      System(device, s.callers[who := Idle], s.calls)
  }

  /** A run from any system: every move is one its caller can make, and the clock does not go back. */
  ghost predicate IsRun(c: ReliabilityConfig, start: System, moves: seq<Move>)
    decreases |moves|, 0
  {
    moves == [] ||
    (&& IsRun(c, start, Init(moves))
     && Enabled(After(c, start, Init(moves)), Last(moves))
     && (|moves| >= 2 ==> moves[|moves| - 2].at <= Last(moves).at))
  }

  ghost function After(c: ReliabilityConfig, start: System, moves: seq<Move>): System
    requires IsRun(c, start, moves)
    decreases |moves|, 1
  {
    if moves == [] then start else Next(c, After(c, start, Init(moves)), Last(moves))
  }

  function Steps(moves: seq<Move>): seq<Step> {
    if moves == [] then [] else Steps(Init(moves)) + [StepOf(Last(moves))]
  }

  lemma NextMovesDevice(c: ReliabilityConfig, s: System, m: Move)
    requires Enabled(s, m)
    ensures Next(c, s, m).device == Apply(c, s.device, StepOf(m))
  {
  }

  /** The callers only ever perform locked steps on the device. */
  lemma {:induction false} RunIsInterleaving(c: ReliabilityConfig, start: System, moves: seq<Move>)
    requires IsRun(c, start, moves)
    ensures After(c, start, moves).device == Replay(c, start.device, Steps(moves))
  {
    if moves != [] {
      RunIsInterleaving(c, start, Init(moves));
      NextMovesDevice(c, After(c, start, Init(moves)), Last(moves));
      ReplayLast(c, start.device, Steps(Init(moves)), StepOf(Last(moves)));
    }
  }

  /** The last move of a nonempty run was an admission that got through. */
  ghost predicate EndsAdmitted(c: ReliabilityConfig, start: System, moves: seq<Move>)
    requires moves != [] && IsRun(c, start, moves)
  {
    Last(moves).Ask? && Allows(After(c, start, Init(moves)).device.circuit, c.Cooldown(), Last(moves).at)
  }

  /** Time of the first opening of the breaker. */
  ghost function FirstOpening(c: ReliabilityConfig, start: System, moves: seq<Move>): Option<nat>
    requires IsRun(c, start, moves)
  {
    if moves == [] then None
    else if FirstOpening(c, start, Init(moves)).Some? then FirstOpening(c, start, Init(moves))
    else if After(c, start, moves).device.circuit.state == Open then Some(Last(moves).at)
    else None
  }

  /** Time of the last admission, or 0 before any. */
  ghost function LastAdmission(c: ReliabilityConfig, start: System, moves: seq<Move>): nat
    requires IsRun(c, start, moves)
  {
    if moves == [] then 0
    else if EndsAdmitted(c, start, moves) then Last(moves).at
    else LastAdmission(c, start, Init(moves))
  }

  /** One more move that its caller can make extends a run. */
  lemma Grow(c: ReliabilityConfig, start: System, moves: seq<Move>, m: Move)
    requires IsRun(c, start, moves) && Enabled(After(c, start, moves), m)
    requires moves != [] ==> Last(moves).at <= m.at
    ensures IsRun(c, start, moves + [m]) && After(c, start, moves + [m]) == Next(c, After(c, start, moves), m)
    ensures FirstOpening(c, start, moves + [m]) ==
            if FirstOpening(c, start, moves).Some? then FirstOpening(c, start, moves)
            else if Next(c, After(c, start, moves), m).device.circuit.state == Open then Some(m.at) else None
    ensures LastAdmission(c, start, moves + [m]) ==
            if m.Ask? && Allows(After(c, start, moves).device.circuit, c.Cooldown(), m.at) then m.at
              else LastAdmission(c, start, moves)
  {
    assert Init(moves + [m]) == moves;
  }

  /** Number of probe windows: admissions that took the breaker from Open to HalfOpen. */
  ghost function Windows(c: ReliabilityConfig, start: System, moves: seq<Move>): nat
    requires IsRun(c, start, moves)
  {
    if moves == [] then 0
    else Windows(c, start, Init(moves)) +
         if EndsAdmitted(c, start, moves) && After(c, start, Init(moves)).device.circuit.state == Open then 1 else 0
  }

  function Outstanding(caller: Caller): nat {
    if caller.Idle? then 0 else caller.left
  }

  function Flying(caller: Caller): nat {
    if caller.InFlight? then 1 else 0
  }

  function Sum(f: Caller -> nat, callers: seq<Caller>): nat {
    if callers == [] then 0 else f(callers[0]) + Sum(f, callers[1..])
  }

  lemma {:induction false} SumUpdate(f: Caller -> nat, callers: seq<Caller>, i: nat, x: Caller)
    requires i < |callers|
    ensures Sum(f, callers[i := x]) == Sum(f, callers) - f(callers[i]) + f(x)
  {
    if i == 0 {
      assert callers[0 := x][1..] == callers[1..];
    } else {
      SumUpdate(f, callers[1..], i - 1, x);
      assert callers[i := x][1..] == callers[1..][i - 1 := x];
    }
  }

  lemma {:induction false} SumBound(f: Caller -> nat, callers: seq<Caller>, bound: nat)
    requires forall i :: 0 <= i < |callers| ==> f(callers[i]) <= bound
    ensures Sum(f, callers) <= |callers| * bound
  {
    if callers != [] {
      SumBound(f, callers[1..], bound);
      assert |callers| * bound == bound + |callers[1..]| * bound;
    }
  }

  lemma {:induction false} SumIdle(f: Caller -> nat, callers: seq<Caller>)
    requires forall i :: 0 <= i < |callers| ==> f(callers[i]) == 0
    ensures Sum(f, callers) == 0
  {
    if callers != [] {
      SumIdle(f, callers[1..]);
    }
  }

  lemma {:induction false} SumLe(callers: seq<Caller>)
    requires forall i :: 0 <= i < |callers| ==> Flying(callers[i]) <= Outstanding(callers[i])
    ensures Sum(Flying, callers) <= Sum(Outstanding, callers)
  {
    if callers != [] {
      SumLe(callers[1..]);
    }
  }

  /** a added k times. */
  function Times(k: nat, a: nat): nat {
    if k == 0 then 0 else Times(k - 1, a) + a
  }

  lemma {:induction false} TimesIsProduct(k: nat, a: nat)
    ensures Times(k, a) == k * a
  {
    if k > 0 {
      TimesIsProduct(k - 1, a);
      assert k * a == (k - 1) * a + a;
    }
  }

  lemma {:induction false} TimesMonotone(j: nat, k: nat, a: nat)
    requires j <= k
    ensures Times(j, a) <= Times(k, a)
    decreases k
  {
    if j < k {
      TimesMonotone(j, k - 1, a);
    }
  }

  /** Attempts of one full retry loop by every caller. */
  function Round(c: ReliabilityConfig, n: nat): nat {
    n * c.MaxAttempts()
  }

  /** Connector calls affordable after k probe windows. */
  function Budget(c: ReliabilityConfig, n: nat, k: nat): int {
    c.Threshold() - 1 + Times(k + 1, Round(c, n))
  }

  ghost predicate CallerBounded(c: ReliabilityConfig, caller: Caller) {
    caller.Idle? || 1 <= caller.left <= c.MaxAttempts()
  }

  ghost predicate AllBounded(c: ReliabilityConfig, s: System) {
    forall i :: 0 <= i < |s.callers| ==> CallerBounded(c, s.callers[i])
  }

  lemma MoveKeepsBounded(c: ReliabilityConfig, s: System, m: Move)
    requires AllBounded(c, s) && Enabled(s, m)
    ensures AllBounded(c, Next(c, s, m)) && |Next(c, s, m).callers| == |s.callers|
  {
    assert CallerBounded(c, s.callers[m.who]);
  }

  lemma {:induction false} BoundedHold(c: ReliabilityConfig, start: System, moves: seq<Move>)
    requires IsRun(c, start, moves) && AllBounded(c, start)
    ensures AllBounded(c, After(c, start, moves)) && |After(c, start, moves).callers| == |start.callers|
  {
    if moves != [] {
      BoundedHold(c, start, Init(moves));
      MoveKeepsBounded(c, After(c, start, Init(moves)), Last(moves));
    }
  }

  /** No connector call of the run succeeds. */
  predicate NoSuccess(moves: seq<Move>) {
    forall i :: 0 <= i < |moves| ==> !moves[i].Succeed?
  }

  lemma NoSuccessByParts(moves: seq<Move>)
    requires moves != [] && NoSuccess(moves)
    ensures NoSuccess(Init(moves)) && !Last(moves).Succeed?
  {
  }

  /** How far the calls are ahead of the recorded failures and the calls in flight. */
  function Lead(s: System): int {
    s.calls - s.device.consecutiveFailures - Sum(Flying, s.callers)
  }

  lemma MoveKeepsLead(c: ReliabilityConfig, s: System, m: Move)
    requires Enabled(s, m) && !m.Succeed?
    ensures Lead(Next(c, s, m)) == Lead(s)
  {
    var t := Next(c, s, m);
    SumUpdate(Flying, s.callers, m.who, t.callers[m.who]);
    assert t.callers == s.callers[m.who := t.callers[m.who]];
  }

  lemma {:induction false} LeadHolds(c: ReliabilityConfig, start: System, moves: seq<Move>)
    requires IsRun(c, start, moves) && NoSuccess(moves)
    ensures Lead(After(c, start, moves)) == Lead(start)
  {
    if moves != [] {
      NoSuccessByParts(moves);
      LeadHolds(c, start, Init(moves));
      MoveKeepsLead(c, After(c, start, Init(moves)), Last(moves));
    }
  }

  lemma OutstandingBound(c: ReliabilityConfig, s: System)
    requires AllBounded(c, s)
    ensures Sum(Flying, s.callers) <= Sum(Outstanding, s.callers) <= Round(c, |s.callers|)
  {
    forall i | 0 <= i < |s.callers| ensures Flying(s.callers[i]) <= Outstanding(s.callers[i]) <= c.MaxAttempts() {
      assert CallerBounded(c, s.callers[i]);
    }
    SumLe(s.callers);
    SumBound(Outstanding, s.callers, c.MaxAttempts());
  }

  /** What the breaker's state says about the failures so far, the outstanding attempts and the clock,
      after k probe windows. */
  ghost predicate Load(c: ReliabilityConfig, n: nat, s: System, first: Option<nat>, admission: nat, k: nat) {
    var failures := s.device.consecutiveFailures;
    match s.device.circuit.state
    case Closed =>
      first.None? && k == 0 && failures < c.Threshold()
    case Open =>
      && first.Some? && failures >= c.Threshold()
      && failures + Sum(Outstanding, s.callers) <= Budget(c, n, k)
      && s.device.circuit.openedAt >= first.value + Times(k, c.Cooldown())
      && (k > 0 ==> admission >= first.value + Times(k, c.Cooldown()))
    case HalfOpen =>
      && first.Some? && k >= 1 && failures >= c.Threshold()
      && failures <= Budget(c, n, k - 1)
      && admission >= first.value + Times(k, c.Cooldown())
  }

  lemma AskKeepsLoad(c: ReliabilityConfig, n: nat, s: System, m: Move, first: Option<nat>, admission: nat, k: nat)
    requires AllBounded(c, s) && |s.callers| == n && Enabled(s, m) && m.Ask?
    requires Load(c, n, s, first, admission, k) && admission <= m.at
    ensures var t, granted := Next(c, s, m), Allows(s.device.circuit, c.Cooldown(), m.at);
            Load(c, n, t, first, if granted then m.at else admission,
                 if granted && s.device.circuit.state == Open then k + 1 else k)
  {
    var t := Next(c, s, m);
    SumUpdate(Outstanding, s.callers, m.who, t.callers[m.who]);
    if s.device.circuit.state == Open && Allows(s.device.circuit, c.Cooldown(), m.at) {
      assert Times(k + 1, c.Cooldown()) == Times(k, c.Cooldown()) + c.Cooldown();
    }
  }

  lemma SendKeepsLoad(c: ReliabilityConfig, n: nat, s: System, m: Move, first: Option<nat>, admission: nat, k: nat)
    requires AllBounded(c, s) && |s.callers| == n && Enabled(s, m) && m.Send?
    requires Load(c, n, s, first, admission, k)
    ensures Load(c, n, Next(c, s, m), first, admission, k)
  {
    SumUpdate(Outstanding, s.callers, m.who, Next(c, s, m).callers[m.who]);
  }

  lemma FailKeepsLoad(c: ReliabilityConfig, n: nat, s: System, m: Move, first: Option<nat>, admission: nat, k: nat)
    requires AllBounded(c, s) && |s.callers| == n && Enabled(s, m) && m.Fail?
    requires Load(c, n, s, first, admission, k) && admission <= m.at
    ensures var t := Next(c, s, m);
            Load(c, n, t, if first.None? && t.device.circuit.state == Open then Some(m.at) else first, admission, k)
  {
    var t := Next(c, s, m);
    assert CallerBounded(c, s.callers[m.who]);
    SumUpdate(Outstanding, s.callers, m.who, t.callers[m.who]);
    OutstandingBound(c, s);
    assert Times(k + 1, Round(c, n)) == Times(k, Round(c, n)) + Round(c, n);
    assert s.device.consecutiveFailures + Sum(Outstanding, s.callers) ==
           t.device.consecutiveFailures + Sum(Outstanding, t.callers);
  }

  lemma MoveKeepsLoad(c: ReliabilityConfig, n: nat, s: System, m: Move, first: Option<nat>, admission: nat, k: nat)
    requires AllBounded(c, s) && |s.callers| == n && Enabled(s, m) && !m.Succeed?
    requires Load(c, n, s, first, admission, k) && admission <= m.at
    ensures var t, granted := Next(c, s, m), m.Ask? && Allows(s.device.circuit, c.Cooldown(), m.at);
            Load(c, n, t, if first.None? && t.device.circuit.state == Open then Some(m.at) else first,
                 if granted then m.at else admission,
                 if granted && s.device.circuit.state == Open then k + 1 else k)
  {
    match m
    case Ask(_, _, _) => AskKeepsLoad(c, n, s, m, first, admission, k);
    case Send(_, _) => SendKeepsLoad(c, n, s, m, first, admission, k);
    case Fail(_, _, _, _, _) => FailKeepsLoad(c, n, s, m, first, admission, k);
  }

  /** Where an outage may begin: the breaker is Closed and below its threshold, and any requests may be under way. */
  ghost predicate Begins(c: ReliabilityConfig, start: System) {
    && start.device.circuit.state == Closed && start.device.consecutiveFailures < c.Threshold()
    && AllBounded(c, start)
  }

  lemma {:induction false} LoadHolds(c: ReliabilityConfig, start: System, moves: seq<Move>)
    requires IsRun(c, start, moves) && NoSuccess(moves) && Begins(c, start)
    ensures Load(c, |start.callers|, After(c, start, moves), FirstOpening(c, start, moves),
                 LastAdmission(c, start, moves), Windows(c, start, moves))
    ensures if moves == [] then LastAdmission(c, start, moves) == 0
            else LastAdmission(c, start, moves) <= Last(moves).at
  {
    if moves != [] {
      NoSuccessByParts(moves);
      LoadHolds(c, start, Init(moves));
      BoundedHold(c, start, Init(moves));
      LoadStep(c, start, moves);
    }
  }

  lemma LoadStep(c: ReliabilityConfig, start: System, moves: seq<Move>)
    requires moves != [] && IsRun(c, start, moves) && !Last(moves).Succeed?
    requires var before, n := Init(moves), |start.callers|;
             && AllBounded(c, After(c, start, before)) && |After(c, start, before).callers| == n
             && Load(c, n, After(c, start, before), FirstOpening(c, start, before), LastAdmission(c, start, before),
                     Windows(c, start, before))
             && LastAdmission(c, start, before) <= Last(moves).at
    ensures Load(c, |start.callers|, After(c, start, moves), FirstOpening(c, start, moves),
                 LastAdmission(c, start, moves), Windows(c, start, moves))
    ensures LastAdmission(c, start, moves) <= Last(moves).at
  {
    var before, m := Init(moves), Last(moves);
    var s, first, admission, k :=
      After(c, start, before), FirstOpening(c, start, before), LastAdmission(c, start, before),
      Windows(c, start, before);
    MoveKeepsLoad(c, |start.callers|, s, m, first, admission, k);
  }

  /** Connector calls made since the start. */
  ghost function CallsMade(c: ReliabilityConfig, start: System, moves: seq<Move>): int
    requires IsRun(c, start, moves)
  {
    After(c, start, moves).calls - start.calls
  }

  lemma CallsWithinBudget(c: ReliabilityConfig, start: System, moves: seq<Move>)
    requires IsRun(c, start, moves) && NoSuccess(moves) && Begins(c, start)
    ensures var k, first, last := Windows(c, start, moves), FirstOpening(c, start, moves),
                LastAdmission(c, start, moves);
            && CallsMade(c, start, moves) <= Budget(c, |start.callers|, k) - start.device.consecutiveFailures
            && (k > 0 ==> first.Some? && last >= first.value + Times(k, c.Cooldown()))
  {
    LoadHolds(c, start, moves);
    BoundedHold(c, start, moves);
    LeadHolds(c, start, moves);
    OutstandingBound(c, After(c, start, moves));
    var k := Windows(c, start, moves);
    assert Times(k + 1, Round(c, |start.callers|)) ==
           Times(k, Round(c, |start.callers|)) + Round(c, |start.callers|);
  }

  /** Full cooldown periods between the first opening and the last admission. */
  function Periods(cooldown: nat, first: Option<nat>, last: nat): nat
    requires cooldown > 0
  {
    if first.Some? && last >= first.value then (last - first.value) / cooldown else 0
  }

  /** Outage load bound for concurrent callers, from any start: connector calls are bounded by the failures still
      missing to the threshold plus one round of full retries for every caller in the first outage and in each later
      cooldown period. */
  lemma OutageLoadBound(c: ReliabilityConfig, start: System, moves: seq<Move>)
    requires IsRun(c, start, moves) && NoSuccess(moves) && Begins(c, start)
    requires c.Cooldown() > 0
    ensures CallsMade(c, start, moves) <= c.Threshold() - 1 - start.device.consecutiveFailures +
            |start.callers| * c.MaxAttempts() *
            (Periods(c.Cooldown(), FirstOpening(c, start, moves), LastAdmission(c, start, moves)) + 1)
  {
    CallsWithinBudget(c, start, moves);
    var k, first, last := Windows(c, start, moves), FirstOpening(c, start, moves), LastAdmission(c, start, moves);
    if k > 0 {
      WindowsFit(k, c.Cooldown(), last - first.value);
    }
    AffordableBudget(c, |start.callers|, k, Periods(c.Cooldown(), first, last));
  }

  lemma AffordableBudget(c: ReliabilityConfig, n: nat, k: nat, periods: nat)
    requires k <= periods
    ensures Budget(c, n, k) <= c.Threshold() - 1 + n * c.MaxAttempts() * (periods + 1)
  {
    TimesMonotone(k + 1, periods + 1, Round(c, n));
    TimesIsProduct(periods + 1, Round(c, n));
  }

  lemma WindowsFit(k: nat, cooldown: nat, elapsed: nat)
    requires cooldown > 0 && elapsed >= Times(k, cooldown)
    ensures k <= elapsed / cooldown
  {
    var q := elapsed / cooldown;
    TimesIsProduct(q + 1, cooldown);
    if q < k {
      TimesMonotone(q + 1, k, cooldown);
    }
  }

  lemma LastMoveOf(c: ReliabilityConfig, start: System, moves: seq<Move>, m: Move)
    requires IsRun(c, start, moves + [m])
    ensures IsRun(c, start, moves) && Enabled(After(c, start, moves), m)
    ensures After(c, start, moves + [m]) == Next(c, After(c, start, moves), m)
    ensures moves != [] ==> Last(moves).at <= m.at
  {
    assert Init(moves + [m]) == moves;
  }

  ghost predicate Splits(c: ReliabilityConfig, start: System, a: seq<Move>, b: seq<Move>) {
    && IsRun(c, start, a + b) && IsRun(c, start, a) && IsRun(c, After(c, start, a), b)
    && After(c, start, a + b) == After(c, After(c, start, a), b)
  }

  lemma SplitGrows(c: ReliabilityConfig, start: System, a: seq<Move>, b: seq<Move>, m: Move)
    requires Splits(c, start, a, b) && IsRun(c, start, (a + b) + [m])
    ensures IsRun(c, After(c, start, a), b + [m])
    ensures After(c, start, (a + b) + [m]) == After(c, After(c, start, a), b + [m])
  {
    LastMoveOf(c, start, a + b, m);
    assert b != [] ==> Last(a + b) == Last(b);
    Grow(c, After(c, start, a), b, m);
  }

  lemma SplitEarlier(c: ReliabilityConfig, start: System, a: seq<Move>, b: seq<Move>)
    requires b != [] && IsRun(c, start, a + b)
    ensures IsRun(c, start, a + Init(b))
  {
    AppendByParts(a, b);
    LastMoveOf(c, start, a + Init(b), Last(b));
  }

  lemma SplitLater(c: ReliabilityConfig, start: System, a: seq<Move>, b: seq<Move>)
    requires b != [] && IsRun(c, start, a + b) && Splits(c, start, a, Init(b))
    ensures Splits(c, start, a, b)
  {
    AppendByParts(a, b);
    SplitGrows(c, start, a, Init(b), Last(b));
    assert Init(b) + [Last(b)] == b;
  }

  /** The rest of a run is a run from where its first part led. */
  lemma {:induction false} RunFromMiddle(c: ReliabilityConfig, start: System, a: seq<Move>, b: seq<Move>)
    requires IsRun(c, start, a + b)
    ensures Splits(c, start, a, b)
  {
    if b == [] {
      assert a + b == a;
    } else {
      SplitEarlier(c, start, a, b);
      RunFromMiddle(c, start, a, Init(b));
      SplitLater(c, start, a, b);
    }
  }

  lemma SuccessBegins(c: ReliabilityConfig, start: System, moves: seq<Move>)
    requires AllBounded(c, start) && IsRun(c, start, moves) && moves != [] && Last(moves).Succeed?
    ensures var s := After(c, start, moves);
            Begins(c, s) && s.device.consecutiveFailures == 0 && |s.callers| == |start.callers|
  {
    BoundedHold(c, start, moves);
  }

  /** The calls of the run stay within the bound for n callers and a device that has not failed yet. */
  ghost predicate WithinBound(c: ReliabilityConfig, n: nat, start: System, moves: seq<Move>)
    requires IsRun(c, start, moves) && c.Cooldown() > 0
  {
    CallsMade(c, start, moves) <= c.Threshold() - 1 +
    n * c.MaxAttempts() * (Periods(c.Cooldown(), FirstOpening(c, start, moves), LastAdmission(c, start, moves)) + 1)
  }

  /** In any run of concurrent callers, whatever happened before: from a success to the next one, the calls stay
      within the bound. */
  lemma OutageAfterSuccess(c: ReliabilityConfig, start: System, before: seq<Move>, outage: seq<Move>)
    requires AllBounded(c, start) && IsRun(c, start, before + outage) && c.Cooldown() > 0
    requires before != [] && Last(before).Succeed? && NoSuccess(outage)
    ensures Splits(c, start, before, outage)
    ensures WithinBound(c, |start.callers|, After(c, start, before), outage)
  {
    RunFromMiddle(c, start, before, outage);
    SuccessBegins(c, start, before);
    BoundFromNoFailures(c, After(c, start, before), outage);
  }

  lemma BoundFromNoFailures(c: ReliabilityConfig, start: System, moves: seq<Move>)
    requires IsRun(c, start, moves) && NoSuccess(moves) && Begins(c, start) && c.Cooldown() > 0
    requires start.device.consecutiveFailures == 0
    ensures WithinBound(c, |start.callers|, start, moves)
  {
    OutageLoadBound(c, start, moves);
  }

  /** A single caller issues its requests one after the other: threshold + retries for the first outage,
      and at most one full retry loop per cooldown period after it. */
  lemma SequentialOutageLoad(c: ReliabilityConfig, start: System, moves: seq<Move>)
    requires IsRun(c, start, moves) && NoSuccess(moves) && Begins(c, start) && |start.callers| == 1
    requires c.Cooldown() > 0
    ensures CallsMade(c, start, moves) <= c.Threshold() - start.device.consecutiveFailures + c.MaxRetries() +
            (c.MaxRetries() + 1) *
            Periods(c.Cooldown(), FirstOpening(c, start, moves), LastAdmission(c, start, moves))
  {
    OutageLoadBound(c, start, moves);
    Distribute(c.MaxAttempts(),
               Periods(c.Cooldown(), FirstOpening(c, start, moves), LastAdmission(c, start, moves)));
  }

  lemma Distribute(a: nat, b: nat)
    ensures a * (b + 1) == a * b + a
  {
  }
}
