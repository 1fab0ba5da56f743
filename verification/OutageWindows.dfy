/** The load of one caller, window by window: what each opening of the breaker costs in time and in connector calls. */
module OutageWindows {
  import opened Config
  import opened DeviceState
  import opened OutageLoad
  import RetryPolicy

  /** The calls made from one opening of the breaker to the end of the request that caused it, and the sleep
      between them. */
  datatype Window = Window(calls: nat, sleep: nat)

  /** Sleep between the last n attempts of a retry loop. */
  function Slept(c: ReliabilityConfig, n: nat): nat
    requires n <= c.MaxAttempts()
  {
    if n <= 1 then 0 else Slept(c, n - 1) + Pause(c, true, n)
  }

  lemma {:induction false} SleptIsBackoff(c: ReliabilityConfig, n: nat)
    requires 1 <= n <= c.MaxAttempts()
    ensures Slept(c, n) + RetryPolicy.TotalBackoff(c, c.MaxAttempts() - n) ==
            RetryPolicy.TotalBackoff(c, c.MaxRetries())
  {
    if n > 1 {
      SleptIsBackoff(c, n - 1);
    }
  }

  function Rest(c: ReliabilityConfig, backsOff: bool, left: nat): nat
    requires left <= c.MaxAttempts()
  {
    if backsOff then Slept(c, left) else 0
  }

  lemma RestStep(c: ReliabilityConfig, backsOff: bool, left: nat)
    requires 1 < left <= c.MaxAttempts()
    ensures Rest(c, backsOff, left) == Rest(c, backsOff, left - 1) + Pause(c, backsOff, left)
  {
  }

  /** Time from the opening to the next admission: the cooldown, and the end of the request. */
  function Cost(c: ReliabilityConfig, w: Window): nat {
    if w.sleep < c.Cooldown() then c.Cooldown() else w.sleep
  }

  function TotalCost(c: ReliabilityConfig, plan: seq<Window>): nat {
    if plan == [] then 0 else TotalCost(c, Init(plan)) + Cost(c, Last(plan))
  }

  function TotalCalls(plan: seq<Window>): nat {
    if plan == [] then 0 else TotalCalls(Init(plan)) + Last(plan).calls
  }

  lemma PlanGrows(c: ReliabilityConfig, plan: seq<Window>, w: Window)
    ensures TotalCost(c, plan + [w]) == TotalCost(c, plan) + Cost(c, w)
    ensures TotalCalls(plan + [w]) == TotalCalls(plan) + w.calls
    ensures Init(plan + [w]) == plan && Last(plan + [w]) == w
  {
    assert Init(plan + [w]) == plan;
  }

  /** A window of some request: its last attempts, slept between or not. */
  predicate IsWindow(c: ReliabilityConfig, w: Window) {
    1 <= w.calls <= c.MaxAttempts() && w.sleep in {0, Slept(c, w.calls)}
  }

  /** The first window may start in the middle of a retry loop whose earlier attempts stayed below the threshold;
      every later one is a whole request. */
  predicate Admissible(c: ReliabilityConfig, plan: seq<Window>) {
    forall i :: 0 <= i < |plan| ==>
      && IsWindow(c, plan[i])
      && (i == 0 ==> plan[i].calls == 1 || c.MaxAttempts() - plan[i].calls < c.Threshold())
      && (i > 0 ==> plan[i].calls in {1, c.MaxAttempts()})
  }

  lemma AdmissibleGrows(c: ReliabilityConfig, plan: seq<Window>, w: Window)
    requires Admissible(c, plan) && IsWindow(c, w)
    requires plan == [] ==> w.calls == 1 || c.MaxAttempts() - w.calls < c.Threshold()
    requires plan != [] ==> w.calls in {1, c.MaxAttempts()}
    ensures Admissible(c, plan + [w])
  {
  }

  function WindowOf(c: ReliabilityConfig, kind: Kind): Window {
    Window(Attempts(c, kind), Rest(c, kind == Read(true), Attempts(c, kind)))
  }

  /** The window that a move opens: a probe on admission, the first outage when the breaker first opens. */
  ghost function Opened(c: ReliabilityConfig, s: System, m: Move): seq<Window>
    requires Enabled(s, m) && AllBounded(c, s)
  {
    match m
    case Ask(_, at, kind) =>
      if s.device.circuit.state == Open && Allows(s.device.circuit, c.Cooldown(), at) then [WindowOf(c, kind)] else []
    case Send(_, _) => []
    case Succeed(_, _, _, _) => []
    case Fail(who, _, _, _, _) =>
      assert CallerBounded(c, s.callers[who]);
      if s.device.circuit.state == Closed && Next(c, s, m).device.circuit.state == Open
      then [Window(s.callers[who].left, Rest(c, s.callers[who].backsOff, s.callers[who].left))] else []
  }

  /** The windows of a run, in order. */
  ghost function Plan(c: ReliabilityConfig, start: System, moves: seq<Move>): seq<Window>
    requires IsRun(c, start, moves) && AllBounded(c, start)
  {
    if moves == [] then []
    else
      BoundedHold(c, start, Init(moves));
      Plan(c, start, Init(moves)) + Opened(c, After(c, start, Init(moves)), Last(moves))
  }

  /** No attempt of the caller begins before the breaker has been open for as long as its request has slept. */
  ghost predicate OnTime(c: ReliabilityConfig, caller: Caller, opened_: nat, sleep: nat, now: nat) {
    match caller
    case Idle => now >= opened_ + sleep
    case Ready(left, backsOff, notBefore) =>
      left <= c.MaxAttempts() && notBefore + Rest(c, backsOff, left) >= opened_ + sleep
    case InFlight(left, backsOff) =>
      left <= c.MaxAttempts() && now + Rest(c, backsOff, left) >= opened_ + sleep
  }

  /** The bookkeeping of one caller's run: its calls are those of its windows, and its windows took their time. */
  ghost predicate Ledger(c: ReliabilityConfig, s: System, first: Option<nat>, admission: nat, plan: seq<Window>,
                         now: nat)
    requires |s.callers| == 1
  {
    var caller, failures, circuit := s.callers[0], s.device.consecutiveFailures, s.device.circuit;
    && CallerBounded(c, caller) && Admissible(c, plan) && admission <= now
    && match circuit.state
       case Closed =>
         && plan == [] && first.None? && failures < c.Threshold()
         && (!caller.Idle? ==> caller.left == 1 || c.MaxAttempts() - caller.left <= failures)
       case Open =>
         && plan != [] && first.Some? && failures >= c.Threshold()
         && failures + Outstanding(caller) == c.Threshold() - 1 + TotalCalls(plan)
         && circuit.openedAt >= first.value + TotalCost(c, Init(plan)) && circuit.openedAt <= now
         && (|plan| >= 2 ==> admission >= first.value + TotalCost(c, Init(plan)))
         && OnTime(c, caller, circuit.openedAt, Last(plan).sleep, now)
       case HalfOpen =>
         && |plan| >= 2 && first.Some? && failures >= c.Threshold() && !caller.Idle?
         && failures + Outstanding(caller) == c.Threshold() - 1 + TotalCalls(plan)
         && admission >= first.value + TotalCost(c, Init(plan))
         && Rest(c, caller.backsOff, caller.left) == Last(plan).sleep
  }

  /** A probe comes after the cooldown and after the request of the latest window. */
  lemma ProbeOnTime(
    c: ReliabilityConfig, s: System, m: Move, first: Option<nat>, admission: nat, plan: seq<Window>, now: nat)
    requires |s.callers| == 1 && Enabled(s, m) && m.Ask? && now <= m.at
    requires Ledger(c, s, first, admission, plan, now)
    requires s.device.circuit.state == Open && Allows(s.device.circuit, c.Cooldown(), m.at)
    ensures m.at >= first.value + TotalCost(c, plan)
  {
  }

  lemma ProbeKeepsLedger(
    c: ReliabilityConfig, s: System, m: Move, first: Option<nat>, admission: nat, plan: seq<Window>, now: nat)
    requires |s.callers| == 1 && Enabled(s, m) && m.Ask? && now <= m.at
    requires Ledger(c, s, first, admission, plan, now)
    requires s.device.circuit.state == Open && Allows(s.device.circuit, c.Cooldown(), m.at)
    ensures Ledger(c, Next(c, s, m), first, m.at, plan + [WindowOf(c, m.kind)], m.at)
  {
    ProbeOnTime(c, s, m, first, admission, plan, now);
    PlanGrows(c, plan, WindowOf(c, m.kind));
    AdmissibleGrows(c, plan, WindowOf(c, m.kind));
  }

  lemma AskKeepsLedger(
    c: ReliabilityConfig, s: System, m: Move, first: Option<nat>, admission: nat, plan: seq<Window>, now: nat)
    requires |s.callers| == 1 && Enabled(s, m) && m.Ask? && now <= m.at
    requires Ledger(c, s, first, admission, plan, now)
    ensures var granted := Allows(s.device.circuit, c.Cooldown(), m.at);
            Ledger(c, Next(c, s, m), first, if granted then m.at else admission, plan + Opened(c, s, m), m.at)
  {
    if s.device.circuit.state == Open && Allows(s.device.circuit, c.Cooldown(), m.at) {
      ProbeKeepsLedger(c, s, m, first, admission, plan, now);
    } else {
      assert plan + Opened(c, s, m) == plan;
    }
  }

  lemma SendKeepsLedger(c: ReliabilityConfig, s: System, m: Move, first: Option<nat>, admission: nat,
                        plan: seq<Window>, now: nat)
    requires |s.callers| == 1 && Enabled(s, m) && m.Send? && now <= m.at
    requires Ledger(c, s, first, admission, plan, now)
    ensures Ledger(c, Next(c, s, m), first, admission, plan + Opened(c, s, m), m.at)
  {
    assert plan + Opened(c, s, m) == plan;
  }

  /** What the caller still owes the breaker after a failed attempt. */
  lemma FailureOnTime(c: ReliabilityConfig, caller: Caller, at: nat)
    requires caller.InFlight? && 1 <= caller.left <= c.MaxAttempts()
    ensures OnTime(c, AfterFailure(c, caller, at), at, Rest(c, caller.backsOff, caller.left), at)
  {
    if caller.left > 1 {
      RestStep(c, caller.backsOff, caller.left);
    }
  }

  /** A failure below the threshold. */
  lemma EarlyFailure(
    c: ReliabilityConfig, s: System, m: Move, first: Option<nat>, admission: nat, plan: seq<Window>, now: nat)
    requires |s.callers| == 1 && Enabled(s, m) && m.Fail? && now <= m.at && s.device.circuit.state == Closed
    requires Ledger(c, s, first, admission, plan, now) && s.device.consecutiveFailures + 1 < c.Threshold()
    ensures Next(c, s, m).device.circuit.state == Closed && Ledger(c, Next(c, s, m), first, admission, plan, m.at)
  {
  }

  lemma OpeningNext(c: ReliabilityConfig, s: System, m: Move)
    requires |s.callers| == 1 && Enabled(s, m) && m.Fail? && s.device.circuit.state == Closed
    requires s.device.consecutiveFailures + 1 >= c.Threshold()
    ensures var t := Next(c, s, m);
            && t.device.circuit == Circuit(Open, m.at) && t.callers == [AfterFailure(c, s.callers[0], m.at)]
            && t.device.consecutiveFailures == s.device.consecutiveFailures + 1
  {
    assert s.callers == [s.callers[0]];
  }

  /** The first window alone. */
  lemma SingleWindow(c: ReliabilityConfig, w: Window)
    requires IsWindow(c, w) && (w.calls == 1 || c.MaxAttempts() - w.calls < c.Threshold())
    ensures Admissible(c, [w]) && TotalCalls([w]) == w.calls && TotalCost(c, Init([w])) == 0 && Last([w]) == w
  {
    PlanGrows(c, [], w);
    AdmissibleGrows(c, [], w);
    assert [] + [w] == [w];
  }

  /** The failure that opens the breaker for the first time. */
  lemma OpeningFailure(
    c: ReliabilityConfig, s: System, m: Move, first: Option<nat>, admission: nat, plan: seq<Window>, now: nat)
    requires |s.callers| == 1 && Enabled(s, m) && m.Fail? && now <= m.at && s.device.circuit.state == Closed
    requires Ledger(c, s, first, admission, plan, now) && s.device.consecutiveFailures + 1 >= c.Threshold()
    ensures var caller := s.callers[0];
            var w := Window(caller.left, Rest(c, caller.backsOff, caller.left));
            && plan == [] && Next(c, s, m).device.circuit == Circuit(Open, m.at)
            && Ledger(c, Next(c, s, m), Some(m.at), admission, [w], m.at)
  {
    var caller := s.callers[0];
    FailureOnTime(c, caller, m.at);
    OpeningNext(c, s, m);
    SingleWindow(c, Window(caller.left, Rest(c, caller.backsOff, caller.left)));
  }

  lemma OpenedByFailure(c: ReliabilityConfig, s: System, m: Move)
    requires Enabled(s, m) && AllBounded(c, s) && m.Fail? && s.device.circuit.state == Closed
    ensures var caller := s.callers[m.who];
            && CallerBounded(c, caller)
            && Opened(c, s, m) ==
               if s.device.consecutiveFailures + 1 >= c.Threshold()
               then [Window(caller.left, Rest(c, caller.backsOff, caller.left))] else []
  {
    assert CallerBounded(c, s.callers[m.who]);
  }

  lemma NothingAdded(plan: seq<Window>)
    ensures plan + [] == plan && [] + plan == plan
  {
  }

  lemma FirstFailure(
    c: ReliabilityConfig, s: System, m: Move, first: Option<nat>, admission: nat, plan: seq<Window>, now: nat)
    requires |s.callers| == 1 && Enabled(s, m) && m.Fail? && now <= m.at && s.device.circuit.state == Closed
    requires Ledger(c, s, first, admission, plan, now)
    ensures var t := Next(c, s, m);
            Ledger(c, t, if t.device.circuit.state == Open then Some(m.at) else first, admission,
                   plan + Opened(c, s, m), m.at)
  {
    OpenedByFailure(c, s, m);
    if s.device.consecutiveFailures + 1 < c.Threshold() {
      EarlyFailure(c, s, m, first, admission, plan, now);
      NothingAdded(plan);
    } else {
      OpeningFailure(c, s, m, first, admission, plan, now);
      NothingAdded(Opened(c, s, m));
    }
  }

  lemma LaterFailure(
    c: ReliabilityConfig, s: System, m: Move, first: Option<nat>, admission: nat, plan: seq<Window>, now: nat)
    requires |s.callers| == 1 && Enabled(s, m) && m.Fail? && now <= m.at && s.device.circuit.state != Closed
    requires Ledger(c, s, first, admission, plan, now)
    ensures Ledger(c, Next(c, s, m), first, admission, plan, m.at)
  {
    var caller := s.callers[0];
    if caller.left > 1 {
      RestStep(c, caller.backsOff, caller.left);
    }
  }

  lemma FailKeepsLedger(
    c: ReliabilityConfig, s: System, m: Move, first: Option<nat>, admission: nat, plan: seq<Window>, now: nat)
    requires |s.callers| == 1 && Enabled(s, m) && m.Fail? && now <= m.at
    requires Ledger(c, s, first, admission, plan, now)
    ensures var t := Next(c, s, m);
            Ledger(c, t, if first.None? && t.device.circuit.state == Open then Some(m.at) else first, admission,
                   plan + Opened(c, s, m), m.at)
  {
    if s.device.circuit.state == Closed {
      FirstFailure(c, s, m, first, admission, plan, now);
    } else {
      LaterFailure(c, s, m, first, admission, plan, now);
      assert plan + Opened(c, s, m) == plan;
    }
  }

  /** The start of an outage with no request under way: the breaker is Closed and no failure is recorded. */
  ghost predicate Quiet(start: System) {
    && (forall i :: 0 <= i < |start.callers| ==> start.callers[i].Idle?)
    && start.device.circuit.state == Closed && start.device.consecutiveFailures == 0
  }

  /** The same with a single caller. */
  ghost predicate Alone(start: System) {
    Quiet(start) && |start.callers| == 1
  }

  /** The ledger of a run. */
  ghost predicate Kept(c: ReliabilityConfig, start: System, moves: seq<Move>)
    requires IsRun(c, start, moves) && AllBounded(c, start)
  {
    && |After(c, start, moves).callers| == 1
    && Ledger(c, After(c, start, moves), FirstOpening(c, start, moves), LastAdmission(c, start, moves),
              Plan(c, start, moves), if moves == [] then 0 else Last(moves).at)
  }

  lemma {:induction false} LedgerHolds(c: ReliabilityConfig, start: System, moves: seq<Move>)
    requires Alone(start) && IsRun(c, start, moves) && NoSuccess(moves)
    ensures Kept(c, start, moves)
  {
    if moves != [] {
      NoSuccessByParts(moves);
      LedgerHolds(c, start, Init(moves));
      LedgerStep(c, start, moves);
    }
  }

  lemma LedgerStep(c: ReliabilityConfig, start: System, moves: seq<Move>)
    requires moves != [] && IsRun(c, start, moves) && AllBounded(c, start) && !Last(moves).Succeed?
    requires Kept(c, start, Init(moves))
    ensures Kept(c, start, moves)
  {
    var before, m := Init(moves), Last(moves);
    MoveKeepsLedger(c, After(c, start, before), m, FirstOpening(c, start, before), LastAdmission(c, start, before),
                    Plan(c, start, before), if before == [] then 0 else Last(before).at);
  }

  lemma MoveKeepsLedger(
    c: ReliabilityConfig, s: System, m: Move, first: Option<nat>, admission: nat, plan: seq<Window>, now: nat)
    requires |s.callers| == 1 && Enabled(s, m) && !m.Succeed? && now <= m.at
    requires Ledger(c, s, first, admission, plan, now)
    ensures var t, granted := Next(c, s, m), m.Ask? && Allows(s.device.circuit, c.Cooldown(), m.at);
            && |t.callers| == 1
            && Ledger(c, t, if first.None? && t.device.circuit.state == Open then Some(m.at) else first,
                      if granted then m.at else admission, plan + Opened(c, s, m), m.at)
  {
    match m
    case Ask(_, _, _) =>
      OpensNothing(c, s, m, first, admission, plan, now);
      AskKeepsLedger(c, s, m, first, admission, plan, now);
    case Send(_, _) =>
      OpensNothing(c, s, m, first, admission, plan, now);
      SendKeepsLedger(c, s, m, first, admission, plan, now);
    case Fail(_, _, _, _, _) => FailKeepsLedger(c, s, m, first, admission, plan, now);
  }

  lemma OpensNothing(
    c: ReliabilityConfig, s: System, m: Move, first: Option<nat>, admission: nat, plan: seq<Window>, now: nat)
    requires |s.callers| == 1 && Enabled(s, m) && (m.Ask? || m.Send?) && Ledger(c, s, first, admission, plan, now)
    ensures Next(c, s, m).device.circuit.state == Open ==> first.Some?
  {
  }

  /** Every read of the run sleeps between its attempts, as reads do on a device with variables. */
  predicate AllBackOff(moves: seq<Move>) {
    forall i :: 0 <= i < |moves| ==> moves[i].Ask? ==> moves[i].kind != Read(false)
  }

  predicate Sleeps(c: ReliabilityConfig, plan: seq<Window>) {
    forall i :: 0 <= i < |plan| ==> 1 <= plan[i].calls <= c.MaxAttempts() && plan[i].sleep == Slept(c, plan[i].calls)
  }

  /** A caller that backs off, or has one attempt left. */
  predicate Dozing(caller: Caller) {
    caller.Idle? || caller.backsOff || caller.left == 1
  }

  lemma {:induction false} BackOffShows(c: ReliabilityConfig, start: System, moves: seq<Move>)
    requires Alone(start) && IsRun(c, start, moves) && AllBackOff(moves)
    ensures |After(c, start, moves).callers| == 1 && Dozing(After(c, start, moves).callers[0])
    ensures Sleeps(c, Plan(c, start, moves))
  {
    if moves != [] {
      assert forall i :: 0 <= i < |Init(moves)| ==> Init(moves)[i] == moves[i];
      assert Last(moves) == moves[|moves| - 1];
      BackOffShows(c, start, Init(moves));
      BoundedHold(c, start, Init(moves));
      OpenedSleeps(c, After(c, start, Init(moves)), Last(moves));
    }
  }

  lemma OpenedSleeps(c: ReliabilityConfig, s: System, m: Move)
    requires |s.callers| == 1 && Enabled(s, m) && CallerBounded(c, s.callers[0]) && Dozing(s.callers[0])
    requires m.Ask? ==> m.kind != Read(false)
    ensures Dozing(Next(c, s, m).callers[0]) && Sleeps(c, Opened(c, s, m))
  {
  }

  /** What the windows of a run cost, and what they load the connector with, from the first opening on. */
  ghost predicate Accounted(c: ReliabilityConfig, start: System, moves: seq<Move>, plan: seq<Window>)
    requires IsRun(c, start, moves)
  {
    var calls, first := CallsMade(c, start, moves), FirstOpening(c, start, moves);
    && Admissible(c, plan)
    && (plan == [] ==> calls <= c.Threshold())
    && (plan != [] ==> first.Some? && calls <= c.Threshold() - 1 + TotalCalls(plan))
    && (|plan| >= 2 ==> LastAdmission(c, start, moves) >= first.value + TotalCost(c, Init(plan)))
  }

  /** Every sequential run on a dead device, from any record without failures, is accounted for by its windows; each
      but the last takes at least the cooldown and at least the sleep of its request. */
  lemma LoadByWindows(c: ReliabilityConfig, start: System, moves: seq<Move>)
    requires Alone(start) && IsRun(c, start, moves) && NoSuccess(moves)
    ensures Accounted(c, start, moves, Plan(c, start, moves))
    ensures AllBackOff(moves) ==> Sleeps(c, Plan(c, start, moves))
  {
    LedgerHolds(c, start, moves);
    LeadHolds(c, start, moves);
    OneCaller(start);
    OneCaller(After(c, start, moves));
    if AllBackOff(moves) {
      BackOffShows(c, start, moves);
    }
  }

  lemma OneCaller(s: System)
    requires |s.callers| == 1
    ensures Sum(Flying, s.callers) == Flying(s.callers[0])
  {
    assert s.callers[1..] == [];
  }
}
