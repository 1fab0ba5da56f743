/** A request of the connection manager, seen as the moves of one caller. */
module RequestMoves {
  import opened Config
  import opened ConnectionManager
  import opened DeviceState
  import opened OutageLoad

  /** The move that records an answer of the connector. */
  function Answer(who: nat, r: Reply): Move {
    if r.ok then Succeed(who, r.at, r.attempts, r.latencyMs) else Fail(who, r.at, r.error, r.attempts, r.latencyMs)
  }

  function AttemptMoves(who: nat, replies: seq<Reply>): seq<Move> {
    if replies == [] then []
    else
      [Send(who, replies[0].sentAt), Answer(who, replies[0])] +
      if replies[0].ok then [] else AttemptMoves(who, replies[1..])
  }

  /** Every attempt is answered after it is sent, and the next one is sent after the backoff, if there is one. */
  predicate Timely(c: ReliabilityConfig, backsOff: bool, from: nat, replies: seq<Reply>)
    decreases replies
  {
    replies == [] ||
    (&& from <= replies[0].sentAt <= replies[0].at
     && (replies[0].ok || Timely(c, backsOff, replies[0].at + Pause(c, backsOff, |replies|), replies[1..])))
  }

  ghost predicate LeadsTo(c: ReliabilityConfig, start: System, moves: seq<Move>, s: System, at: nat) {
    IsRun(c, start, moves) && After(c, start, moves) == s && (moves != [] ==> Last(moves).at <= at)
  }

  lemma MoveLeads(c: ReliabilityConfig, start: System, moves: seq<Move>, s: System, m: Move)
    requires LeadsTo(c, start, moves, s, m.at) && Enabled(s, m)
    ensures LeadsTo(c, start, moves + [m], Next(c, s, m), m.at)
  {
    Grow(c, start, moves, m);
  }

  function Attempted(c: ReliabilityConfig, s: System, who: nat, r: Reply): System
    requires who < |s.callers| && s.callers[who].Ready?
  {
    var sent := InFlight(s.callers[who].left, s.callers[who].backsOff);
    System(AfterAttempt(c, s.device, r), s.callers[who := if r.ok then Idle else AfterFailure(c, sent, r.at)],
           s.calls + 1)
  }

  /** One attempt is a send followed by its answer. */
  lemma AttemptLeads(c: ReliabilityConfig, start: System, moves: seq<Move>, s: System, who: nat, r: Reply)
    requires who < |s.callers| && s.callers[who].Ready? && s.callers[who].notBefore <= r.sentAt <= r.at
    requires LeadsTo(c, start, moves, s, r.sentAt)
    ensures LeadsTo(c, start, moves + AttemptMoves(who, [r]), Attempted(c, s, who, r), r.at)
  {
    var send, answer := Send(who, r.sentAt), Answer(who, r);
    var sent := Next(c, s, send);
    MoveLeads(c, start, moves, s, send);
    MoveLeads(c, start, moves + [send], sent, answer);
    MovesOfOne(who, r);
    assert moves + AttemptMoves(who, [r]) == moves + [send] + [answer];
    assert Next(c, sent, answer).callers == Attempted(c, s, who, r).callers;
  }

  lemma MovesOfOne(who: nat, r: Reply)
    ensures AttemptMoves(who, [r]) == [Send(who, r.sentAt), Answer(who, r)]
  {
    assert AttemptMoves(who, [r][1..]) == [];
  }

  lemma MovesStep(moves: seq<Move>, who: nat, replies: seq<Reply>)
    requires replies != [] && !replies[0].ok
    ensures moves + AttemptMoves(who, replies) ==
            (moves + AttemptMoves(who, [replies[0]])) + AttemptMoves(who, replies[1..])
  {
    var one := AttemptMoves(who, [replies[0]]);
    MovesOfOne(who, replies[0]);
    assert AttemptMoves(who, replies) == one + AttemptMoves(who, replies[1..]);
    JoinMoves(moves, one, AttemptMoves(who, replies[1..]));
  }

  lemma JoinMoves(a: seq<Move>, b: seq<Move>, c: seq<Move>)
    ensures a + (b + c) == (a + b) + c
  {
  }

  function AfterLoop(c: ReliabilityConfig, s: System, who: nat, replies: seq<Reply>): System
    requires who < |s.callers| && replies != []
  {
    System(Retried(c, s.device, replies), s.callers[who := Idle], s.calls + Used(replies))
  }

  /** The attempt that ends the loop: a success, or the last one. */
  lemma LoopEnd(c: ReliabilityConfig, s: System, who: nat, replies: seq<Reply>)
    requires who < |s.callers| && s.callers[who].Ready? && replies != [] && s.callers[who].left == |replies|
    requires replies[0].ok || |replies| == 1
    ensures Attempted(c, s, who, replies[0]) == AfterLoop(c, s, who, replies)
    ensures AttemptMoves(who, replies) == AttemptMoves(who, [replies[0]])
  {
    MovesOfOne(who, replies[0]);
    if !replies[0].ok {
      assert replies[1..] == [];
      assert Retried(c, s.device, replies) == Retried(c, AfterAttempt(c, s.device, replies[0]), []);
    }
  }

  lemma LoopStep(c: ReliabilityConfig, s: System, who: nat, replies: seq<Reply>)
    requires who < |s.callers| && s.callers[who].Ready? && |replies| > 1 && !replies[0].ok
    ensures AfterLoop(c, Attempted(c, s, who, replies[0]), who, replies[1..]) == AfterLoop(c, s, who, replies)
  {
    var after := Attempted(c, s, who, replies[0]).callers;
    assert after[who := Idle] == s.callers[who := Idle];
  }

  lemma ReadyAgain(c: ReliabilityConfig, s: System, who: nat, r: Reply)
    requires who < |s.callers| && s.callers[who].Ready? && s.callers[who].left > 1 && !r.ok
    ensures var caller := s.callers[who];
            Attempted(c, s, who, r).callers[who] ==
            Ready(caller.left - 1, caller.backsOff, r.at + Pause(c, caller.backsOff, caller.left))
  {
  }

  /** When the loop ends. */
  function EndOfLoop(replies: seq<Reply>): nat
    requires replies != []
  {
    replies[Used(replies) - 1].at
  }

  /** The caller is about to go through these replies. */
  predicate Looping(c: ReliabilityConfig, s: System, who: nat, replies: seq<Reply>) {
    && who < |s.callers| && replies != [] && s.callers[who].Ready? && s.callers[who].left == |replies|
    && Timely(c, s.callers[who].backsOff, s.callers[who].notBefore, replies)
  }

  lemma LoopsOn(c: ReliabilityConfig, s: System, who: nat, replies: seq<Reply>)
    requires Looping(c, s, who, replies) && |replies| > 1 && !replies[0].ok
    ensures Looping(c, Attempted(c, s, who, replies[0]), who, replies[1..])
    ensures replies[0].at <= Attempted(c, s, who, replies[0]).callers[who].notBefore
  {
    ReadyAgain(c, s, who, replies[0]);
  }

  lemma LoopGoesOn(c: ReliabilityConfig, start: System, moves: seq<Move>, s: System, who: nat, replies: seq<Reply>)
    requires Looping(c, s, who, replies) && |replies| > 1 && !replies[0].ok
    requires LeadsTo(c, start, moves + AttemptMoves(who, [replies[0]]) + AttemptMoves(who, replies[1..]),
                     AfterLoop(c, Attempted(c, s, who, replies[0]), who, replies[1..]), EndOfLoop(replies[1..]))
    ensures LeadsTo(c, start, moves + AttemptMoves(who, replies), AfterLoop(c, s, who, replies), EndOfLoop(replies))
  {
    MovesStep(moves, who, replies);
    LoopStep(c, s, who, replies);
  }

  lemma {:induction false} LoopLeads(
    c: ReliabilityConfig, start: System, moves: seq<Move>, s: System, who: nat, replies: seq<Reply>, at: nat)
    requires Looping(c, s, who, replies)
    requires at <= s.callers[who].notBefore && LeadsTo(c, start, moves, s, at)
    ensures LeadsTo(c, start, moves + AttemptMoves(who, replies), AfterLoop(c, s, who, replies), EndOfLoop(replies))
    decreases replies
  {
    AttemptLeads(c, start, moves, s, who, replies[0]);
    if replies[0].ok || |replies| == 1 {
      LoopEnd(c, s, who, replies);
    } else {
      var next := Attempted(c, s, who, replies[0]);
      LoopsOn(c, s, who, replies);
      LoopLeads(c, start, moves + AttemptMoves(who, [replies[0]]), next, who, replies[1..], replies[0].at);
      LoopGoesOn(c, start, moves, s, who, replies);
    }
  }

  /** The moves of one request; it goes on to its attempts if it is let through. */
  function RequestMoves(admitted: bool, who: nat, now: nat, replies: seq<Reply>, kind: Kind): seq<Move> {
    [Ask(who, now, kind)] + if admitted then AttemptMoves(who, replies) else []
  }

  function Requested(c: ReliabilityConfig, s: System, id: string, now: nat, replies: seq<Reply>): System
    requires replies != []
  {
    System(Replay(c, s.device, RequestSteps(c, s.device, id, true, now, replies)), s.callers,
           s.calls + if Allows(s.device.circuit, c.Cooldown(), now) then Used(replies) else 0)
  }

  lemma ReplayOfRequest(c: ReliabilityConfig, s: ManagedState, id: string, now: nat, replies: seq<Reply>)
    ensures Replay(c, s, RequestSteps(c, s, id, true, now, replies)) ==
            if Allows(s.circuit, c.Cooldown(), now) then Retried(c, Apply(c, s, Admit(now)), replies)
              else Apply(c, s, Admit(now))
  {
    ReplayAttempt(c, s, Admit(now), Admit(now), []);
    RequestOutcome(c, s, id, true, now, replies);
  }

  lemma AdmittedRequest(c: ReliabilityConfig, s: System, who: nat, id: string, now: nat, replies: seq<Reply>,
                        kind: Kind)
    requires who < |s.callers| && s.callers[who].Idle? && Allows(s.device.circuit, c.Cooldown(), now)
    requires replies != [] && |replies| == Attempts(c, kind)
    ensures AfterLoop(c, Next(c, s, Ask(who, now, kind)), who, replies) == Requested(c, s, id, now, replies)
  {
    ReplayOfRequest(c, s.device, id, now, replies);
    assert s.callers[who := Ready(|replies|, kind == Read(true), now)][who := Idle] == s.callers;
  }

  lemma RefusedRequest(c: ReliabilityConfig, s: System, who: nat, id: string, now: nat, replies: seq<Reply>, kind: Kind)
    requires who < |s.callers| && s.callers[who].Idle? && !Allows(s.device.circuit, c.Cooldown(), now)
    requires replies != []
    ensures Next(c, s, Ask(who, now, kind)) == Requested(c, s, id, now, replies)
  {
    ReplayOfRequest(c, s.device, id, now, replies);
  }

  /** From any system and whatever other callers did since, a request is a run of its caller's moves: the device ends
      as the request leaves it, and each of its connector calls is counted, be it a failure or a success. */
  lemma RequestIsRun(c: ReliabilityConfig, start: System, moves: seq<Move>, s: System, who: nat, id: string, now: nat,
                     replies: seq<Reply>, kind: Kind)
    requires LeadsTo(c, start, moves, s, now) && who < |s.callers| && s.callers[who].Idle?
    requires replies != [] && |replies| == Attempts(c, kind) && Timely(c, kind == Read(true), now, replies)
    ensures var longer := moves + RequestMoves(Allows(s.device.circuit, c.Cooldown(), now), who, now, replies, kind);
            IsRun(c, start, longer) && After(c, start, longer) == Requested(c, s, id, now, replies)
  {
    if Allows(s.device.circuit, c.Cooldown(), now) {
      AdmittedIsRun(c, start, moves, s, who, now, replies, kind);
      AdmittedRequest(c, s, who, id, now, replies, kind);
    } else {
      RefusedIsRun(c, start, moves, s, who, now, replies, kind);
      RefusedRequest(c, s, who, id, now, replies, kind);
    }
  }

  lemma AskedIsLooping(c: ReliabilityConfig, s: System, who: nat, now: nat, replies: seq<Reply>, kind: Kind)
    requires who < |s.callers| && s.callers[who].Idle? && Allows(s.device.circuit, c.Cooldown(), now)
    requires replies != [] && |replies| == Attempts(c, kind) && Timely(c, kind == Read(true), now, replies)
    ensures var asked := Next(c, s, Ask(who, now, kind));
            Looping(c, asked, who, replies) && asked.callers[who].notBefore == now
  {
  }

  lemma AdmittedIsRun(c: ReliabilityConfig, start: System, moves: seq<Move>, s: System, who: nat, now: nat,
                      replies: seq<Reply>, kind: Kind)
    requires LeadsTo(c, start, moves, s, now) && who < |s.callers| && s.callers[who].Idle?
    requires replies != [] && |replies| == Attempts(c, kind) && Timely(c, kind == Read(true), now, replies)
    requires Allows(s.device.circuit, c.Cooldown(), now)
    ensures var longer := moves + RequestMoves(true, who, now, replies, kind);
            && IsRun(c, start, longer)
            && After(c, start, longer) == AfterLoop(c, Next(c, s, Ask(who, now, kind)), who, replies)
  {
    var ask := Ask(who, now, kind);
    MoveLeads(c, start, moves, s, ask);
    AskedIsLooping(c, s, who, now, replies, kind);
    JoinMoves(moves, [ask], AttemptMoves(who, replies));
    LoopLeads(c, start, moves + [ask], Next(c, s, ask), who, replies, now);
  }

  lemma RefusedIsRun(c: ReliabilityConfig, start: System, moves: seq<Move>, s: System, who: nat, now: nat,
                     replies: seq<Reply>, kind: Kind)
    requires LeadsTo(c, start, moves, s, now) && who < |s.callers| && s.callers[who].Idle?
    ensures var longer := moves + RequestMoves(false, who, now, replies, kind);
            IsRun(c, start, longer) && After(c, start, longer) == Next(c, s, Ask(who, now, kind))
  {
    MoveLeads(c, start, moves, s, Ask(who, now, kind));
    assert moves + RequestMoves(false, who, now, replies, kind) == moves + [Ask(who, now, kind)];
  }
}
