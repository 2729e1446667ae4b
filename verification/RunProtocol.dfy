/**
  Every run of the orchestrator loop, seen through its slot callbacks, is a path of the session
  it runs in: a chain of plans of the slot protocol.
 */
module RunProtocol {
  import opened Wrappers
  import opened Messages
  import opened Orchestrate
  import opened OrchestrateProperties
  import opened SlotSafety
  import P = SlotProtocol
  import Q = PrioritySemaphore
  import Runs

  // ---------------------------------------------------------------------------
  // Callbacks as moves
  // ---------------------------------------------------------------------------

  // What happens to one session: a move of its own whose section served it or not, or its channel
  // is closed while it waits.
  datatype Local = Moves(move: P.Move, served: bool) | Granted

  function LocalNext(cfg: P.Config, i: nat, x: P.Session, l: Local): Option<P.Session> {
    match l
    case Granted => if x.pc.Waiting? && !x.granted then Some(x.(granted := true)) else None
    case Moves(move, served) =>
      match P.MovePlan(cfg, i, x, false, move)
      case None => None
      case Some(p) => Some(if served then p.yes else p.no)
  }

  // The move releases a slot the session does not own.
  predicate Strays(cfg: P.Config, i: nat, x: P.Session, l: Local) {
    l.Moves? && match P.MovePlan(cfg, i, x, false, l.move)
      case None => false
      case Some(p) => Q.GivesBack(p.op) && P.Owns(x, p.b) == 0
  }

  datatype Walk = Walk(x: P.Session, strays: nat)

  // One step, through sessions in shape only, counting those that stray
  function WalkNext(cfg: P.Config, i: nat, w: Walk, l: Local): Option<Walk> {
    match LocalNext(cfg, i, w.x, l)
    case None => None
    case Some(y) => if Bracket(y) then Some(Walk(y, w.strays + Q.B(Strays(cfg, i, w.x, l)))) else None
  }

  function Walker(cfg: P.Config, i: nat): (Walk, Local) -> Option<Walk> {
    (w: Walk, l: Local) => WalkNext(cfg, i, w, l)
  }

  // Where the steps lead
  function Follow(cfg: P.Config, i: nat, w: Walk, ls: seq<Local>): Option<Walk> {
    Runs.Run(Walker(cfg, i), w, ls)
  }

  // The session after one callback: a new round after a tool needs a live context, a second tool
  // call in a round is a fallback, and a reacquire fails only when the context of an engine loop
  // is done.
  function NextSession(x: P.Session, e: Event, fallbacks: bool): Option<P.Session> {
    match e
    case Chatted(ok) =>
      if x.pc.Chatting? || (x.pc.ToolEnded? && !ok) then Some(x)
      else if x.pc.ToolEnded? && !x.ctxDone then Some(x.(pc := P.Chatting))
      else None
    case ToolStarted(_) =>
      if x.pc.Chatting? || (x.pc.ToolEnded? && fallbacks)
      then Some(x.(pc := P.ToolRunning, acquired := false, holds := false)) else None
    case ToolFinished(ok) =>
      if !x.pc.ToolRunning? then None
      else if ok then Some(x.(pc := P.ToolEnded, acquired := true, holds := x.choice.On?))
      else if MayFail(x) then Some(x.(pc := P.ToolEnded, ctxDone := true))
      else None
  }

  predicate MayFail(x: P.Session) { x.kind.EngineLoop? && x.choice.On? }

  // The moves behind one callback; `waits`: the reacquire has to queue.
  function EventPath(x: P.Session, e: Event, waits: bool): seq<Local> {
    match e
    case Chatted(ok) => if x.pc.ToolEnded? && ok then [Moves(P.NextRound, true)] else []
    case ToolStarted(_) => [Moves(if x.pc.Chatting? then P.ToolStart else P.Fallback, true)]
    case ToolFinished(true) =>
      if waits && x.choice.On? then [Moves(P.ToolEnd, false)] + [Granted] + [Moves(P.Wake, true)]
      else [Moves(P.ToolEnd, true)]
    case ToolFinished(false) =>
      [Moves(P.ToolEnd, false)] + [Moves(P.CtxDone, true)] + [Moves(P.AbandonWait, true)] + [Moves(P.Unreserve, true)]
  }

  predicate Runner(x: P.Session) { Bracket(x) && (x.kind.UserMessage? || x.kind.EngineLoop?) }

  lemma FollowOne(cfg: P.Config, i: nat, w: Walk, l: Local)
    ensures Follow(cfg, i, w, [l]) == WalkNext(cfg, i, w, l)
  {
    Runs.RunSnoc(Walker(cfg, i), w, [], l);
    assert [] + [l] == [l];
  }

  lemma FollowSnoc(cfg: P.Config, i: nat, w: Walk, ls: seq<Local>, l: Local)
    ensures Follow(cfg, i, w, ls + [l])
         == match Follow(cfg, i, w, ls) case None => None case Some(v) => WalkNext(cfg, i, v, l)
  {
    Runs.RunSnoc(Walker(cfg, i), w, ls, l);
  }

  predicate FollowsTo(cfg: P.Config, i: nat, w: Walk, ls: seq<Local>, x: P.Session, strays: nat) {
    Follow(cfg, i, w, ls) == Some(Walk(x, w.strays + strays))
  }

  lemma StartPath(cfg: P.Config, i: nat, w: Walk, name: string, waits: bool)
    requires Runner(w.x) && NextSession(w.x, ToolStarted(name), cfg.fallbacks).Some?
    ensures FollowsTo(cfg, i, w, EventPath(w.x, ToolStarted(name), waits),
                      NextSession(w.x, ToolStarted(name), cfg.fallbacks).value,
                      Q.B(w.x.pc.ToolEnded? && !w.x.acquired && w.x.choice.On?))
  {
    var move := if w.x.pc.Chatting? then P.ToolStart else P.Fallback;
    StrayMoveExactly(cfg, i, w.x, false, move);
    FollowOne(cfg, i, w, Moves(move, true));
  }

  lemma ChatPath(cfg: P.Config, i: nat, w: Walk, ok: bool, waits: bool)
    requires Runner(w.x) && NextSession(w.x, Chatted(ok), cfg.fallbacks).Some?
    ensures FollowsTo(cfg, i, w, EventPath(w.x, Chatted(ok), waits), NextSession(w.x, Chatted(ok), cfg.fallbacks).value, 0)
  {
    if w.x.pc.ToolEnded? && ok {
      FollowOne(cfg, i, w, Moves(P.NextRound, true));
    }
  }

  function Back(x: P.Session): P.Session { x.(pc := P.ToolEnded, acquired := true, holds := x.choice.On?) }

  lemma TakesAtOnce(cfg: P.Config, i: nat, w: Walk)
    requires Runner(w.x) && w.x.pc.ToolRunning?
    ensures FollowsTo(cfg, i, w, [Moves(P.ToolEnd, true)], Back(w.x), 0)
  {
    FollowOne(cfg, i, w, Moves(P.ToolEnd, true));
  }

  lemma Queues(cfg: P.Config, i: nat, w: Walk)
    requires Runner(w.x) && w.x.pc.ToolRunning? && w.x.choice.On?
    ensures FollowsTo(cfg, i, w, [Moves(P.ToolEnd, false)], w.x.(pc := P.Waiting(w.x.choice.b, true)), 0)
  {
    FollowOne(cfg, i, w, Moves(P.ToolEnd, false));
  }

  lemma WaitsAndWakes(cfg: P.Config, i: nat, w: Walk)
    requires Runner(w.x) && w.x.pc.ToolRunning? && w.x.choice.On?
    ensures FollowsTo(cfg, i, w, [Moves(P.ToolEnd, false)] + [Granted] + [Moves(P.Wake, true)], Back(w.x), 0)
  {
    Queues(cfg, i, w);
    FollowSnoc(cfg, i, w, [Moves(P.ToolEnd, false)], Granted);
    FollowSnoc(cfg, i, w, [Moves(P.ToolEnd, false)] + [Granted], Moves(P.Wake, true));
  }

  lemma GivesUp(cfg: P.Config, i: nat, w: Walk)
    requires Runner(w.x) && w.x.pc.ToolRunning? && MayFail(w.x)
    ensures FollowsTo(cfg, i, w, [Moves(P.ToolEnd, false)] + [Moves(P.CtxDone, true)] + [Moves(P.AbandonWait, true)],
                      w.x.(pc := P.Unreserving(w.x.choice.b), ctxDone := true), 0)
  {
    Queues(cfg, i, w);
    FollowSnoc(cfg, i, w, [Moves(P.ToolEnd, false)], Moves(P.CtxDone, true));
    FollowSnoc(cfg, i, w, [Moves(P.ToolEnd, false)] + [Moves(P.CtxDone, true)], Moves(P.AbandonWait, true));
  }

  lemma GivesUpAndUnreserves(cfg: P.Config, i: nat, w: Walk, waits: bool)
    requires Runner(w.x) && w.x.pc.ToolRunning? && MayFail(w.x)
    ensures FollowsTo(cfg, i, w, EventPath(w.x, ToolFinished(false), waits), w.x.(pc := P.ToolEnded, ctxDone := true), 0)
  {
    GivesUp(cfg, i, w);
    FollowSnoc(cfg, i, w, [Moves(P.ToolEnd, false)] + [Moves(P.CtxDone, true)] + [Moves(P.AbandonWait, true)],
               Moves(P.Unreserve, true));
  }

  predicate LateFallback(x: P.Session, e: Event) { e.ToolStarted? && x.pc.ToolEnded? && !x.acquired && x.choice.On? }

  // Every accepted callback is a path of moves; it strays exactly when it is a fallback after a
  // failed reacquire.
  lemma EventIsMoves(cfg: P.Config, i: nat, w: Walk, e: Event, waits: bool)
    requires Runner(w.x) && NextSession(w.x, e, cfg.fallbacks).Some?
    ensures FollowsTo(cfg, i, w, EventPath(w.x, e, waits), NextSession(w.x, e, cfg.fallbacks).value, Q.B(LateFallback(w.x, e)))
  {
    match e
    case Chatted(ok) => ChatPath(cfg, i, w, ok, waits);
    case ToolStarted(name) => StartPath(cfg, i, w, name, waits);
    case ToolFinished(ok) =>
      if !ok {
        GivesUpAndUnreserves(cfg, i, w, waits);
      } else if waits && w.x.choice.On? {
        WaitsAndWakes(cfg, i, w);
      } else {
        TakesAtOnce(cfg, i, w);
      }
  }

  // ---------------------------------------------------------------------------
  // Whole traces
  // ---------------------------------------------------------------------------

  function SessionAfter(x: P.Session, trace: seq<Event>, fallbacks: bool): Option<P.Session>
    decreases |trace|
  {
    if trace == [] then Some(x)
    else
      match SessionAfter(x, trace[..|trace| - 1], fallbacks)
      case None => None
      case Some(y) => NextSession(y, trace[|trace| - 1], fallbacks)
  }

  // The moves behind a trace; `waits(k)` says whether the reacquire at event k has to queue.
  function TracePath(x: P.Session, trace: seq<Event>, fallbacks: bool, waits: nat -> bool): seq<Local>
    decreases |trace|
  {
    if trace == [] then []
    else
      var front := trace[..|trace| - 1];
      match SessionAfter(x, front, fallbacks)
      case None => []
      case Some(y) => TracePath(x, front, fallbacks, waits) + EventPath(y, trace[|trace| - 1], waits(|front|))
  }

  // Fallbacks that follow a failed reacquire
  function Misfires(trace: seq<Event>): nat
    decreases |trace|
  {
    if |trace| < 2 then 0
    else Misfires(trace[..|trace| - 1])
         + Q.B(trace[|trace| - 2] == ToolFinished(false) && trace[|trace| - 1].ToolStarted?)
  }

  // A failed LLM call ends the run.
  predicate ChatFailsLast(trace: seq<Event>) {
    trace == [] || Chatted(false) !in trace[..|trace| - 1]
  }

  ghost predicate Begins(x: P.Session) { Runner(x) && x.pc.Chatting? && !x.ctxDone }

  // The session after a trace keeps its choice, and after a tool it lacks its slot exactly when
  // the last callback was a failed reacquire.
  ghost predicate Tracked(x: P.Session, trace: seq<Event>, y: P.Session) {
    && Runner(y) && y.choice == x.choice
    && (trace != [] && trace[|trace| - 1].ToolFinished? ==> y.pc.ToolEnded?)
    && (y.pc.ToolEnded? && Chatted(false) !in trace ==>
          trace != [] && (!y.acquired <==> trace[|trace| - 1] == ToolFinished(false)) && (!y.acquired ==> y.choice.On?))
  }

  lemma NextTracked(x: P.Session, front: seq<Event>, y: P.Session, e: Event, fallbacks: bool)
    requires Tracked(x, front, y) && Chatted(false) !in front && NextSession(y, e, fallbacks).Some?
    ensures Tracked(x, front + [e], NextSession(y, e, fallbacks).value)
  {
    assert e in front + [e];
  }

  lemma LateFallbackCounts(x: P.Session, front: seq<Event>, y: P.Session, e: Event)
    requires Tracked(x, front, y) && Chatted(false) !in front
    ensures Misfires(front + [e]) == Misfires(front) + Q.B(LateFallback(y, e))
  {
    assert (front + [e])[..|front|] == front;
  }

  // The session of an accepted trace follows the moves behind it, always in shape, and strays as
  // often as a fallback follows a failed reacquire.
  lemma {:induction false} TraceIsPath(cfg: P.Config, i: nat, x: P.Session, trace: seq<Event>, waits: nat -> bool)
    requires Begins(x) && SessionAfter(x, trace, cfg.fallbacks).Some? && ChatFailsLast(trace)
    ensures Tracked(x, trace, SessionAfter(x, trace, cfg.fallbacks).value)
    ensures Follow(cfg, i, Walk(x, 0), TracePath(x, trace, cfg.fallbacks, waits))
         == Some(Walk(SessionAfter(x, trace, cfg.fallbacks).value, Misfires(trace)))
    decreases |trace|
  {
    if trace != [] {
      var front, e := trace[..|trace| - 1], trace[|trace| - 1];
      assert front + [e] == trace;
      assert forall c :: front != [] && c in front[..|front| - 1] ==> c in front;
      TraceIsPath(cfg, i, x, front, waits);
      TraceNext(cfg, i, x, front, SessionAfter(x, front, cfg.fallbacks).value, e, waits);
    }
  }

  lemma TraceNext(cfg: P.Config, i: nat, x: P.Session, front: seq<Event>, y: P.Session, e: Event, waits: nat -> bool)
    requires SessionAfter(x, front, cfg.fallbacks) == Some(y) && NextSession(y, e, cfg.fallbacks).Some?
    requires Tracked(x, front, y) && Chatted(false) !in front
    requires Follow(cfg, i, Walk(x, 0), TracePath(x, front, cfg.fallbacks, waits)) == Some(Walk(y, Misfires(front)))
    ensures Tracked(x, front + [e], NextSession(y, e, cfg.fallbacks).value)
    ensures Follow(cfg, i, Walk(x, 0), TracePath(x, front + [e], cfg.fallbacks, waits))
         == Some(Walk(NextSession(y, e, cfg.fallbacks).value, Misfires(front + [e])))
  {
    assert (front + [e])[..|front|] == front;
    EventIsMoves(cfg, i, Walk(y, Misfires(front)), e, waits(|front|));
    Runs.RunConcat(Walker(cfg, i), Walk(x, 0), TracePath(x, front, cfg.fallbacks, waits), EventPath(y, e, waits(|front|)));
    NextTracked(x, front, y, e, cfg.fallbacks);
    LateFallbackCounts(x, front, y, e);
  }

  // ---------------------------------------------------------------------------
  // Runs of the loop
  // ---------------------------------------------------------------------------

  // The assumption on the LLM client: no call succeeds once a reacquire has failed, because
  // then the context is done.
  ghost predicate ContextHonoured(trace: seq<Event>) {
    forall i, j :: 0 <= i < j < |trace| && trace[i] == ToolFinished(false) ==> trace[j] != Chatted(true)
  }

  // A reacquire fails only for an engine loop that has a slot to wait for.
  ghost predicate Honoured(x: P.Session, trace: seq<Event>) {
    ContextHonoured(trace) && (ToolFinished(false) in trace ==> MayFail(x))
  }

  // Between rounds: accepted so far, at a point where a round may start, with the flag up unless
  // the context is done, which it is exactly when some reacquire failed.
  ghost predicate InStep(x: P.Session, trace: seq<Event>, fallbacks: bool) {
    match SessionAfter(x, trace, fallbacks)
    case None => false
    case Some(v) =>
      && (v.pc.Chatting? || v.pc.ToolEnded?) && v.kind == x.kind && v.choice == x.choice
      && (v.acquired || v.ctxDone)
      && (v.ctxDone <==> ToolFinished(false) in trace)
      && (v.pc.Chatting? ==> v.acquired)
  }

  lemma InStepChat(x: P.Session, trace: seq<Event>, ok: bool, fallbacks: bool)
    requires InStep(x, trace, fallbacks) && ContextHonoured(trace + [Chatted(ok)])
    ensures InStep(x, trace + [Chatted(ok)], fallbacks)
    ensures ok ==> SessionAfter(x, trace + [Chatted(ok)], fallbacks).value.pc.Chatting?
  {
    var t := trace + [Chatted(ok)];
    assert t[..|trace|] == trace && t[|trace|] == Chatted(ok);
    if ToolFinished(false) in trace {
      var i :| 0 <= i < |trace| && trace[i] == ToolFinished(false);
      assert t[i] == ToolFinished(false);
    }
  }

  lemma InStepCall(x: P.Session, trace: seq<Event>, name: string, ok: bool, fallbacks: bool)
    requires InStep(x, trace, fallbacks) && (ok || MayFail(x))
    requires fallbacks || SessionAfter(x, trace, fallbacks).value.pc.Chatting?
    ensures InStep(x, trace + [ToolStarted(name), ToolFinished(ok)], fallbacks)
  {
    var one := trace + [ToolStarted(name)];
    var t := trace + [ToolStarted(name), ToolFinished(ok)];
    assert one[..|trace|] == trace && t[..|one|] == one;
    assert t == one + [ToolFinished(ok)];
    assert forall e :: e in t <==> e in trace || e == ToolStarted(name) || e == ToolFinished(ok);
    assert SessionAfter(x, one, fallbacks) == NextSession(SessionAfter(x, trace, fallbacks).value, ToolStarted(name), fallbacks);
  }

  lemma HonouredPrefix(x: P.Session, trace: seq<Event>, more: seq<Event>)
    requires Honoured(x, trace + more)
    ensures Honoured(x, trace)
  {
    var t := trace + more;
    assert forall i :: 0 <= i < |trace| ==> t[i] == trace[i];
    assert forall e :: e in trace ==> e in t;
  }

  // A pair of callbacks around one tool
  lemma PairInStep(x: P.Session, trace: seq<Event>, pair: seq<Event>, fallbacks: bool)
    requires InStep(x, trace, fallbacks) && |pair| == 2 && pair[0].ToolStarted? && pair[1].ToolFinished?
    requires ToolFinished(false) in pair ==> MayFail(x)
    requires fallbacks || SessionAfter(x, trace, fallbacks).value.pc.Chatting?
    ensures InStep(x, trace + pair, fallbacks)
  {
    assert pair == [ToolStarted(pair[0].tool), ToolFinished(pair[1].reacquired)];
    InStepCall(x, trace, pair[0].tool, pair[1].reacquired, fallbacks);
  }

  lemma CallsInStep(x: P.Session, trace: seq<Event>, calls: seq<Event>, fallbacks: bool)
    requires InStep(x, trace, fallbacks) && (calls != [] ==> SessionAfter(x, trace, fallbacks).value.pc.Chatting?)
    requires |calls| <= 4 && CallPairs(calls) && (|calls| == 4 ==> fallbacks) && (ToolFinished(false) in calls ==> MayFail(x))
    ensures InStep(x, trace + calls, fallbacks)
  {
    if calls == [] {
      assert trace + calls == trace;
    } else if |calls| == 2 {
      PairInStep(x, trace, calls, fallbacks);
    } else {
      assert calls == calls[..2] + calls[2..];
      PairInStep(x, trace, calls[..2], fallbacks);
      PairInStep(x, trace + calls[..2], calls[2..], fallbacks);
      ConcatAssoc(trace, calls[..2], calls[2..]);
    }
  }

  lemma RoundInStep(x: P.Session, trace: seq<Event>, ok: bool, calls: seq<Event>, fallbacks: bool)
    requires InStep(x, trace, fallbacks) && Honoured(x, trace + [Chatted(ok)] + calls)
    requires |calls| <= 4 && CallPairs(calls) && (calls != [] ==> ok) && (|calls| == 4 ==> fallbacks)
    ensures InStep(x, trace + [Chatted(ok)] + calls, fallbacks)
  {
    var t0 := trace + [Chatted(ok)];
    HonouredPrefix(x, t0, calls);
    InStepChat(x, trace, ok, fallbacks);
    assert forall e :: e in calls ==> e in t0 + calls;
    CallsInStep(x, t0, calls, fallbacks);
  }

  lemma {:induction false} TraceGrows(cfg: LoopConfig, env: Env, st: LoopState, round: nat)
    requires round <= cfg.Rounds()
    ensures st.trace <= Loop(cfg, env, st, round).1.trace
    decreases cfg.Rounds() - round
  {
    if round < cfg.Rounds() {
      var ok, calls := RoundTrace(cfg, env, st, round);
      match Round(cfg, env, st, round)
      case Return(_, _) =>
      case Again(next) => TraceGrows(cfg, env, next, round + 1);
    }
  }

  lemma RoundInTrace(cfg: LoopConfig, env: Env, st: LoopState, round: nat, x: P.Session)
    requires round < cfg.Rounds() && Honoured(x, Loop(cfg, env, st, round).1.trace)
    ensures Honoured(x, After(Round(cfg, env, st, round)).trace)
  {
    match Round(cfg, env, st, round)
    case Return(_, _) =>
    case Again(next) =>
      TraceGrows(cfg, env, next, round + 1);
      var all := Loop(cfg, env, st, round).1.trace;
      assert all == next.trace + all[|next.trace|..];
      HonouredPrefix(x, next.trace, all[|next.trace|..]);
  }

  // A round in which the LLM call fails is the last one.
  lemma RoundChats(cfg: LoopConfig, env: Env, st: LoopState, round: nat)
    requires Chatted(false) !in st.trace
    ensures ChatFailsLast(After(Round(cfg, env, st, round)).trace)
    ensures Round(cfg, env, st, round).Again? ==> Chatted(false) !in After(Round(cfg, env, st, round)).trace
  {
    var t := After(Round(cfg, env, st, round)).trace;
    var ok, calls := RoundTrace(cfg, env, st, round);
    var chat := env.chat(round, cfg.trim(st.messages));
    assert t[|st.trace|] == Chatted(ok);
    if ok {
      assert forall e :: e in t ==> e in st.trace || e == Chatted(ok) || e in calls;
    } else {
      assert t[..|t| - 1] == st.trace && chat.ChatFailed?;
    }
  }

  lemma {:induction false} RunInStep(cfg: LoopConfig, env: Env, st: LoopState, round: nat, x: P.Session, fallbacks: bool)
    requires round <= cfg.Rounds() && InStep(x, st.trace, fallbacks) && Chatted(false) !in st.trace
    requires !fallbacks ==> forall a, b :: cfg.fallback(a, b).None?
    requires Honoured(x, Loop(cfg, env, st, round).1.trace)
    ensures InStep(x, Loop(cfg, env, st, round).1.trace, fallbacks) && ChatFailsLast(Loop(cfg, env, st, round).1.trace)
    decreases cfg.Rounds() - round
  {
    if round < cfg.Rounds() {
      var t := After(Round(cfg, env, st, round));
      var ok, calls := RoundTrace(cfg, env, st, round);
      RoundInTrace(cfg, env, st, round, x);
      RoundInStep(x, st.trace, ok, calls, fallbacks);
      RoundChats(cfg, env, st, round);
      match Round(cfg, env, st, round)
      case Return(_, _) =>
      case Again(next) => RunInStep(cfg, env, next, round + 1, x, fallbacks);
    }
  }

  // Whatever the LLM and the tools do, and wherever a reacquire has to queue, a run of the loop
  // in a session that holds what it chose is a chain of plans of the slot protocol that keeps
  // the session in shape and ends where it may finish.  It releases a slot it does not own
  // exactly as often as a fallback follows a failed reacquire, and the flag is down at the end
  // only when a reacquire failed.
  lemma RunFollowsProtocol(cfg: LoopConfig, env: Env, messages: seq<ChatMessage>, pcfg: P.Config, i: nat,
                           x: P.Session, waits: nat -> bool)
    requires Begins(x)
    requires !pcfg.fallbacks ==> forall a, b :: cfg.fallback(a, b).None?
    requires Honoured(x, Loop(cfg, env, Start(messages), 0).1.trace)
    ensures var trace := Loop(cfg, env, Start(messages), 0).1.trace;
            && InStep(x, trace, pcfg.fallbacks)
            && Follow(pcfg, i, Walk(x, 0), TracePath(x, trace, pcfg.fallbacks, waits))
               == Some(Walk(SessionAfter(x, trace, pcfg.fallbacks).value, Misfires(trace)))
    ensures (forall k :: env.reacquire(k)) ==>
              var trace := Loop(cfg, env, Start(messages), 0).1.trace;
              Misfires(trace) == 0 && SessionAfter(x, trace, pcfg.fallbacks).value.acquired
  {
    var trace := Loop(cfg, env, Start(messages), 0).1.trace;
    RunInStep(cfg, env, Start(messages), 0, x, pcfg.fallbacks);
    TraceIsPath(pcfg, i, x, trace, waits);
    if forall k :: env.reacquire(k) {
      NoFailedReacquire(cfg, env, Start(messages), 0);
      NoMisfires(trace);
    }
  }

  lemma {:induction false} NoMisfires(trace: seq<Event>)
    requires ToolFinished(false) !in trace
    ensures Misfires(trace) == 0
    decreases |trace|
  {
    if |trace| >= 2 {
      NoMisfires(trace[..|trace| - 1]);
    }
  }

  lemma {:induction false} NoFailedReacquire(cfg: LoopConfig, env: Env, st: LoopState, round: nat)
    requires round <= cfg.Rounds() && (forall k :: env.reacquire(k)) && ToolFinished(false) !in st.trace
    ensures ToolFinished(false) !in Loop(cfg, env, st, round).1.trace
    decreases cfg.Rounds() - round
  {
    if round < cfg.Rounds() {
      match Round(cfg, env, st, round)
      case Return(_, _) =>
      case Again(next) => NoFailedReacquire(cfg, env, next, round + 1);
    }
  }
}
