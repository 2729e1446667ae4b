/**
  runBackgroundJob (dispatch.go): a conversation of at most twenty rounds on the Brain that gives
  its slot back before it parks for the user's next message.  A round asks the adapter, of which
  only the contract of RunGrammarOrchestrator is used; the user's messages, the success of the
  triggering tool and the way the router serves each round are parameters.
 */
module BackgroundJobs {
  import opened Wrappers
  import opened Messages
  import opened Orchestrate
  import opened OrchestrateProperties
  import opened RunProtocol
  import P = SlotProtocol
  import Runs

  const MAX_JOB_ROUNDS: nat := 20

  // The adapter's answer to history and prompt in round r, whether the triggering tool succeeds
  // in it, what the user says next (None when the job is cancelled while parked), and how the
  // router serves the round.
  datatype JobEnv = JobEnv(
    ask: (nat, seq<Message>, string) -> (Outcome, seq<Message>),
    succeeds: nat -> bool,
    input: nat -> Option<string>,
    route: nat -> Route)
  {
    // The adapter returns the prompt and what the loop added to it.
    ghost predicate Valid() {
      forall r: nat, h: seq<Message>, p: string :: IsReply(p, ask(r, h, p).0, ask(r, h, p).1)
    }
  }

  predicate IsReply(prompt: string, outcome: Outcome, newMsgs: seq<Message>) {
    newMsgs != [] && Strip(newMsgs[0]) == User(prompt) && Shape(StripAll(newMsgs[1..]), outcome)
  }

  // What the adapter's contract gives is such a reply.
  lemma AdapterReplies(prompt: string, outcome: Outcome, newMsgs: seq<Message>)
    requires newMsgs != [] && Strip(newMsgs[0]) == User(prompt) && Shape(StripAll(newMsgs)[1..], outcome)
    ensures IsReply(prompt, outcome, newMsgs)
  {
    assert StripAll(newMsgs[1..]) == StripAll(newMsgs)[1..];
  }

  datatype Ending = Completed(reply: string) | Failed(outcome: Outcome) | CancelledParked | OutOfRounds

  // ---------------------------------------------------------------------------
  // The job as a session of the slot protocol
  // ---------------------------------------------------------------------------

  // How AcquireOrFallback serves a round: at once, after a wait for the Brain, or not at all
  // because the job is cancelled while it waits.
  datatype Route = BrainNow | PrimaryNow | BrainAsked | BrainLater | Cancelled

  function Try(served: bool): seq<Local> { [Moves(P.Attempt, served)] }

  // The moves up to the chat
  function Entering(route: Route): seq<Local> {
    var start := [Moves(P.Start, true)];
    match route
    case BrainNow => start + Try(true)
    case PrimaryNow => start + Try(false) + Try(true)
    case BrainAsked => start + Try(false) + Try(false) + Try(true)
    case BrainLater => start + Try(false) + Try(false) + Try(false) + [Granted] + [Moves(P.Wake, true)]
    case Cancelled => start + Try(false) + Try(false) + Try(false) + [Moves(P.CtxDone, true)] + [Moves(P.AbandonWait, true)]
  }

  // choice.Release; each round acquires anew.
  function Leaving(): seq<Local> { [Moves(P.Finish(false), true)] + [Moves(P.Recycle, true)] }

  // The session while the model is asked: it holds a slot unless it was cancelled.
  function Working(route: Route): P.Session {
    var choice := match route case PrimaryNow => P.On(P.Primary) case Cancelled => P.Uncoordinated case _ => P.On(P.Brain);
    P.Session(P.BackgroundJob, P.Chatting, choice, true, choice.On?, false, route.Cancelled?)
  }

  const Parked := P.Fresh(P.BackgroundJob)

  function Waiting(pc: P.Pc): P.Session { Parked.(pc := pc) }

  lemma TriesAll(cfg: P.Config, i: nat)
    ensures var start := [Moves(P.Start, true)];
            && FollowsTo(cfg, i, Walk(Parked, 0), start, Waiting(P.TryBrain), 0)
            && FollowsTo(cfg, i, Walk(Parked, 0), start + Try(false), Waiting(P.TryPrimary), 0)
            && FollowsTo(cfg, i, Walk(Parked, 0), start + Try(false) + Try(false), Waiting(P.Ask(P.Brain)), 0)
  {
    var w, start := Walk(Parked, 0), [Moves(P.Start, true)];
    FollowOne(cfg, i, w, Moves(P.Start, true));
    FollowSnoc(cfg, i, w, start, Moves(P.Attempt, false));
    FollowSnoc(cfg, i, w, start + Try(false), Moves(P.Attempt, false));
  }

  lemma Enqueues(cfg: P.Config, i: nat)
    ensures FollowsTo(cfg, i, Walk(Parked, 0), [Moves(P.Start, true)] + Try(false) + Try(false) + Try(false),
                      Waiting(P.Waiting(P.Brain, false)), 0)
  {
    TriesAll(cfg, i);
    FollowSnoc(cfg, i, Walk(Parked, 0), [Moves(P.Start, true)] + Try(false) + Try(false), Moves(P.Attempt, false));
  }

  lemma Enters(cfg: P.Config, i: nat, route: Route)
    ensures FollowsTo(cfg, i, Walk(Parked, 0), Entering(route), Working(route), 0)
  {
    var w, start := Walk(Parked, 0), [Moves(P.Start, true)];
    TriesAll(cfg, i);
    match route
    case BrainNow => FollowSnoc(cfg, i, w, start, Moves(P.Attempt, true));
    case PrimaryNow => FollowSnoc(cfg, i, w, start + Try(false), Moves(P.Attempt, true));
    case BrainAsked => FollowSnoc(cfg, i, w, start + Try(false) + Try(false), Moves(P.Attempt, true));
    case BrainLater => EntersLate(cfg, i);
    case Cancelled => EntersCancelled(cfg, i);
  }

  lemma EntersLate(cfg: P.Config, i: nat)
    ensures FollowsTo(cfg, i, Walk(Parked, 0), Entering(BrainLater), Working(BrainLater), 0)
  {
    var w, queued := Walk(Parked, 0), [Moves(P.Start, true)] + Try(false) + Try(false) + Try(false);
    var waits := Waiting(P.Waiting(P.Brain, false));
    Enqueues(cfg, i);
    FollowSnoc(cfg, i, w, queued, Granted);
    assert WalkNext(cfg, i, Walk(waits, 0), Granted) == Some(Walk(waits.(granted := true), 0));
    FollowSnoc(cfg, i, w, queued + [Granted], Moves(P.Wake, true));
    Wakes(cfg, i);
  }

  lemma Wakes(cfg: P.Config, i: nat)
    ensures WalkNext(cfg, i, Walk(Waiting(P.Waiting(P.Brain, false)).(granted := true), 0), Moves(P.Wake, true))
         == Some(Walk(Working(BrainLater), 0))
  {
  }

  lemma EntersCancelled(cfg: P.Config, i: nat)
    ensures FollowsTo(cfg, i, Walk(Parked, 0), Entering(Cancelled), Working(Cancelled), 0)
  {
    var w, queued := Walk(Parked, 0), [Moves(P.Start, true)] + Try(false) + Try(false) + Try(false);
    Enqueues(cfg, i);
    Cancels(cfg, i);
    FollowSnoc(cfg, i, w, queued, Moves(P.CtxDone, true));
    Abandons(cfg, i);
    FollowSnoc(cfg, i, w, queued + [Moves(P.CtxDone, true)], Moves(P.AbandonWait, true));
  }

  lemma Cancels(cfg: P.Config, i: nat)
    ensures WalkNext(cfg, i, Walk(Waiting(P.Waiting(P.Brain, false)), 0), Moves(P.CtxDone, true))
         == Some(Walk(Waiting(P.Waiting(P.Brain, false)).(ctxDone := true), 0))
  {
  }

  lemma Abandons(cfg: P.Config, i: nat)
    ensures WalkNext(cfg, i, Walk(Waiting(P.Waiting(P.Brain, false)).(ctxDone := true), 0), Moves(P.AbandonWait, true))
         == Some(Walk(Working(Cancelled), 0))
  {
  }

  lemma Leaves(cfg: P.Config, i: nat, route: Route)
    ensures FollowsTo(cfg, i, Walk(Working(route), 0), Leaving(), Parked, 0)
  {
    FollowOne(cfg, i, Walk(Working(route), 0), Moves(P.Finish(false), true));
    FollowSnoc(cfg, i, Walk(Working(route), 0), [Moves(P.Finish(false), true)], Moves(P.Recycle, true));
  }

  // The model is asked after the first n moves.
  predicate AskedAt(cfg: P.Config, i: nat, path: seq<Local>, n: nat, route: Route) {
    n <= |path| && Follow(cfg, i, Walk(Parked, 0), path[..n]) == Some(Walk(Working(route), 0))
  }

  // The moves of so many rounds: each asks the model with its slot in hand, and between the
  // rounds and at the end the session owns nothing.
  predicate Bracketed(cfg: P.Config, i: nat, path: seq<Local>, asked: seq<nat>, env: JobEnv) {
    && Follow(cfg, i, Walk(Parked, 0), path) == Some(Walk(Parked, 0))
    && forall r: nat :: r < |asked| ==> AskedAt(cfg, i, path, asked[r], env.route(r))
  }

  lemma AskedPrefix(cfg: P.Config, i: nat, path: seq<Local>, more: seq<Local>, n: nat, route: Route)
    requires AskedAt(cfg, i, path, n, route)
    ensures AskedAt(cfg, i, path + more, n, route)
  {
    assert (path + more)[..n] == path[..n];
  }

  // Inside a round: the session has what the router gave it.
  predicate Inside(cfg: P.Config, i: nat, path: seq<Local>, asked: seq<nat>, env: JobEnv) {
    && Follow(cfg, i, Walk(Parked, 0), path) == Some(Walk(Working(env.route(|asked|)), 0))
    && forall r: nat :: r < |asked| ==> AskedAt(cfg, i, path, asked[r], env.route(r))
  }

  lemma EnterRound(cfg: P.Config, i: nat, path: seq<Local>, asked: seq<nat>, env: JobEnv) returns (inside: seq<Local>)
    requires Bracketed(cfg, i, path, asked, env)
    ensures Inside(cfg, i, inside, asked, env)
  {
    var route := env.route(|asked|);
    inside := path + Entering(route);
    Enters(cfg, i, route);
    Runs.RunConcat(Walker(cfg, i), Walk(Parked, 0), path, Entering(route));
    forall r: nat | r < |asked| ensures AskedAt(cfg, i, inside, asked[r], env.route(r)) {
      AskedPrefix(cfg, i, path, Entering(route), asked[r], env.route(r));
    }
  }

  lemma LeaveRound(cfg: P.Config, i: nat, path: seq<Local>, asked: seq<nat>, env: JobEnv)
    returns (after: seq<Local>, asked': seq<nat>)
    requires Inside(cfg, i, path, asked, env)
    ensures Bracketed(cfg, i, after, asked', env) && |asked'| == |asked| + 1
  {
    var route := env.route(|asked|);
    after, asked' := path + Leaving(), asked + [|path|];
    Leaves(cfg, i, route);
    Runs.RunConcat(Walker(cfg, i), Walk(Parked, 0), path, Leaving());
    assert path[..|path|] == path;
    AskedPrefix(cfg, i, path, Leaving(), |path|, route);
    forall r: nat | r < |asked| ensures AskedAt(cfg, i, after, asked[r], env.route(r)) {
      AskedPrefix(cfg, i, path, Leaving(), asked[r], env.route(r));
    }
  }

  // QueryOrchestrator: called by a session that has its choice in hand
  method Ask(env: JobEnv, round: nat, history: seq<Message>, prompt: string, ghost session: Option<Walk>)
    returns (outcome: Outcome, newMsgs: seq<Message>)
    requires session.Some? && session.value.x.pc.Chatting? && session.value.x.acquired
    ensures (outcome, newMsgs) == env.ask(round, history, prompt)
  {
    var answer := env.ask(round, history, prompt);
    return answer.0, answer.1;
  }

  // ---------------------------------------------------------------------------
  // The conversation
  // ---------------------------------------------------------------------------

  // What one answered round leaves in the transcript: the user's message, then the adapter's
  // messages, which start with the same user's message.
  datatype Turn = Turn(prompt: Message, newMsgs: seq<Message>)

  function Transcript(ts: seq<Turn>): seq<Message>
    decreases |ts|
  {
    if ts == [] then []
    else Transcript(ts[..|ts| - 1]) + [ts[|ts| - 1].prompt] + ts[|ts| - 1].newMsgs
  }

  predicate PromptIs(env: JobEnv, goal: string, k: nat, prompt: string) {
    if k == 0 then prompt == goal else env.input(k - 1) == Some(prompt)
  }

  // Turn t asks, in round k, the goal or the user's k-th message on the given history, and the
  // triggering tool has not succeeded earlier.
  predicate TurnOk(env: JobEnv, goal: string, k: nat, history: seq<Message>, t: Turn) {
    && PromptIs(env, goal, k, t.prompt.content) && t.prompt == Message("user", t.prompt.content, 0)
    && env.ask(k, history, t.prompt.content).0.Answer?
    && env.ask(k, history, t.prompt.content).1 == t.newMsgs
    && (k > 0 ==> !env.succeeds(k - 1))
  }

  // Each turn is asked on the transcript of the turns before.
  predicate Turns(env: JobEnv, goal: string, ts: seq<Turn>)
    decreases |ts|
  {
    ts == [] || (Turns(env, goal, ts[..|ts| - 1])
                 && TurnOk(env, goal, |ts| - 1, Transcript(ts[..|ts| - 1]), ts[|ts| - 1]))
  }

  // How the job ends after the turns ts, and what is left in the transcript behind them
  predicate EndsAs(env: JobEnv, goal: string, ts: seq<Turn>, rounds: nat, ending: Ending, left: seq<Message>) {
    match ending
    case Completed(reply) =>
      && 0 < |ts| == rounds && left == [] && env.succeeds(|ts| - 1)
      && env.ask(|ts| - 1, Transcript(ts[..|ts| - 1]), ts[|ts| - 1].prompt.content).0 == Answer(reply)
    case CancelledParked =>
      0 < |ts| == rounds && left == [] && !env.succeeds(|ts| - 1) && env.input(|ts| - 1).None?
    case Failed(outcome) =>
      && rounds == |ts| + 1 == |ts| + |left| && PromptIs(env, goal, |ts|, left[0].content)
      && env.ask(|ts|, Transcript(ts), left[0].content).0 == outcome && !outcome.Answer?
    case OutOfRounds =>
      |ts| == rounds == 20 && |left| == 1 && PromptIs(env, goal, |ts|, left[0].content)
  }

  lemma TurnsSnoc(env: JobEnv, goal: string, ts: seq<Turn>, t: Turn)
    requires Turns(env, goal, ts) && TurnOk(env, goal, |ts|, Transcript(ts), t)
    ensures Turns(env, goal, ts + [t])
    ensures Transcript(ts + [t]) == Transcript(ts) + [t.prompt] + t.newMsgs
  {
    assert (ts + [t])[..|ts|] == ts;
  }

  // Between the rounds: the answered turns, and behind them the message to answer next
  predicate Talking(env: JobEnv, goal: string, ts: seq<Turn>, messages: seq<Message>, last: Message) {
    && Turns(env, goal, ts) && (|ts| > 0 ==> !env.succeeds(|ts| - 1))
    && messages == Transcript(ts) + [last]
    && last == Message("user", last.content, 0) && PromptIs(env, goal, |ts|, last.content)
  }

  lemma HistoryIs(env: JobEnv, goal: string, ts: seq<Turn>, messages: seq<Message>, last: Message)
    requires Talking(env, goal, ts, messages, last)
    ensures messages != [] && messages[..|messages| - 1] == Transcript(ts) && messages[|messages| - 1] == last
    ensures messages[|Transcript(ts)|..] == [last]
  {
  }

  lemma Answered(env: JobEnv, goal: string, ts: seq<Turn>, messages: seq<Message>, last: Message, newMsgs: seq<Message>)
    requires Talking(env, goal, ts, messages, last)
    requires env.ask(|ts|, Transcript(ts), last.content).0.Answer? && env.ask(|ts|, Transcript(ts), last.content).1 == newMsgs
    ensures Turns(env, goal, ts + [Turn(last, newMsgs)])
    ensures messages + newMsgs == Transcript(ts + [Turn(last, newMsgs)]) && (ts + [Turn(last, newMsgs)])[..|ts|] == ts
  {
    TurnsSnoc(env, goal, ts, Turn(last, newMsgs));
  }

  // The job ends within twenty rounds.  Its moves are those of a session of the slot protocol
  // that has its slot whenever the model is asked and owns nothing while the job is parked or
  // over.  Its transcript is that of its turns, each asked on the transcript of the ones before.
  method RunBackgroundJob(goal: string, env: JobEnv, ghost cfg: P.Config, ghost id: nat)
    returns (ending: Ending, messages: seq<Message>, rounds: nat, ghost path: seq<Local>, ghost asked: seq<nat>, ghost ts: seq<Turn>)
    ensures rounds <= 20 && |asked| == rounds && Bracketed(cfg, id, path, asked, env)
    ensures Turns(env, goal, ts) && Transcript(ts) <= messages
    ensures EndsAs(env, goal, ts, rounds, ending, messages[|Transcript(ts)|..])
  {
    messages := [Message("user", goal, 0)];
    rounds, path, asked, ts := 0, [], [], [];
    var toolSucceeded := false;
    ghost var last := messages[0];
    while rounds < MAX_JOB_ROUNDS
      invariant 0 <= rounds <= MAX_JOB_ROUNDS && |ts| == rounds
      invariant |asked| == rounds && Bracketed(cfg, id, path, asked, env)
      invariant !toolSucceeded && Talking(env, goal, ts, messages, last)
    {
      var r := rounds;
      HistoryIs(env, goal, ts, messages, last);
      path := EnterRound(cfg, id, path, asked, env);
      var outcome, newMsgs :=
        Ask(env, r, messages[..|messages| - 1], messages[|messages| - 1].content, Follow(cfg, id, Walk(Parked, 0), path));
      path, asked := LeaveRound(cfg, id, path, asked, env);
      rounds := rounds + 1;
      if !outcome.Answer? {
        return Failed(outcome), messages, rounds, path, asked, ts;
      }
      Answered(env, goal, ts, messages, last, newMsgs);
      messages := messages + newMsgs;
      ts := ts + [Turn(last, newMsgs)];
      toolSucceeded := toolSucceeded || env.succeeds(r);
      if toolSucceeded {
        return Completed(outcome.text), messages, rounds, path, asked, ts;
      }
      var input := env.input(r);
      if input.None? {
        return CancelledParked, messages, rounds, path, asked, ts;
      }
      last := Message("user", input.value, 0);
      messages := messages + [Message("user", input.value, 0)];
    }
    HistoryIs(env, goal, ts, messages, last);
    ending := OutOfRounds;
  }

  // Each answered message of the user stands in the transcript twice in a row, and later rounds
  // send it to the model like that.
  lemma {:induction false} PromptsRepeated(env: JobEnv, goal: string, ts: seq<Turn>, k: nat) returns (i: nat)
    requires env.Valid() && Turns(env, goal, ts) && k < |ts|
    ensures i + 1 < |Transcript(ts)|
    ensures Strip(Transcript(ts)[i]) == Strip(Transcript(ts)[i + 1]) == User(ts[k].prompt.content)
    decreases |ts|
  {
    var front, t := ts[..|ts| - 1], ts[|ts| - 1];
    if k == |front| {
      i := |Transcript(front)|;
      assert IsReply(t.prompt.content, env.ask(k, Transcript(front), t.prompt.content).0, t.newMsgs);
    } else {
      i := PromptsRepeated(env, goal, front, k);
    }
  }
}
