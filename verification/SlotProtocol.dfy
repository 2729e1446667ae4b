/**
  The slot protocol as a transition system: any number of sessions sharing the slots of the two
  backends and the engine mutex (engine/slot_router.go, engine/engine.go, message_loop.go,
  dispatch.go, clients/subagent_client.go).

  Every step is one critical section, so the runs are all interleavings.  A session is one call
  of processMessage, runOrchestrator, one round of runBackgroundJob, or one direct client call,
  which may come from inside a tool.
 */
module SlotProtocol {
  import R = Runs
  import opened Wrappers
  import opened PrioritySemaphore

  datatype Backend = Primary | Brain

  // OrchestratorChoice: a slot of one backend, or the no-op choice made after cancellation.
  datatype Choice = On(b: Backend) | Uncoordinated

  datatype Kind =
    | UserMessage            // processMessage: PriorityUser, reserves around tools, never cancelled
    | EngineLoop             // runOrchestrator: PriorityBackground, holds Engine.Mu while it runs
    | BackgroundJob          // runBackgroundJob: PriorityUser, prefers the Brain, no tool callbacks
    // One request of a client, PriorityBackground; `parent` is the session whose tool makes it.
    | DirectCall(on: Backend, parent: Option<nat>)

  datatype Pc =
    | Idle
    | SnapshotLock           // about to read the prompt snapshots under Engine.Mu
    | TryBrain
    | TryPrimary
    | Ask(b: Backend)        // about to call the blocking Acquire
    | Waiting(b: Backend, back: bool)    // enqueued; `back` inside Reacquire
    | Returning(b: Backend, back: bool)  // cancelled after the grant, about to release it
    | Unreserving(b: Backend)            // Reacquire failed, about to call CancelReservation
    | LockWait               // has its choice, waits for Engine.Mu
    | Chatting               // a chatFn call is running
    | ToolRunning            // between OnToolStart and OnToolEnd
    | ToolEnded              // callTool returned
    | Unlocked               // left the lock, deferred release pending
    | Done

  // `acquired` is the program's flag; `holds` records the truth it is meant to mirror: a slot of
  // `choice` was taken and not given back.  `granted` says the waiter's channel was closed.
  datatype Session = Session(kind: Kind, pc: Pc, choice: Choice, acquired: bool, holds: bool,
                             granted: bool, ctxDone: bool)

  // `surplus` counts the slots made by CancelReservation, `stray` the releases by non-owners.
  datatype Server = Server(sem: Sem, surplus: nat, stray: nat)

  datatype State = State(primary: Server, brain: Server, mu: Option<nat>, ss: seq<Session>) {
    function At(b: Backend): Server {
      if b.Primary? then primary else brain
    }

    function With(b: Backend, v: Server): State {
      if b.Primary? then this.(primary := v) else this.(brain := v)
    }
  }

  // `fallbacks`: LoopConfig.Fallbacks is set for engine loops.  `nested`: tools may call a client
  // themselves, as delegate_task and plan_and_execute do.
  datatype Config = Config(
    engines: nat, primarySlots: nat, brainSlots: nat, fallbacks: bool, nested: bool, form: Form)
  {
    predicate Valid() { primarySlots > 0 && brainSlots > 0 }

    function Cap(b: Backend): nat {
      if b.Primary? then primarySlots else brainSlots
    }
  }

  datatype Move =
    | Start | Snapshot | Attempt | Wake | CtxDone | AbandonWait | GiveBack | Unreserve | Lock
    | ToolStart | ToolEnd | Fallback | NextRound | Finish(job: bool) | Exit | Recycle

  datatype Action = Spawn(kind: Kind) | Act(i: nat, move: Move)

  datatype LockOp = Keep | Grab | Drop

  // What a move does: `op` on the semaphore of `b`, then the session becomes `yes` when the
  // section took a slot or removed the waiter, and `no` otherwise.
  datatype Plan = Plan(b: Backend, op: Op, yes: Session, no: Session, lock: LockOp)

  function Fresh(kind: Kind): Session {
    Session(kind, Idle, Uncoordinated, false, false, false, false)
  }

  function Pri(kind: Kind): Priority {
    if kind.UserMessage? || kind.BackgroundJob? then User else Background
  }

  function Quiet(y: Session): Option<Plan> {
    Some(Plan(Primary, Nop, y, y, Keep))
  }

  function Locking(y: Session, lock: LockOp): Option<Plan> {
    Some(Plan(Primary, Nop, y, y, lock))
  }

  function FirstPc(kind: Kind): Pc {
    match kind
    case UserMessage => SnapshotLock
    case EngineLoop => TryPrimary
    case BackgroundJob => TryBrain
    case DirectCall(b, _) => Ask(b)
  }

  // A session that leaves the router, or Reacquire, owning a slot of b.
  function Got(x: Session, b: Backend, back: bool): Session {
    x.(choice := On(b), acquired := true, holds := true, granted := false,
       pc := if back then ToolEnded else if x.kind.EngineLoop? then LockWait else Chatting)
  }

  // A session whose blocking acquire in the router was cancelled.
  function GaveUp(x: Session): Session {
    if x.kind.DirectCall? then x.(pc := Done, granted := false)
    else x.(choice := Uncoordinated, acquired := true, granted := false,
            pc := if x.kind.EngineLoop? then LockWait else Chatting)
  }

  function AfterAbandon(x: Session, b: Backend, back: bool): Session {
    if back then x.(pc := Unreserving(b), granted := false) else GaveUp(x)
  }

  // choice.Release / choice.ReleaseReserved: a no-op for the uncoordinated choice.
  function ReleaseBy(x: Session, op: Op, y: Session, lock: LockOp): Option<Plan> {
    match x.choice
    case On(b) => Some(Plan(b, op, y, y, lock))
    case Uncoordinated => Locking(y, lock)
  }

  function OnToolStart(x: Session): Option<Plan> {
    ReleaseBy(x, if x.kind.UserMessage? then ReleaseReserved else Release,
              x.(acquired := false, holds := false, pc := ToolRunning), Keep)
  }

  function MovePlan(cfg: Config, i: nat, x: Session, muFree: bool, move: Move): Option<Plan> {
    var pri := Pri(x.kind);
    match move
    case Start =>
      if x.pc.Idle? then Quiet(x.(pc := FirstPc(x.kind))) else None
    case Snapshot =>
      if x.pc.SnapshotLock? && muFree then Quiet(x.(pc := TryPrimary)) else None
    case Attempt =>
      (match x.pc
       case TryBrain => Some(Plan(Brain, TryAcquire(pri), Got(x, Brain, false), x.(pc := TryPrimary), Keep))
       case TryPrimary => Some(Plan(Primary, TryAcquire(pri), Got(x, Primary, false), x.(pc := Ask(Brain)), Keep))
       case Ask(b) => Some(Plan(b, Acquire(pri, i), Got(x, b, false), x.(pc := Waiting(b, false)), Keep))
       case _ => None)
    case Wake =>
      if x.pc.Waiting? && x.granted then Quiet(Got(x, x.pc.b, x.pc.back)) else None
    case CtxDone =>
      if x.kind.UserMessage? || x.pc.Idle? || x.pc.Done? then None else Quiet(x.(ctxDone := true))
    case AbandonWait =>
      if x.pc.Waiting? && x.ctxDone then
        Some(Plan(x.pc.b, Abandon(pri, i), AfterAbandon(x, x.pc.b, x.pc.back),
                  x.(pc := Returning(x.pc.b, x.pc.back)), Keep))
      else None
    case GiveBack =>
      if x.pc.Returning? then
        var y := AfterAbandon(x, x.pc.b, x.pc.back);
        Some(Plan(x.pc.b, Release, y, y, Keep))
      else None
    case Unreserve =>
      if x.pc.Unreserving? then
        Some(Plan(x.pc.b, CancelReservation, x.(pc := ToolEnded), x.(pc := ToolEnded), Keep))
      else None
    case Lock =>
      if x.pc.LockWait? && muFree then Locking(x.(pc := Chatting), Grab) else None
    case ToolStart =>
      if x.pc.Chatting? && (x.kind.UserMessage? || x.kind.EngineLoop?) then OnToolStart(x) else None
    case ToolEnd =>
      if !x.pc.ToolRunning? then None
      else if x.choice.On? then
        Some(Plan(x.choice.b, Acquire(pri, i), Got(x, x.choice.b, true),
                  x.(pc := Waiting(x.choice.b, true)), Keep))
      else Quiet(x.(acquired := true, pc := ToolEnded))
    case Fallback =>
      if x.pc.ToolEnded? && cfg.fallbacks then OnToolStart(x) else None
    case NextRound =>
      if x.pc.ToolEnded? && !x.ctxDone then Quiet(x.(pc := Chatting)) else None
    case Finish(job) =>
      if !x.pc.Chatting? && !x.pc.ToolEnded? then None
      else if x.kind.EngineLoop? then Locking(x.(pc := Unlocked), Drop)
      else
        var y := x.(pc := Done, acquired := false, holds := false);
        if x.acquired || (x.kind.UserMessage? && job) then ReleaseBy(x, Release, y, Keep) else Quiet(y)
    case Exit =>
      if !x.pc.Unlocked? then None
      else
        var y := x.(pc := Done, acquired := false, holds := false);
        if x.acquired then ReleaseBy(x, Release, y, Keep) else Quiet(y)
    case Recycle =>
      if x.pc.Done? && !FromTool(x.kind) then Quiet(Fresh(x.kind)) else None
  }

  // ---------------------------------------------------------------------------
  // Calls made by tools
  // ---------------------------------------------------------------------------

  predicate FromTool(kind: Kind) { kind.DirectCall? && kind.parent.Some? }

  // A tool of this session may be running: a background job has no callbacks around its tools
  // and keeps its slot.
  predicate MayRunTool(x: Session) { x.pc.ToolRunning? || (x.kind.BackgroundJob? && x.pc.Chatting?) }

  // A call from inside a tool starts at once, while the tool runs.
  predicate CanSpawn(cfg: Config, s: State, kind: Kind) {
    if FromTool(kind) then cfg.nested && kind.parent.value < |s.ss| && MayRunTool(s.ss[kind.parent.value])
    else !kind.EngineLoop?
  }

  function Spawned(kind: Kind): Session {
    if FromTool(kind) then Fresh(kind).(pc := FirstPc(kind)) else Fresh(kind)
  }

  // The tool of session i waits for a call of its own, so the session cannot go on.
  predicate HasCall(cfg: Config, s: State, i: nat) {
    cfg.nested && exists k :: 0 <= k < |s.ss| && FromTool(s.ss[k].kind) && s.ss[k].kind.parent == Some(i) && !s.ss[k].pc.Done?
  }

  predicate HoldsOn(x: Session, b: Backend) {
    x.holds && x.choice == On(b)
  }

  predicate GrantedOn(x: Session, b: Backend) {
    x.granted && (x.pc.Waiting? || x.pc.Returning?) && x.pc.b == b
  }

  // The slot of b this session accounts for: held, or granted but not yet observed.  A session
  // in shape (SlotSafety.Bracket) never has both.
  function Owns(x: Session, b: Backend): nat {
    if HoldsOn(x, b) || GrantedOn(x, b) then 1 else 0
  }

  // Closing a waiter's channel.
  function Deliver(ss: seq<Session>, woken: Option<Waiter>): (r: seq<Session>)
    ensures |r| == |ss|
  {
    if woken.Some? && woken.value < |ss|
    then ss[woken.value := ss[woken.value].(granted := true)]
    else ss
  }

  function RunPlan(cfg: Config, s: State, i: nat, p: Plan): State
    requires i < |s.ss|
  {
    var v, x := s.At(p.b), s.ss[i];
    var e := Apply(v.sem, p.op, cfg.form);
    var y := if e.took || e.removed then p.yes else p.no;
    var v' := Server(e.sem, v.surplus + Surplus(v.sem, p.op, cfg.form),
                     v.stray + B(GivesBack(p.op) && Owns(x, p.b) == 0));
    s.With(p.b, v').(ss := Deliver(s.ss[i := y], e.woken),
                     mu := match p.lock case Keep => s.mu case Grab => Some(i) case Drop => None)
  }

  function Step(cfg: Config, s: State, a: Action): Option<State> {
    match a
    case Spawn(kind) =>
      if CanSpawn(cfg, s, kind) then Some(s.(ss := s.ss + [Spawned(kind)])) else None
    case Act(i, move) =>
      if i >= |s.ss| || (HasCall(cfg, s, i) && !move.CtxDone?) then None
      else match MovePlan(cfg, i, s.ss[i], s.mu.None?, move)
        case None => None
        case Some(p) => Some(RunPlan(cfg, s, i, p))
  }

  // One session per engine loop; the others are spawned during the run.
  function Init(cfg: Config): State
  {
    State(Server(NewSem(cfg.primarySlots), 0, 0), Server(NewSem(cfg.brainSlots), 0, 0), None,
          seq(cfg.engines, (i: nat) => Fresh(EngineLoop)))
  }

  function Steps(cfg: Config): (State, Action) -> Option<State> {
    (s: State, a: Action) => Step(cfg, s, a)
  }

  function Run(cfg: Config, s: State, acts: seq<Action>): Option<State> { R.Run(Steps(cfg), s, acts) }

  ghost predicate Reachable(cfg: Config, s: State) {
    exists acts :: Run(cfg, Init(cfg), acts) == Some(s)
  }

  lemma ReachableStep(cfg: Config, s: State, a: Action)
    requires Reachable(cfg, s) && Step(cfg, s, a).Some?
    ensures Reachable(cfg, Step(cfg, s, a).value)
  {
    var acts :| Run(cfg, Init(cfg), acts) == Some(s);
    R.RunSnoc(Steps(cfg), Init(cfg), acts, a);
    assert Run(cfg, Init(cfg), acts + [a]) == Step(cfg, s, a);
  }
}
