/**
  When the slot protocol can lock up: deadlock, the slot/mutex cycle between engine loops, and
  its permanence.
 */
module SlotDeadlock {
  import opened Sums
  import opened Wrappers
  import opened PrioritySemaphore
  import opened SlotProtocol
  import opened SlotSafety
  import opened SlotProgress

  predicate Active(x: Session) { !x.pc.Idle? && !x.pc.Done? }

  // The session can only go on after another session acts: it waits for the mutex, for a slot,
  // or for a call that its own tool makes.
  predicate Blocked(cfg: Config, s: State, i: nat)
    requires i < |s.ss|
  {
    var x := s.ss[i];
    || ((x.pc.SnapshotLock? || x.pc.LockWait?) && s.mu.Some?)
    || (x.pc.Waiting? && !x.granted)
    || HasCall(cfg, s, i)
  }

  ghost predicate Deadlocked(cfg: Config, s: State) {
    && (exists i :: 0 <= i < |s.ss| && Active(s.ss[i]))
    && (forall i :: 0 <= i < |s.ss| && Active(s.ss[i]) ==> Blocked(cfg, s, i))
  }

  // A move, other than a cancellation, of an active session that is not blocked.
  function NextMove(x: Session): Move {
    match x.pc
    case Idle => Start
    case SnapshotLock => Snapshot
    case TryBrain | TryPrimary | Ask(_) => Attempt
    case Waiting(_, _) => Wake
    case Returning(_, _) => GiveBack
    case Unreserving(_) => Unreserve
    case LockWait => Lock
    case Chatting | ToolEnded => Finish(false)
    case ToolRunning => ToolEnd
    case Unlocked => Exit
    case Done => Recycle
  }

  lemma UnblockedMoves(cfg: Config, s: State, i: nat)
    requires i < |s.ss| && Active(s.ss[i])
    ensures Step(cfg, s, Act(i, NextMove(s.ss[i]))).Some? <==> !Blocked(cfg, s, i)
  {
  }

  // The cycle: h holds the mutex and waits to reacquire a slot of b, and every slot of b is held
  // by an engine loop that waits for the mutex.
  ghost predicate Cycle(s: State, h: nat, b: Backend) {
    && h < |s.ss| && s.mu == Some(h)
    && s.ss[h].kind.EngineLoop? && s.ss[h].pc == Waiting(b, true) && !s.ss[h].granted && !s.ss[h].ctxDone
    && Free(s.At(b).sem) == 0
    && forall i :: 0 <= i < |s.ss| && Owns(s.ss[i], b) > 0 ==> s.ss[i].kind.EngineLoop? && s.ss[i].pc.LockWait?
  }

  // ---------------------------------------------------------------------------
  // Deadlock freedom
  // ---------------------------------------------------------------------------

  // Nobody parks a slot in a deadlock: a session inside a tool can always return from it.
  lemma NoneParked(cfg: Config, s: State, b: Backend)
    requires !cfg.nested && Inv(cfg, s) && Deadlocked(cfg, s)
    ensures Sum(s.ss, ParksOn(b)) == 0 && s.At(b).sem.reserved == 0
  {
    assert BackendOk(cfg, s, b);
    forall u | 0 <= u < |s.ss| ensures Parks(s.ss[u], b) == 0 {
      assert Active(s.ss[u]) ==> Blocked(cfg, s, u);
    }
    SumZero(s.ss, ParksOn(b));
  }

  // Whoever owns a slot in a deadlock is an engine loop that waits for the mutex.
  lemma OwnersWaitForLock(cfg: Config, s: State, o: nat, b: Backend)
    requires !cfg.nested && Inv(cfg, s) && Deadlocked(cfg, s) && o < |s.ss| && Owns(s.ss[o], b) > 0
    ensures s.mu.Some? && s.ss[o].kind.EngineLoop? && s.ss[o].pc.LockWait?
  {
    assert Bracket(s.ss[o]) && Active(s.ss[o]);
    assert Blocked(cfg, s, o);
  }

  // More slots owned by waiting engine loops than there are engine loops left: impossible.
  lemma OwnersAreEngines(cfg: Config, s: State, h: nat, b: Backend)
    requires Inv(cfg, s) && h < |s.ss| && s.ss[h].kind.EngineLoop? && Owns(s.ss[h], b) == 0
    requires forall i :: 0 <= i < |s.ss| && Owns(s.ss[i], b) > 0 ==> s.ss[i].kind.EngineLoop?
    ensures Sum(s.ss, OwnsOn(b)) + 1 <= cfg.engines
  {
    var u := Fresh(UserMessage);
    SumUpdate(s.ss, IsEngine(), h, u);
    SumUpdate(s.ss, OwnsOn(b), h, u);
    var ss := s.ss[h := u];
    forall i | 0 <= i < |ss| ensures OwnsOn(b)(ss[i]) <= IsEngine()(ss[i]) {
      assert i != h ==> ss[i] == s.ss[i];
    }
    SumMonotone(ss, OwnsOn(b), IsEngine());
  }

  // In a deadlock somebody holds the mutex: the owners behind any waiter wait for it.
  lemma DeadlockHasHolder(cfg: Config, s: State)
    requires cfg.Valid() && !cfg.nested && Reachable(cfg, s) && Inv(cfg, s) && Deadlocked(cfg, s)
    ensures s.mu.Some?
  {
    var i :| 0 <= i < |s.ss| && Active(s.ss[i]);
    if s.mu.None? {
      var b := s.ss[i].pc.b;
      ReachableProgress(cfg, s, b);
      RemovedIffNotGranted(s, i);
      NoneParked(cfg, s, b);
      var o := SumWitness(s.ss, OwnsOn(b));
      OwnersWaitForLock(cfg, s, o, b);
    }
  }

  // The lock holder waits to reacquire, and its backend has no slot left.
  lemma HolderHasNothing(cfg: Config, s: State) returns (h: nat, b: Backend)
    requires cfg.Valid() && !cfg.nested && Reachable(cfg, s) && Inv(cfg, s) && Deadlocked(cfg, s)
    ensures s.mu == Some(h) && h < |s.ss| && HolderWaits(s.ss[h], b) && Free(s.At(b).sem) == 0
  {
    DeadlockHasHolder(cfg, s);
    h := s.mu.value;
    assert InLock(s.ss[h]) && Active(s.ss[h]) && Blocked(cfg, s, h);
    b := s.ss[h].pc.b;
    ReachableProgress(cfg, s, b);
    assert HolderWaits(s.ss[h], b);
    NoneParked(cfg, s, b);
  }

  // Any deadlock is the slot/mutex cycle (with the context of its lock holder alive or not), on
  // a backend with fewer slots than engine loops.
  lemma DeadlockNeedsFewSlots(cfg: Config, s: State)
    requires cfg.Valid() && !cfg.nested && Reachable(cfg, s) && Deadlocked(cfg, s)
    ensures s.mu.Some? && s.mu.value < |s.ss| && s.ss[s.mu.value].pc.Waiting? && s.ss[s.mu.value].pc.back
    ensures cfg.Cap(s.ss[s.mu.value].pc.b) < cfg.engines
  {
    ReachableInv(cfg, s);
    var h, b := HolderHasNothing(cfg, s);
    assert BackendOk(cfg, s, b) && Bracket(s.ss[h]);
    forall o | 0 <= o < |s.ss| && Owns(s.ss[o], b) > 0 ensures s.ss[o].kind.EngineLoop? {
      OwnersWaitForLock(cfg, s, o, b);
    }
    OwnersAreEngines(cfg, s, h, b);
  }

  // With at least as many slots on each backend as engine loops, and no tool that calls a client,
  // some active session can always move.
  lemma DeadlockFree(cfg: Config, s: State, i: nat)
    requires cfg.Valid() && !cfg.nested && Reachable(cfg, s)
    requires cfg.primarySlots >= cfg.engines && cfg.brainSlots >= cfg.engines
    requires i < |s.ss| && Active(s.ss[i])
    ensures exists k :: 0 <= k < |s.ss| && Active(s.ss[k]) && Step(cfg, s, Act(k, NextMove(s.ss[k]))).Some?
  {
    ReachableInv(cfg, s);
    if Deadlocked(cfg, s) {
      DeadlockNeedsFewSlots(cfg, s);
    }
    var k :| 0 <= k < |s.ss| && Active(s.ss[k]) && !Blocked(cfg, s, k);
    UnblockedMoves(cfg, s, k);
  }

  // ---------------------------------------------------------------------------
  // The cycle is permanent
  // ---------------------------------------------------------------------------

  // The waiting lock holder cannot move while its context lives.
  lemma HolderStays(cfg: Config, i: nat, x: Session, muFree: bool, move: Move)
    requires x.pc.Waiting? && !x.granted && !x.ctxDone && !move.CtxDone?
    ensures MovePlan(cfg, i, x, muFree, move).None?
  {
  }

  // While the mutex is taken, a session that waits for it stays there whatever it does.
  lemma LockWaiterStays(cfg: Config, i: nat, x: Session, move: Move)
    requires x.kind.EngineLoop? && x.pc.LockWait? && MovePlan(cfg, i, x, false, move).Some?
    ensures var p := MovePlan(cfg, i, x, false, move).value;
            p.op.Nop? && p.yes == p.no && p.yes.kind.EngineLoop? && p.yes.pc.LockWait?
  {
  }

  // What a move in the cycle can be
  ghost predicate CyclePlan(s: State, h: nat, b: Backend, i: nat, p: Plan)
    requires i < |s.ss|
  {
    && PlanOk(i, s.ss[i], p, s.mu.None?) && i != h && p.lock.Keep?
    && (p.b == b ==> !GivesBack(p.op))
    && (Owns(s.ss[i], b) > 0 ==> p.yes == p.no && p.yes.kind.EngineLoop? && p.yes.pc.LockWait?)
  }

  lemma CycleMove(cfg: Config, s: State, h: nat, b: Backend, i: nat, move: Move)
    requires Inv(cfg, s) && Cycle(s, h, b)
    requires i < |s.ss| && MovePlan(cfg, i, s.ss[i], s.mu.None?, move).Some?
    requires i == h ==> !move.CtxDone?
    ensures CyclePlan(s, h, b, i, MovePlan(cfg, i, s.ss[i], s.mu.None?, move).value)
  {
    var x := s.ss[i];
    assert Bracket(x) && (InLock(x) <==> s.mu == Some(i));
    if i == h {
      HolderStays(cfg, i, x, s.mu.None?, move);
    }
    MoveOk(cfg, i, x, s.mu.None?, move);
    StrayMoveExactly(cfg, i, x, s.mu.None?, move);
    if Owns(x, b) > 0 {
      LockWaiterStays(cfg, i, x, move);
    }
  }

  // Such a section leaves the semaphore of b without free slots, and serves nobody.
  lemma EmptySection(v: Sem, op: Op, form: Form)
    requires Free(v) == 0 && !GivesBack(op)
    ensures var e := Apply(v, op, form); e.woken.None? && !e.took && Free(e.sem) == 0
  {
  }

  lemma CycleOwner(cfg: Config, s: State, h: nat, b: Backend, i: nat, p: Plan, k: nat)
    requires Inv(cfg, s) && Cycle(s, h, b) && i < |s.ss| && CyclePlan(s, h, b, i, p)
    requires k < |RunPlan(cfg, s, i, p).ss| && Owns(RunPlan(cfg, s, i, p).ss[k], b) > 0
    ensures RunPlan(cfg, s, i, p).ss[k].kind.EngineLoop? && RunPlan(cfg, s, i, p).ss[k].pc.LockWait?
  {
    var t := RunPlan(cfg, s, i, p);
    var e := Apply(s.At(p.b).sem, p.op, cfg.form);
    if p.b == b {
      EmptySection(s.At(b).sem, p.op, cfg.form);
    }
    WokenWaits(cfg, s, i, p);
    OwnChange(cfg, s, i, p, b);
    if e.woken.Some? {
      assert Bracket(s.ss[e.woken.value]);
      assert Owns(s.ss[e.woken.value].(granted := true), b) == 0;
    }
    assert t.ss[k] == if k == i then Becomes(p, e) else s.ss[k];
  }

  lemma CycleKept(cfg: Config, s: State, h: nat, b: Backend, i: nat, p: Plan)
    requires Inv(cfg, s) && Cycle(s, h, b) && i < |s.ss| && CyclePlan(s, h, b, i, p)
    ensures Cycle(RunPlan(cfg, s, i, p), h, b)
  {
    var t := RunPlan(cfg, s, i, p);
    WokenWaits(cfg, s, i, p);
    if p.b == b {
      EmptySection(s.At(b).sem, p.op, cfg.form);
    }
    forall k | 0 <= k < |t.ss| && Owns(t.ss[k], b) > 0
      ensures t.ss[k].kind.EngineLoop? && t.ss[k].pc.LockWait?
    {
      CycleOwner(cfg, s, h, b, i, p, k);
    }
  }

  lemma CycleStep(cfg: Config, s: State, h: nat, b: Backend, a: Action)
    requires Inv(cfg, s) && Cycle(s, h, b)
    requires a != Act(h, CtxDone) && Step(cfg, s, a).Some?
    ensures Cycle(Step(cfg, s, a).value, h, b)
  {
    if a.Act? {
      CycleMove(cfg, s, h, b, a.i, a.move);
      CycleKept(cfg, s, h, b, a.i, MovePlan(cfg, a.i, s.ss[a.i], s.mu.None?, a.move).value);
    }
  }

  // Once the cycle is there, it stays through every continuation that does not cancel the lock
  // holder's context; until then no user message gets past its snapshot either.
  lemma {:induction false} CycleForever(cfg: Config, s: State, h: nat, b: Backend, acts: seq<Action>)
    requires Inv(cfg, s) && Cycle(s, h, b)
    requires Act(h, CtxDone) !in acts && Run(cfg, s, acts).Some?
    ensures var t := Run(cfg, s, acts).value;
            Cycle(t, h, b) && forall i :: 0 <= i < |t.ss| ==> Step(cfg, t, Act(i, Snapshot)).None?
    decreases |acts|
  {
    if acts != [] {
      CycleStep(cfg, s, h, b, acts[0]);
      StepKeeps(cfg, s, acts[0]);
      CycleForever(cfg, Step(cfg, s, acts[0]).value, h, b, acts[1..]);
    }
  }
}
