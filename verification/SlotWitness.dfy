/**
  Runs of the slot protocol that end in the states the exact results ask for: the slot/mutex
  cycle, a release by a non-owner, a cancelled reservation, and tools that wait for themselves.

  The runs are built without calls from tools; such runs exist for every configuration.
 */
module SlotWitness {
  import opened Sums
  import opened Wrappers
  import opened PrioritySemaphore
  import opened SlotProtocol
  import opened SlotSafety
  import opened SlotProgress
  import opened SlotDeadlock

  // A section that wakes nobody, mints nothing and releases nothing the session does not own.
  predicate PlainRun(cfg: Config, s: State, i: nat, p: Plan, t: State)
    requires i < |s.ss|
  {
    var v := s.At(p.b);
    var e := Apply(v.sem, p.op, cfg.form);
    && e.woken.None? && Surplus(v.sem, p.op, cfg.form) == 0
    && (GivesBack(p.op) ==> Owns(s.ss[i], p.b) > 0)
    && t == s.With(p.b, v.(sem := e.sem)).(ss := s.ss[i := Becomes(p, e)],
              mu := match p.lock case Keep => s.mu case Grab => Some(i) case Drop => None)
  }

  lemma PlainRunIs(cfg: Config, s: State, i: nat, p: Plan, t: State)
    requires i < |s.ss| && PlainRun(cfg, s, i, p, t)
    ensures RunPlan(cfg, s, i, p) == t
  {
  }

  lemma ReachMove(cfg: Config, s: State, i: nat, move: Move, p: Plan, t: State)
    requires Reachable(cfg, s) && i < |s.ss| && !HasCall(cfg, s, i)
    requires MovePlan(cfg, i, s.ss[i], s.mu.None?, move) == Some(p) && PlainRun(cfg, s, i, p, t)
    ensures Reachable(cfg, t)
  {
    PlainRunIs(cfg, s, i, p, t);
    ReachableStep(cfg, s, Act(i, move));
  }

  // ---------------------------------------------------------------------------
  // Runs without calls from tools
  // ---------------------------------------------------------------------------

  predicate NoCalls(s: State) { forall k :: 0 <= k < |s.ss| ==> !FromTool(s.ss[k].kind) }

  lemma StepWithoutCalls(cfg: Config, s: State, a: Action)
    requires NoCalls(s) && Step(cfg.(nested := false), s, a).Some?
    ensures Step(cfg, s, a) == Step(cfg.(nested := false), s, a) && NoCalls(Step(cfg, s, a).value)
  {
    if a.Act? {
      PlanWithoutCalls(cfg, a.i, s.ss[a.i], s.mu.None?, a.move);
    }
  }

  lemma PlanWithoutCalls(cfg: Config, i: nat, x: Session, muFree: bool, move: Move)
    requires MovePlan(cfg, i, x, muFree, move).Some?
    ensures MovePlan(cfg.(nested := false), i, x, muFree, move) == MovePlan(cfg, i, x, muFree, move)
    ensures var p := MovePlan(cfg, i, x, muFree, move).value; p.yes.kind == p.no.kind == x.kind
  {
  }

  lemma {:induction false} RunWithoutCalls(cfg: Config, s: State, acts: seq<Action>)
    requires NoCalls(s) && Run(cfg.(nested := false), s, acts).Some?
    ensures Run(cfg, s, acts) == Run(cfg.(nested := false), s, acts) && NoCalls(Run(cfg, s, acts).value)
    decreases |acts|
  {
    if acts != [] {
      StepWithoutCalls(cfg, s, acts[0]);
      RunWithoutCalls(cfg, Step(cfg, s, acts[0]).value, acts[1..]);
    }
  }

  // What is reachable without calls from tools is reachable whether or not they are possible.
  lemma Lift(cfg: Config, s: State)
    requires Reachable(cfg.(nested := false), s)
    ensures Reachable(cfg, s) && NoCalls(s)
  {
    var acts :| Run(cfg.(nested := false), Init(cfg.(nested := false)), acts) == Some(s);
    assert Init(cfg) == Init(cfg.(nested := false));
    RunWithoutCalls(cfg, Init(cfg), acts);
  }

  // ---------------------------------------------------------------------------
  // Sessions that hold slots
  // ---------------------------------------------------------------------------

  function Holding(kind: Kind, pc: Pc, b: Backend): Session {
    Session(kind, pc, On(b), true, true, false, false)
  }

  // A direct client call, a user message and a background job that hold a slot of b, and an
  // engine loop that holds one and waits for the mutex
  function Holder(b: Backend): Session { Holding(DirectCall(b, None), Chatting, b) }

  function Chatter(): Session { Holding(UserMessage, Chatting, Primary) }

  function Worker(): Session { Holding(BackgroundJob, Chatting, Brain) }

  function Parked(b: Backend): Session { Holding(EngineLoop, LockWait, b) }

  // The session around a tool: its slot is given back.
  function Away(x: Session, pc: Pc): Session { x.(pc := pc, acquired := false, holds := false) }

  function TakeSlots(s: State, b: Backend, k: nat): State
    requires s.At(b).sem.avail >= k
  {
    s.With(b, s.At(b).(sem := s.At(b).sem.(avail := s.At(b).sem.avail - k)))
  }

  // k more sessions like x hold slots of b.
  function Filled(s: State, b: Backend, x: Session, k: nat): State
    requires s.At(b).sem.avail >= k
  {
    TakeSlots(s, b, k).(ss := s.ss + seq(k, (_: nat) => x))
  }

  predicate Fits(s: State, b: Backend, x: Session) {
    || x == Holder(b)
    || (s.At(b).sem.reserved == 0 && ((x == Chatter() && b.Primary? && s.mu.None?) || (x == Worker() && b.Brain?)))
  }

  // A session arrives and comes to its first acquire.
  lemma Arrive(cfg: Config, s: State, kind: Kind) returns (t: State)
    requires !cfg.nested && Reachable(cfg, s) && !FromTool(kind) && !kind.EngineLoop? && (kind.UserMessage? ==> s.mu.None?)
    ensures Reachable(cfg, t)
    ensures t == s.(ss := s.ss + [Fresh(kind).(pc := if kind.UserMessage? then TryPrimary else FirstPc(kind))])
  {
    var n, x := |s.ss|, Fresh(kind);
    ReachableStep(cfg, s, Spawn(kind));
    var s1 := s.(ss := s.ss + [x]);
    var y := x.(pc := FirstPc(kind));
    t := s.(ss := s.ss + [y]);
    assert s1.ss[n := y] == t.ss;
    ReachMove(cfg, s1, n, Start, Plan(Primary, Nop, y, y, Keep), t);
    if kind.UserMessage? {
      var s2, z := t, y.(pc := TryPrimary);
      t := s.(ss := s.ss + [z]);
      assert s2.ss[n := z] == t.ss;
      ReachMove(cfg, s2, n, Snapshot, Plan(Primary, Nop, z, z, Keep), t);
    }
  }

  lemma FillOne(cfg: Config, s: State, b: Backend, x: Session)
    requires !cfg.nested && Reachable(cfg, s) && Fits(s, b, x)
    requires s.At(b).sem.avail >= 1 && s.At(b).sem.high == []
    ensures Reachable(cfg, TakeSlots(s, b, 1).(ss := s.ss + [x]))
  {
    var n, t := |s.ss|, TakeSlots(s, b, 1).(ss := s.ss + [x]);
    var s1 := Arrive(cfg, s, x.kind);
    var y := s1.ss[n];
    assert s1.ss[n := x] == t.ss;
    match x.kind
    case DirectCall(_, _) =>
      ReachMove(cfg, s1, n, Attempt, Plan(b, Acquire(Background, n), x, y.(pc := Waiting(b, false)), Keep), t);
    case UserMessage =>
      ReachMove(cfg, s1, n, Attempt, Plan(b, TryAcquire(User), x, y.(pc := Ask(Brain)), Keep), t);
    case BackgroundJob =>
      ReachMove(cfg, s1, n, Attempt, Plan(b, TryAcquire(User), x, y.(pc := TryPrimary), Keep), t);
  }

  lemma FilledNext(s: State, b: Backend, x: Session, k: nat)
    requires s.At(b).sem.avail >= k + 1
    ensures Filled(s, b, x, k + 1) == TakeSlots(Filled(s, b, x, k), b, 1).(ss := Filled(s, b, x, k).ss + [x])
    ensures var v := Filled(s, b, x, k).At(b).sem; v.avail >= 1 && v.high == s.At(b).sem.high
    ensures Fits(s, b, x) ==> Fits(Filled(s, b, x, k), b, x)
  {
    assert Filled(s, b, x, k + 1).ss == Filled(s, b, x, k).ss + [x];
  }

  lemma {:induction false} Fill(cfg: Config, s: State, b: Backend, x: Session, k: nat)
    requires !cfg.nested && Reachable(cfg, s) && Fits(s, b, x)
    requires s.At(b).sem.avail >= k && s.At(b).sem.high == []
    ensures Reachable(cfg, Filled(s, b, x, k))
  {
    if k == 0 {
      assert Filled(s, b, x, k).ss == s.ss;
      assert Filled(s, b, x, k) == s;
    } else {
      Fill(cfg, s, b, x, k - 1);
      FilledNext(s, b, x, k - 1);
      FillOne(cfg, Filled(s, b, x, k - 1), b, x);
    }
  }

  // Engine loops 1..k hold slots of b and wait for the mutex.
  function Crowded(s: State, b: Backend, k: nat): State
    requires s.At(b).sem.avail >= k
  {
    TakeSlots(s, b, k).(ss := seq(|s.ss|, (j: nat) requires j < |s.ss| => if 1 <= j <= k then Parked(b) else s.ss[j]))
  }

  predicate CanCrowd(s: State, b: Backend, k: nat) {
    && k < |s.ss| && (forall j :: 1 <= j <= k ==> s.ss[j] == Fresh(EngineLoop))
    && s.At(b).sem.avail >= k && s.At(b).sem.high == []
    && (b.Brain? ==> s.primary.sem.avail == 0)
  }

  // An engine loop comes to the first backend.
  lemma EngineStarts(cfg: Config, s: State, k: nat)
    requires !cfg.nested && Reachable(cfg, s) && k < |s.ss| && s.ss[k] == Fresh(EngineLoop)
    ensures Reachable(cfg, s.(ss := s.ss[k := s.ss[k].(pc := TryPrimary)]))
  {
    var x := Fresh(EngineLoop).(pc := TryPrimary);
    ReachMove(cfg, s, k, Start, Plan(Primary, Nop, x, x, Keep), s.(ss := s.ss[k := x]));
  }

  lemma EngineAsksBrain(cfg: Config, s: State, k: nat)
    requires !cfg.nested && Reachable(cfg, s) && k < |s.ss| && s.ss[k] == Fresh(EngineLoop).(pc := Ask(Brain))
    requires s.brain.sem.avail >= 1 && s.brain.sem.high == []
    ensures Reachable(cfg, TakeSlots(s, Brain, 1).(ss := s.ss[k := Parked(Brain)]))
  {
    ReachMove(cfg, s, k, Attempt,
              Plan(Brain, Acquire(Background, k), Parked(Brain), s.ss[k].(pc := Waiting(Brain, false)), Keep),
              TakeSlots(s, Brain, 1).(ss := s.ss[k := Parked(Brain)]));
  }

  lemma Overwrite(ss: seq<Session>, k: nat, x: Session, y: Session)
    requires k < |ss|
    ensures ss[k := x][k := y] == ss[k := y]
  {
  }

  // One more engine loop takes a slot of b, the Brain when the primary has none.
  lemma EngineTakes(cfg: Config, s: State, b: Backend, k: nat)
    requires !cfg.nested && Reachable(cfg, s) && k < |s.ss| && s.ss[k] == Fresh(EngineLoop)
    requires s.At(b).sem.avail >= 1 && s.At(b).sem.high == [] && (b.Brain? ==> s.primary.sem.avail == 0)
    ensures Reachable(cfg, TakeSlots(s, b, 1).(ss := s.ss[k := Parked(b)]))
  {
    var x, y := s.ss[k].(pc := TryPrimary), s.ss[k].(pc := Ask(Brain));
    var s1 := s.(ss := s.ss[k := x]);
    EngineStarts(cfg, s, k);
    Overwrite(s.ss, k, x, Parked(b));
    Overwrite(s.ss, k, x, y);
    Overwrite(s.ss, k, y, Parked(b));
    if b.Primary? {
      EngineTriesPrimary(cfg, s1, k, TakeSlots(s, b, 1).(ss := s.ss[k := Parked(b)]));
    } else {
      EngineTriesPrimary(cfg, s1, k, s.(ss := s.ss[k := y]));
      EngineAsksBrain(cfg, s.(ss := s.ss[k := y]), k);
    }
  }

  lemma EngineTriesPrimary(cfg: Config, s: State, k: nat, t: State)
    requires !cfg.nested && Reachable(cfg, s) && k < |s.ss| && s.ss[k] == Fresh(EngineLoop).(pc := TryPrimary)
    requires s.primary.sem.avail >= 1 ==> s.primary.sem.high == []
    requires t == if s.primary.sem.avail >= 1 then TakeSlots(s, Primary, 1).(ss := s.ss[k := Parked(Primary)])
                  else s.(ss := s.ss[k := s.ss[k].(pc := Ask(Brain))])
    ensures Reachable(cfg, t)
  {
    ReachMove(cfg, s, k, Attempt,
              Plan(Primary, TryAcquire(Background), Parked(Primary), s.ss[k].(pc := Ask(Brain)), Keep), t);
  }

  lemma CrowdedNext(s: State, b: Backend, k: nat)
    requires CanCrowd(s, b, k + 1)
    ensures CanCrowd(s, b, k)
    ensures var u := Crowded(s, b, k);
            && Crowded(s, b, k + 1) == TakeSlots(u, b, 1).(ss := u.ss[k + 1 := Parked(b)])
            && u.ss[k + 1] == Fresh(EngineLoop) && u.At(b).sem.avail >= 1 && u.At(b).sem.high == []
            && (b.Brain? ==> u.primary.sem.avail == 0)
  {
    assert Crowded(s, b, k + 1).ss == Crowded(s, b, k).ss[k + 1 := Parked(b)];
  }

  lemma {:induction false} Crowd(cfg: Config, s: State, b: Backend, k: nat)
    requires !cfg.nested && Reachable(cfg, s) && CanCrowd(s, b, k)
    ensures Reachable(cfg, Crowded(s, b, k))
  {
    if k == 0 {
      assert Crowded(s, b, k).ss == s.ss;
      assert Crowded(s, b, k) == s;
    } else {
      CrowdedNext(s, b, k - 1);
      Crowd(cfg, s, b, k - 1);
      EngineTakes(cfg, Crowded(s, b, k - 1), b, k);
    }
  }

  // ---------------------------------------------------------------------------
  // Reaching the cycle
  // ---------------------------------------------------------------------------

  // Engine loop 0 runs a tool: it released its slot of b and holds the mutex.
  function InTool(s: State, b: Backend): State
    requires 0 < |s.ss|
  {
    s.(mu := Some(0), ss := s.ss[0 := Away(Parked(b), ToolRunning)])
  }

  lemma FirstEngineLocks(cfg: Config, s: State, b: Backend)
    requires !cfg.nested && Reachable(cfg, s) && 0 < |s.ss| && s.ss[0] == Fresh(EngineLoop) && s.mu.None?
    requires s.At(b).sem.avail >= 1 && s.At(b).sem.high == [] && (b.Brain? ==> s.primary.sem.avail == 0)
    ensures Reachable(cfg, TakeSlots(s, b, 1).(mu := Some(0), ss := s.ss[0 := Parked(b).(pc := Chatting)]))
  {
    EngineTakes(cfg, s, b, 0);
    var s1, x := TakeSlots(s, b, 1).(ss := s.ss[0 := Parked(b)]), Parked(b).(pc := Chatting);
    var t := s1.(mu := Some(0), ss := s.ss[0 := x]);
    assert s1.ss[0 := x] == t.ss;
    ReachMove(cfg, s1, 0, Lock, Plan(Primary, Nop, x, x, Grab), t);
  }

  lemma FirstEngineInTool(cfg: Config, s: State, b: Backend)
    requires !cfg.nested && Reachable(cfg, s) && 0 < |s.ss| && s.ss[0] == Fresh(EngineLoop) && s.mu.None?
    requires s.At(b).sem.avail >= 1 && s.At(b).sem.high == s.At(b).sem.low == []
    requires b.Brain? ==> s.primary.sem.avail == 0
    ensures Reachable(cfg, InTool(s, b))
  {
    FirstEngineLocks(cfg, s, b);
    var s2 := TakeSlots(s, b, 1).(mu := Some(0), ss := s.ss[0 := Parked(b).(pc := Chatting)]);
    var t, y := InTool(s, b), Away(Parked(b), ToolRunning);
    assert s2.ss[0 := y] == t.ss;
    ReachMove(cfg, s2, 0, ToolStart, Plan(b, Release, y, y, Keep), t);
  }

  // Engine loop 0 is in a tool, b has no unreserved slot and nobody waits: it must queue.
  lemma FirstEngineQueues(cfg: Config, s: State, b: Backend) returns (t: State)
    requires !cfg.nested && Reachable(cfg, s) && 0 < |s.ss| && s.At(b).sem.avail == 0
    requires s.At(b).sem.low == [] && s.ss[0] == Away(Parked(b), ToolRunning)
    ensures Reachable(cfg, t)
    ensures t == s.With(b, s.At(b).(sem := s.At(b).sem.(low := [0]))).(ss := s.ss[0 := s.ss[0].(pc := Waiting(b, true))])
  {
    var x := s.ss[0];
    var y := x.(pc := Waiting(b, true));
    t := s.With(b, s.At(b).(sem := s.At(b).sem.(low := [0]))).(ss := s.ss[0 := y]);
    ReachMove(cfg, s, 0, ToolEnd, Plan(b, Acquire(Background, 0), Got(x, b, true), y, Keep), t);
  }

  // The primary is full when something is to happen on the Brain.
  lemma StartFor(cfg: Config, b: Backend) returns (s: State)
    requires cfg.Valid() && !cfg.nested
    ensures Reachable(cfg, s) && |s.ss| >= cfg.engines && s.mu.None?
    ensures forall j :: 0 <= j < cfg.engines ==> s.ss[j] == Fresh(EngineLoop)
    ensures forall j :: cfg.engines <= j < |s.ss| ==> b.Brain? && s.ss[j] == Holder(Primary)
    ensures s.At(b) == Server(NewSem(cfg.Cap(b)), 0, 0) && (b.Brain? ==> s.primary.sem.avail == s.primary.sem.reserved == 0)
    ensures b.Brain? ==> s.primary.sem.high == s.primary.sem.low == []
  {
    s := Init(cfg);
    assert Run(cfg, s, []) == Some(s);
    if b.Brain? {
      Fill(cfg, s, Primary, Holder(Primary), cfg.primarySlots);
      s := Filled(s, Primary, Holder(Primary), cfg.primarySlots);
    }
  }

  // Engine loop 0 waits to reacquire, the next ones own every slot of b and wait for the mutex,
  // and everyone else is idle or, when b is the Brain, a call on the primary.
  predicate CycleShape(t: State, b: Backend) {
    && 0 < |t.ss| && t.mu == Some(0) && t.ss[0] == Away(Parked(b), Waiting(b, true))
    && Free(t.At(b).sem) == 0
    && (forall j :: 1 <= j < |t.ss| ==> t.ss[j] == Parked(b) || t.ss[j] == Fresh(EngineLoop) || (b.Brain? && t.ss[j] == Holder(Primary)))
    && (b.Brain? ==> t.primary.sem.high == t.primary.sem.low == [])
  }

  lemma ReachCycle(cfg: Config, b: Backend) returns (t: State)
    requires cfg.Valid() && !cfg.nested && cfg.Cap(b) < cfg.engines
    ensures Reachable(cfg, t) && CycleShape(t, b)
  {
    var c := cfg.Cap(b);
    var s0 := StartFor(cfg, b);
    FirstEngineInTool(cfg, s0, b);
    var s1 := InTool(s0, b);
    Crowd(cfg, s1, b, c);
    var s2 := Crowded(s1, b, c);
    t := FirstEngineQueues(cfg, s2, b);
    assert forall j :: 1 <= j < |t.ss| ==> t.ss[j] == if j <= c then Parked(b) else s0.ss[j];
  }

  // With fewer slots than engine loops on a backend the cycle is reachable.
  lemma CycleReachable(cfg: Config, b: Backend) returns (t: State)
    requires cfg.Valid() && cfg.Cap(b) < cfg.engines
    ensures Reachable(cfg, t) && Cycle(t, 0, b)
  {
    t := ReachCycle(cfg.(nested := false), b);
    Lift(cfg, t);
  }

  function Finished(b: Backend): Session { Away(Holder(b), Done) }

  function HoldersOn(b: Backend): Session -> nat { (x: Session) => B(x == Holder(b)) }

  // The direct calls on the primary come to their end, one after the other.
  lemma {:induction false} FinishCalls(cfg: Config, s: State) returns (t: State)
    requires !cfg.nested && Reachable(cfg, s) && s.primary.sem.high == s.primary.sem.low == []
    ensures Reachable(cfg, t) && t.mu == s.mu && t.brain == s.brain && |t.ss| == |s.ss|
    ensures forall j :: 0 <= j < |s.ss| ==> t.ss[j] == if s.ss[j] == Holder(Primary) then Finished(Primary) else s.ss[j]
    decreases Sum(s.ss, HoldersOn(Primary))
  {
    if Sum(s.ss, HoldersOn(Primary)) == 0 {
      t := s;
      forall j | 0 <= j < |s.ss| ensures s.ss[j] != Holder(Primary) {
        SumAtLeast(s.ss, HoldersOn(Primary), j);
      }
    } else {
      var k := SumWitness(s.ss, HoldersOn(Primary));
      var y := Finished(Primary);
      var v := s.primary;
      var u := s.(primary := v.(sem := v.sem.(avail := v.sem.avail + 1)), ss := s.ss[k := y]);
      ReachMove(cfg, s, k, Finish(false), Plan(Primary, Release, y, y, Keep), u);
      SumUpdate(s.ss, HoldersOn(Primary), k, y);
      t := FinishCalls(cfg, u);
    }
  }

  // With fewer slots than engine loops on a backend, everybody at work can be blocked.
  lemma FewSlotsDeadlock(cfg: Config, b: Backend) returns (t: State)
    requires cfg.Valid() && !cfg.nested && cfg.Cap(b) < cfg.engines
    ensures Reachable(cfg, t) && Deadlocked(cfg, t)
  {
    t := ReachCycle(cfg, b);
    if b.Brain? {
      t := FinishCalls(cfg, t);
    }
    assert Active(t.ss[0]);
    forall j | 0 <= j < |t.ss| && Active(t.ss[j]) ensures Blocked(cfg, t, j) {
      assert j == 0 || t.ss[j] == Parked(b) || t.ss[j] == Fresh(EngineLoop) || t.ss[j] == Finished(Primary);
    }
  }

  // ---------------------------------------------------------------------------
  // Overcommitment
  // ---------------------------------------------------------------------------

  // Engine loop 0 fails to reacquire its slot: its context ends while it is queued.
  lemma FirstEngineFails(cfg: Config, s: State, b: Backend) returns (t: State)
    requires !cfg.nested && Reachable(cfg, s) && 0 < |s.ss| && s.At(b).sem.avail == 0 && s.At(b).sem.low == []
    requires s.ss[0] == Away(Parked(b), ToolRunning)
    ensures Reachable(cfg, t)
    ensures t == s.(ss := s.ss[0 := s.ss[0].(pc := Unreserving(b), ctxDone := true)])
  {
    var s1 := FirstEngineQueues(cfg, s, b);
    var x := s1.ss[0].(ctxDone := true);
    var s2 := s1.(ss := s1.ss[0 := x]);
    ReachMove(cfg, s1, 0, CtxDone, Plan(Primary, Nop, x, x, Keep), s2);
    var y := x.(pc := Unreserving(b));
    t := s.(ss := s.ss[0 := y]);
    assert s2.ss[0 := y] == t.ss;
    ReachMove(cfg, s2, 0, AbandonWait, Plan(b, Abandon(Background, 0), y, x.(pc := Returning(b, true)), Keep), t);
  }

  predicate OneTooMany(s: State, b: Backend) {
    && s.At(b).sem.reserved == 0 && s.At(b).sem.high == [] && s.At(b).stray + s.At(b).surplus > 0
    && s.At(b).sem.avail > 0
  }

  // Engine loop 0 gave up its reacquire, everything else on b is taken.
  predicate Failed(s: State, b: Backend) {
    && 0 < |s.ss| && s.ss[0] == Away(Parked(b), Unreserving(b)).(ctxDone := true) && s.At(b).sem.cap > 0
    && s.At(b).sem.avail == 0 && s.At(b).sem.high == s.At(b).sem.low == [] && s.At(b).surplus == s.At(b).stray == 0
  }

  lemma NoReservationFails(cfg: Config, b: Backend) returns (s: State)
    requires cfg.Valid() && !cfg.nested && cfg.engines > 0
    ensures Reachable(cfg, s) && Failed(s, b) && s.At(b).sem.reserved == 0
  {
    var s0 := StartFor(cfg, b);
    FirstEngineInTool(cfg, s0, b);
    Fill(cfg, InTool(s0, b), b, Holder(b), cfg.Cap(b));
    s := FirstEngineFails(cfg, Filled(InTool(s0, b), b, Holder(b), cfg.Cap(b)), b);
  }

  // Nothing is reserved: the engine loop goes on without its slot.
  lemma UnreserveInVain(cfg: Config, s: State, b: Backend)
    requires !cfg.nested && Reachable(cfg, s) && Failed(s, b) && s.At(b).sem.reserved == 0
    ensures Reachable(cfg, s.(ss := s.ss[0 := s.ss[0].(pc := ToolEnded)]))
  {
    var x := s.ss[0].(pc := ToolEnded);
    ReachMove(cfg, s, 0, Unreserve, Plan(b, Op.CancelReservation, x, x, Keep), s.(ss := s.ss[0 := x]));
  }

  // A fallback after the failed reacquire releases the slot a second time.
  lemma FallbackReleases(cfg: Config, s: State, b: Backend) returns (t: State)
    requires !cfg.nested && cfg.fallbacks && Reachable(cfg, s) && 0 < |s.ss|
    requires s.ss[0] == Away(Parked(b), ToolEnded).(ctxDone := true)
    requires s.At(b).sem.reserved == s.At(b).sem.avail == 0 && s.At(b).sem.high == s.At(b).sem.low == [] && s.At(b).stray == 0
    ensures Reachable(cfg, t) && OneTooMany(t, b) && t.At(b).stray == 1
  {
    var y, v := s.ss[0].(pc := ToolRunning), s.At(b);
    t := s.With(b, v.(sem := v.sem.(avail := 1), stray := 1)).(ss := s.ss[0 := y]);
    assert MovePlan(cfg, 0, s.ss[0], s.mu.None?, Fallback) == Some(Plan(b, Op.Release, y, y, Keep));
    ReachableStep(cfg, s, Act(0, Fallback));
  }

  lemma StrayReachable(cfg: Config, b: Backend) returns (s: State)
    requires cfg.Valid() && !cfg.nested && cfg.engines > 0 && cfg.fallbacks
    ensures Reachable(cfg, s) && OneTooMany(s, b) && s.At(b).stray == 1
  {
    s := NoReservationFails(cfg, b);
    UnreserveInVain(cfg, s, b);
    s := FallbackReleases(cfg, s.(ss := s.ss[0 := s.ss[0].(pc := ToolEnded)]), b);
  }

  lemma UserTakes(cfg: Config, s: State, b: Backend, n: nat)
    requires !cfg.nested && Reachable(cfg, s) && n < |s.ss| && s.ss[n] == Fresh(UserMessage).(pc := TryPrimary)
    requires s.At(b).sem.avail >= 1 && s.At(b).sem.reserved == 0
    requires b.Brain? ==> s.primary.sem.avail == s.primary.sem.reserved == 0
    ensures Reachable(cfg, TakeSlots(s, b, 1).(ss := s.ss[n := Holding(UserMessage, Chatting, b)]))
  {
    var x, y := s.ss[n], Holding(UserMessage, Chatting, b);
    var asks := x.(pc := Ask(Brain));
    var try := Plan(Primary, TryAcquire(User), Got(x, Primary, false), asks, Keep);
    if b.Primary? {
      ReachMove(cfg, s, n, Attempt, try, TakeSlots(s, b, 1).(ss := s.ss[n := y]));
    } else {
      var s0 := s.(ss := s.ss[n := asks]);
      ReachMove(cfg, s, n, Attempt, try, s0);
      Overwrite(s.ss, n, asks, y);
      ReachMove(cfg, s0, n, Attempt, Plan(Brain, Acquire(User, n), y, asks.(pc := Waiting(Brain, false)), Keep),
                TakeSlots(s, b, 1).(ss := s.ss[n := y]));
    }
  }

  // A user takes a slot of b and parks it as a reservation around its tool.
  lemma UserParks(cfg: Config, s: State, b: Backend, n: nat) returns (t: State)
    requires !cfg.nested && Reachable(cfg, s) && n < |s.ss| && s.ss[n] == Fresh(UserMessage).(pc := TryPrimary)
    requires s.At(b).sem.avail >= 1 && s.At(b).sem.reserved == 0 && s.At(b).sem.high == []
    requires b.Brain? ==> s.primary.sem.avail == s.primary.sem.reserved == 0
    ensures Reachable(cfg, t)
    ensures t == s.With(b, s.At(b).(sem := s.At(b).sem.(avail := s.At(b).sem.avail - 1, reserved := 1)))
                  .(ss := s.ss[n := Away(Holding(UserMessage, Chatting, b), ToolRunning)])
  {
    UserTakes(cfg, s, b, n);
    var s1 := TakeSlots(s, b, 1).(ss := s.ss[n := Holding(UserMessage, Chatting, b)]);
    var z := Away(s1.ss[n], ToolRunning);
    assert s1.ss[n := z] == s.ss[n := z];
    t := s1.With(b, s1.At(b).(sem := s1.At(b).sem.(reserved := 1))).(ss := s1.ss[n := z]);
    ReachMove(cfg, s1, n, ToolStart, Plan(b, Op.ReleaseReserved, z, z, Keep), t);
  }

  lemma ReservationFails(cfg: Config, b: Backend) returns (s: State)
    requires cfg.Valid() && !cfg.nested && cfg.engines > 0
    ensures Reachable(cfg, s) && Failed(s, b) && s.At(b).sem.reserved == 1
  {
    var s0 := StartFor(cfg, b);
    var s1 := Arrive(cfg, s0, UserMessage);
    FirstEngineInTool(cfg, s1, b);
    var s2 := UserParks(cfg, InTool(s1, b), b, |s0.ss|);
    Fill(cfg, s2, b, Holder(b), cfg.Cap(b) - 1);
    s := FirstEngineFails(cfg, Filled(s2, b, Holder(b), cfg.Cap(b) - 1), b);
  }

  lemma UnreserveMints(cfg: Config, s: State, b: Backend) returns (t: State)
    requires !cfg.nested && cfg.form.AsWritten? && Reachable(cfg, s) && Failed(s, b) && s.At(b).sem.reserved == 1
    ensures Reachable(cfg, t) && OneTooMany(t, b) && t.At(b).surplus == 1
  {
    var x, v := s.ss[0].(pc := ToolEnded), s.At(b);
    t := s.With(b, v.(sem := v.sem.(avail := 2, reserved := 0), surplus := 1)).(ss := s.ss[0 := x]);
    assert MovePlan(cfg, 0, s.ss[0], s.mu.None?, Unreserve) == Some(Plan(b, Op.CancelReservation, x, x, Keep));
    ReachableStep(cfg, s, Act(0, Unreserve));
  }

  // An engine loop that fails to reacquire cancels a user's reservation; as written, the
  // semaphore then has one slot too many.
  lemma SurplusReachable(cfg: Config, b: Backend) returns (s: State)
    requires cfg.Valid() && !cfg.nested && cfg.engines > 0 && cfg.form.AsWritten?
    ensures Reachable(cfg, s) && OneTooMany(s, b) && s.At(b).surplus == 1
  {
    s := ReservationFails(cfg, b);
    s := UnreserveMints(cfg, s, b);
  }
}
