/**
  Tools that call a client themselves: the call asks the semaphore whose slot its own session
  parked or holds, and nothing tells the semaphore that the two belong together.
 */
module SlotNested {
  import opened Wrappers
  import opened PrioritySemaphore
  import opened SlotProtocol
  import opened SlotSafety
  import opened SlotDeadlock
  import opened SlotReacquire
  import opened SlotWitness

  // ---------------------------------------------------------------------------
  // Runs in which tools wait for themselves
  // ---------------------------------------------------------------------------

  // The waiting call that the tool of session i made.
  function Caller(b: Backend, i: nat): Session { Fresh(DirectCall(b, Some(i))).(pc := Waiting(b, false)) }

  // The tools of sessions first..first+k have each made a call that had to queue.
  function Called(s: State, b: Backend, first: nat, k: nat): State {
    var v := s.At(b);
    s.With(b, v.(sem := v.sem.(low := v.sem.low + seq(k, (j: nat) => |s.ss| + j))))
     .(ss := s.ss + seq(k, (j: nat) => Caller(b, first + j)))
  }

  predicate CanCall(s: State, b: Backend, first: nat, k: nat) {
    && NoCalls(s) && first + k <= |s.ss| && s.At(b).sem.avail == 0
    && forall j :: first <= j < first + k ==> MayRunTool(s.ss[j])
  }

  lemma CallOne(cfg: Config, s: State, b: Backend, i: nat, t: State)
    requires cfg.nested && Reachable(cfg, s) && i < |s.ss| && MayRunTool(s.ss[i]) && s.At(b).sem.avail == 0
    requires forall k :: 0 <= k < |s.ss| && FromTool(s.ss[k].kind) ==> s.ss[k].kind.parent.value < |s.ss|
    requires t == s.With(b, s.At(b).(sem := s.At(b).sem.(low := s.At(b).sem.low + [|s.ss|]))).(ss := s.ss + [Caller(b, i)])
    ensures Reachable(cfg, t)
  {
    var n, kind := |s.ss|, DirectCall(b, Some(i));
    var x, y := Spawned(kind), Caller(b, i);
    var s1 := s.(ss := s.ss + [x]);
    ReachableStep(cfg, s, Spawn(kind));
    assert s1.ss[n := y] == t.ss;
    ReachMove(cfg, s1, n, Attempt, Plan(b, Acquire(Background, n), Got(x, b, false), y, Keep), t);
  }

  lemma CalledNext(s: State, b: Backend, first: nat, k: nat)
    requires CanCall(s, b, first, k + 1)
    ensures var u, t := Called(s, b, first, k), Called(s, b, first, k + 1);
            && t.ss == u.ss + [Caller(b, first + k)] && t.At(b).sem.low == u.At(b).sem.low + [|u.ss|]
            && t == u.With(b, u.At(b).(sem := t.At(b).sem)).(ss := t.ss)
            && (forall j :: 0 <= j < |u.ss| && FromTool(u.ss[j].kind) ==> u.ss[j].kind.parent.value < |u.ss|)
  {
    var u := Called(s, b, first, k);
    assert forall j :: 0 <= j < |u.ss| ==> u.ss[j] == if j < |s.ss| then s.ss[j] else Caller(b, first + j - |s.ss|);
  }

  lemma {:induction false} CallAll(cfg: Config, s: State, b: Backend, first: nat, k: nat)
    requires cfg.nested && Reachable(cfg, s) && CanCall(s, b, first, k)
    ensures Reachable(cfg, Called(s, b, first, k))
  {
    if k == 0 {
      assert Called(s, b, first, k).ss == s.ss && Called(s, b, first, k).At(b).sem.low == s.At(b).sem.low;
      assert Called(s, b, first, k) == s;
    } else {
      CallAll(cfg, s, b, first, k - 1);
      CalledNext(s, b, first, k - 1);
      CallOne(cfg, Called(s, b, first, k - 1), b, first + k - 1, Called(s, b, first, k));
    }
  }

  // Users first..first+k, who own all slots of the primary, are in their tools.
  function Parking(s: State, first: nat, k: nat): State {
    s.(primary := s.primary.(sem := s.primary.sem.(reserved := s.primary.sem.reserved + k)),
       ss := seq(|s.ss|, (j: nat) requires j < |s.ss| => if first <= j < first + k then Away(Chatter(), ToolRunning) else s.ss[j]))
  }

  lemma {:induction false} ParkAll(cfg: Config, s: State, first: nat, k: nat)
    requires !cfg.nested && Reachable(cfg, s) && first + k <= |s.ss| && s.primary.sem.high == []
    requires forall j :: first <= j < first + k ==> s.ss[j] == Chatter()
    ensures Reachable(cfg, Parking(s, first, k))
  {
    if k == 0 {
      assert Parking(s, first, k).ss == s.ss;
      assert Parking(s, first, k) == s;
    } else {
      var u, t, z := Parking(s, first, k - 1), Parking(s, first, k), Away(Chatter(), ToolRunning);
      ParkAll(cfg, s, first, k - 1);
      assert t.ss == u.ss[first + k - 1 := z];
      ReachMove(cfg, u, first + k - 1, ToolStart, Plan(Primary, Op.ReleaseReserved, z, z, Keep), t);
    }
  }

  // A session whose tool will ask b: the user parked its slot of b, the job still holds one.
  function ToolUser(b: Backend): Session { if b.Primary? then Away(Chatter(), ToolRunning) else Worker() }

  // Everyone is idle, or waits for its tool's call, or is such a call.
  predicate ToolsOnly(t: State, b: Backend, first: nat, k: nat) {
    && k > 0 && |t.ss| == first + 2 * k && t.At(b).sem.avail == 0
    && (forall j :: 0 <= j < first ==> t.ss[j] == Fresh(EngineLoop))
    && (forall j :: first <= j < first + k ==> t.ss[j] == ToolUser(b))
    && (forall j :: first + k <= j < first + 2 * k ==> t.ss[j] == Caller(b, j - k))
  }

  // The state before the calls
  predicate Ready(s: State, b: Backend, first: nat, k: nat) {
    && k > 0 && |s.ss| == first + k && s.At(b).sem.avail == 0
    && (forall j :: 0 <= j < |s.ss| ==> s.ss[j] == if j < first then Fresh(EngineLoop) else ToolUser(b))
  }

  lemma ReadyCalls(s: State, b: Backend, first: nat, k: nat)
    requires Ready(s, b, first, k)
    ensures CanCall(s, b, first, k) && ToolsOnly(Called(s, b, first, k), b, first, k)
  {
    var t := Called(s, b, first, k);
    forall j | 0 <= j < |t.ss| ensures t.ss[j] == if j < first then Fresh(EngineLoop) else if j < first + k then ToolUser(b) else Caller(b, j - k) {
    }
  }

  lemma UsersParked(cfg: Config) returns (s: State)
    requires cfg.Valid() && !cfg.nested
    ensures Reachable(cfg, s) && Ready(s, Primary, cfg.engines, cfg.primarySlots)
  {
    var e, c := cfg.engines, cfg.primarySlots;
    var s0 := Init(cfg);
    assert Run(cfg, s0, []) == Some(s0);
    Fill(cfg, s0, Primary, Chatter(), c);
    var s1 := Filled(s0, Primary, Chatter(), c);
    ParkAll(cfg, s1, e, c);
    s := Parking(s1, e, c);
  }

  // Users delegate from all primary slots: each parked slot is invisible to the user's own call.
  lemma UsersWait(cfg: Config) returns (t: State)
    requires cfg.Valid() && cfg.nested
    ensures Reachable(cfg, t) && ToolsOnly(t, Primary, cfg.engines, cfg.primarySlots)
  {
    var s := UsersParked(cfg.(nested := false));
    Lift(cfg, s);
    ReadyCalls(s, Primary, cfg.engines, cfg.primarySlots);
    CallAll(cfg, s, Primary, cfg.engines, cfg.primarySlots);
    t := Called(s, Primary, cfg.engines, cfg.primarySlots);
  }

  lemma JobsBusy(cfg: Config) returns (s: State)
    requires cfg.Valid() && !cfg.nested
    ensures Reachable(cfg, s) && Ready(s, Brain, cfg.engines, cfg.brainSlots)
  {
    var s0 := Init(cfg);
    assert Run(cfg, s0, []) == Some(s0);
    Fill(cfg, s0, Brain, Worker(), cfg.brainSlots);
    s := Filled(s0, Brain, Worker(), cfg.brainSlots);
  }

  // Background jobs run tools while they hold all slots of the Brain, which the tools' calls need.
  lemma JobsWait(cfg: Config) returns (t: State)
    requires cfg.Valid() && cfg.nested
    ensures Reachable(cfg, t) && ToolsOnly(t, Brain, cfg.engines, cfg.brainSlots)
  {
    var s := JobsBusy(cfg.(nested := false));
    Lift(cfg, s);
    ReadyCalls(s, Brain, cfg.engines, cfg.brainSlots);
    CallAll(cfg, s, Brain, cfg.engines, cfg.brainSlots);
    t := Called(s, Brain, cfg.engines, cfg.brainSlots);
  }

  // Each session of such a state belongs to the call that waits, k sessions further on.
  lemma ToolsOnlyDeadlock(cfg: Config, t: State, b: Backend, first: nat, k: nat)
    requires cfg.nested && ToolsOnly(t, b, first, k)
    ensures Deadlocked(cfg, t)
    ensures forall j: nat :: first <= j < first + k ==> HasCall(cfg, t, j)
  {
    forall j: nat | first <= j < first + k ensures HasCall(cfg, t, j) {
      assert t.ss[j + k] == Caller(b, j);
    }
    assert Active(t.ss[first]);
  }

  // One user is enough when there are at least as many engine loops as primary slots: the others
  // hold the remaining slots and wait for the lock of the first, who waits to reacquire.
  lemma OneUserWaits(cfg: Config) returns (t: State)
    requires cfg.Valid() && cfg.nested && cfg.engines >= cfg.primarySlots
    ensures Reachable(cfg, t) && Deadlocked(cfg, t)
    ensures |t.ss| > cfg.engines && forall j :: 0 <= j < |t.ss| ==> (Pri(t.ss[j].kind).User? <==> j == cfg.engines)
  {
    var s := OneUserParked(cfg.(nested := false));
    Lift(cfg, s);
    var v := s.primary;
    t := s.(primary := v.(sem := v.sem.(low := v.sem.low + [|s.ss|])), ss := s.ss + [Caller(Primary, cfg.engines)]);
    CallOne(cfg, s, Primary, cfg.engines, t);
    OneUserDeadlock(cfg, s, t);
  }

  predicate OneUserShape(cfg: Config, s: State) {
    && |s.ss| == cfg.engines + 1 && s.mu == Some(0) && cfg.engines > 0
    && s.ss[0] == Away(Parked(Primary), Waiting(Primary, true))
    && (forall j :: 1 <= j < cfg.engines ==> s.ss[j] == Parked(Primary) || s.ss[j] == Fresh(EngineLoop))
    && s.ss[cfg.engines] == Away(Chatter(), ToolRunning)
  }

  lemma OneUserDeadlock(cfg: Config, s: State, t: State)
    requires cfg.nested && OneUserShape(cfg, s) && t.ss == s.ss + [Caller(Primary, cfg.engines)] && t.mu == s.mu
    ensures Deadlocked(cfg, t)
    ensures forall j :: 0 <= j < |t.ss| ==> (Pri(t.ss[j].kind).User? <==> j == cfg.engines)
  {
    assert forall j :: 0 <= j < |s.ss| ==> t.ss[j] == s.ss[j];
    assert t.ss[cfg.engines + 1] == Caller(Primary, cfg.engines);
    assert HasCall(cfg, t, cfg.engines);
    assert Active(t.ss[0]);
    forall j | 0 <= j < |t.ss| && Active(t.ss[j]) ensures Blocked(cfg, t, j) {
      assert j <= cfg.engines ==> t.ss[j] == s.ss[j];
    }
  }

  lemma OneUserParked(cfg: Config) returns (t: State)
    requires cfg.Valid() && !cfg.nested && cfg.engines >= cfg.primarySlots
    ensures Reachable(cfg, t) && OneUserShape(cfg, t) && t.primary.sem.avail == 0
  {
    var e, c := cfg.engines, cfg.primarySlots;
    var s0 := StartFor(cfg, Primary);
    var s1 := Arrive(cfg, s0, UserMessage);
    FirstEngineInTool(cfg, s1, Primary);
    var s2 := InTool(s1, Primary);
    Crowd(cfg, s2, Primary, c - 1);
    var s3 := Crowded(s2, Primary, c - 1);
    var s4 := UserParks(cfg, s3, Primary, e);
    t := FirstEngineQueues(cfg, s4, Primary);
    assert forall j :: 1 <= j < e ==> t.ss[j] == if j <= c - 1 then Parked(Primary) else s0.ss[j];
  }

  // ---------------------------------------------------------------------------
  // Such a state is permanent
  // ---------------------------------------------------------------------------

  predicate BrainOnly(pc: Pc) {
    match pc
    case Ask(b) => b.Brain?
    case Waiting(b, _) => b.Brain?
    case Returning(b, _) => b.Brain?
    case Unreserving(b) => b.Brain?
    case _ => true
  }

  // An engine loop without a claim on the primary
  predicate Clear(x: Session) { x.kind.EngineLoop? && x.choice != On(Primary) && BrainOnly(x.pc) }

  predicate StuckCall(x: Session) { FromTool(x.kind) && x.pc == Waiting(Primary, false) && !x.granted }

  predicate StuckUser(cfg: Config, s: State, j: nat)
    requires j < |s.ss|
  {
    s.ss[j].kind.UserMessage? && s.ss[j].pc.ToolRunning? && HasCall(cfg, s, j)
  }

  ghost predicate Stuck(cfg: Config, s: State) {
    && s.primary.sem.avail == 0
    && forall j: nat :: j < |s.ss| ==> StuckUser(cfg, s, j) || StuckCall(s.ss[j]) || Clear(s.ss[j])
  }

  // An engine loop without a claim on the primary asks for a slot there, in vain, or leaves it alone.
  lemma ClearMove(cfg: Config, i: nat, x: Session, muFree: bool, move: Move)
    requires Bracket(x) && Clear(x) && MovePlan(cfg, i, x, muFree, move).Some?
    ensures var p := MovePlan(cfg, i, x, muFree, move).value;
            && Clear(p.no) && (p.b.Primary? ==> p.op.Nop? || p.op == TryAcquire(Background))
            && (p.b.Brain? || p.op.Nop? ==> Clear(p.yes))
  {
  }

  lemma WaiterMoves(cfg: Config, i: nat, x: Session, muFree: bool, move: Move)
    requires StuckCall(x) && !move.CtxDone? && !move.AbandonWait?
    ensures MovePlan(cfg, i, x, muFree, move).None?
  {
  }

  // Only an engine loop can move without disturbance.
  lemma StuckMover(cfg: Config, s: State, a: Action)
    requires Stuck(cfg, s) && Undisturbed([a]) && Step(cfg, s, a).Some?
    ensures a.i < |s.ss| && Clear(s.ss[a.i])
  {
    assert a in [a];
    assert StuckUser(cfg, s, a.i) || StuckCall(s.ss[a.i]) || Clear(s.ss[a.i]);
    if StuckCall(s.ss[a.i]) {
      WaiterMoves(cfg, a.i, s.ss[a.i], s.mu.None?, a.move);
    }
  }

  ghost predicate ClearPlan(s: State, i: nat, p: Plan)
    requires i < |s.ss|
  {
    && PlanOk(i, s.ss[i], p, s.mu.None?) && Clear(p.no)
    && (p.b.Primary? ==> p.op.Nop? || p.op == TryAcquire(Background)) && (p.b.Brain? || p.op.Nop? ==> Clear(p.yes))
  }

  // Such a plan leaves the primary as it is, and wakes engine loops only.
  lemma ClearSection(cfg: Config, s: State, i: nat, p: Plan)
    requires Inv(cfg, s) && Stuck(cfg, s) && i < |s.ss| && ClearPlan(s, i, p)
    ensures var e := Apply(s.At(p.b).sem, p.op, cfg.form);
            && Clear(Becomes(p, e)) && (p.b.Primary? ==> e.sem.avail == 0 && e.woken.None?)
            && (e.woken.Some? ==> e.woken.value < |s.ss| && e.woken.value != i && Clear(s.ss[e.woken.value]))
  {
    var e := Apply(s.At(p.b).sem, p.op, cfg.form);
    WokenWaits(cfg, s, i, p);
    if e.woken.Some? {
      assert StuckUser(cfg, s, e.woken.value) || StuckCall(s.ss[e.woken.value]) || Clear(s.ss[e.woken.value]);
    }
  }

  lemma ClearRun(cfg: Config, s: State, i: nat, p: Plan)
    requires Inv(cfg, s) && Stuck(cfg, s) && i < |s.ss| && Clear(s.ss[i]) && ClearPlan(s, i, p)
    ensures var t := RunPlan(cfg, s, i, p);
            && |t.ss| == |s.ss| && t.primary.sem.avail == 0
            && (forall j :: 0 <= j < |s.ss| ==> if Clear(s.ss[j]) then Clear(t.ss[j]) else t.ss[j] == s.ss[j])
  {
    ClearSection(cfg, s, i, p);
  }

  // A step without disturbance moves an engine loop, and changes no other session of the tangle.
  lemma StuckStep(cfg: Config, s: State, a: Action)
    requires Inv(cfg, s) && Stuck(cfg, s) && Undisturbed([a]) && Step(cfg, s, a).Some?
    ensures var t := Step(cfg, s, a).value;
            && |t.ss| == |s.ss| && t.primary.sem.avail == 0
            && (forall j :: 0 <= j < |s.ss| ==> if Clear(s.ss[j]) then Clear(t.ss[j]) else t.ss[j] == s.ss[j])
  {
    StuckMover(cfg, s, a);
    assert a in [a] && Bracket(s.ss[a.i]);
    ClearMove(cfg, a.i, s.ss[a.i], s.mu.None?, a.move);
    MoveOk(cfg, a.i, s.ss[a.i], s.mu.None?, a.move);
    ClearRun(cfg, s, a.i, MovePlan(cfg, a.i, s.ss[a.i], s.mu.None?, a.move).value);
  }

  lemma StuckKept(cfg: Config, s: State, a: Action)
    requires Inv(cfg, s) && Stuck(cfg, s) && Undisturbed([a]) && Step(cfg, s, a).Some?
    ensures Stuck(cfg, Step(cfg, s, a).value)
    ensures var t := Step(cfg, s, a).value;
            |t.ss| == |s.ss| && forall j: nat :: j < |s.ss| && StuckUser(cfg, s, j) ==> StuckUser(cfg, t, j)
  {
    var t := Step(cfg, s, a).value;
    StuckStep(cfg, s, a);
    forall j: nat | j < |s.ss| && StuckUser(cfg, s, j) ensures StuckUser(cfg, t, j) {
      var k :| 0 <= k < |s.ss| && FromTool(s.ss[k].kind) && s.ss[k].kind.parent == Some(j) && !s.ss[k].pc.Done?;
      assert t.ss[k] == s.ss[k] && t.ss[j] == s.ss[j];
    }
  }

  // No continuation frees such a user, until some context ends or a new message arrives.
  lemma {:induction false} StuckForever(cfg: Config, s: State, acts: seq<Action>)
    requires Inv(cfg, s) && Stuck(cfg, s) && Undisturbed(acts) && Run(cfg, s, acts).Some?
    ensures var t := Run(cfg, s, acts).value;
            |t.ss| == |s.ss| && forall j: nat :: j < |s.ss| && StuckUser(cfg, s, j) ==> StuckUser(cfg, t, j)
    decreases |acts|
  {
    if acts != [] {
      assert acts[0] in acts;
      StuckKept(cfg, s, acts[0]);
      StepKeeps(cfg, s, acts[0]);
      StuckForever(cfg, Step(cfg, s, acts[0]).value, acts[1..]);
    }
  }

  lemma ToolsOnlyStuck(cfg: Config, t: State, first: nat, k: nat)
    requires cfg.nested && ToolsOnly(t, Primary, first, k)
    ensures Stuck(cfg, t) && forall j: nat :: first <= j < first + k ==> StuckUser(cfg, t, j)
  {
    ToolsOnlyDeadlock(cfg, t, Primary, first, k);
    forall j: nat | j < |t.ss| ensures StuckUser(cfg, t, j) || StuckCall(t.ss[j]) || Clear(t.ss[j]) {
      if first + k <= j {
        assert t.ss[j] == Caller(Primary, j - k);
      }
    }
  }

  // A user inside a tool that will not get its slot back
  lemma UserStuck(cfg: Config) returns (s: State, i: nat)
    requires cfg.Valid() && cfg.nested
    ensures Reachable(cfg, s) && i < |s.ss| && NeedsSlot(s.ss[i]) && !CanReacquire(cfg, s, i)
  {
    s := UsersWait(cfg);
    i := cfg.engines;
    ReachableInv(cfg, s);
    ToolsOnlyStuck(cfg, s, cfg.engines, cfg.primarySlots);
    assert StuckUser(cfg, s, i);
    forall acts ensures !GetsSlot(cfg, s, i, acts) {
      if GetsSlot(cfg, s, i, acts) {
        StuckForever(cfg, s, acts);
      }
    }
  }
}
