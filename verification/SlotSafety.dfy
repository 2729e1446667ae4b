/**
  What every interleaving of the slot protocol keeps: the session bracket, the link between
  semaphore queues and waiting sessions, slot conservation, waiter discipline and the mutex.
 */
module SlotSafety {
  import opened Sums
  import opened Wrappers
  import opened PrioritySemaphore
  import opened SlotProtocol

  // ---------------------------------------------------------------------------
  // The session bracket
  // ---------------------------------------------------------------------------

  // The shape of a session at each program point.  The flag tells the truth wherever the code
  // reads it; it is false after tool execution only when the context is done.
  predicate Bracket(x: Session) {
    && (x.kind.UserMessage? ==> !x.ctxDone)
    && match x.pc
       case Idle | SnapshotLock | TryBrain | TryPrimary | Ask(_) => !x.acquired && !x.holds && !x.granted
       case Waiting(b, back) =>
         !x.acquired && !x.holds && (back ==> x.choice == On(b) && (x.kind.UserMessage? || x.kind.EngineLoop?))
       case Returning(b, back) =>
         !x.acquired && !x.holds && x.granted && x.ctxDone && (back ==> x.choice == On(b) && x.kind.EngineLoop?)
       case Unreserving(b) =>
         !x.acquired && !x.holds && !x.granted && x.ctxDone && x.choice == On(b) && x.kind.EngineLoop?
       case LockWait =>
         x.kind.EngineLoop? && x.acquired && x.holds == x.choice.On? && !x.granted
       case Chatting =>
         x.acquired && x.holds == x.choice.On? && !x.granted && (x.kind.UserMessage? ==> x.choice.On?)
       case ToolRunning =>
         (x.kind.UserMessage? || x.kind.EngineLoop?) && !x.acquired && !x.holds && !x.granted
         && (x.kind.UserMessage? ==> x.choice.On?)
       case ToolEnded =>
         (x.kind.UserMessage? || x.kind.EngineLoop?) && (x.acquired || x.ctxDone)
         && x.holds == (x.acquired && x.choice.On?) && !x.granted && (x.kind.UserMessage? ==> x.choice.On?)
       case Unlocked =>
         x.kind.EngineLoop? && x.holds == (x.acquired && x.choice.On?) && !x.granted
       case Done => !x.holds && !x.granted
  }

  predicate Acquiring(op: Op) { op.TryAcquire? || op.Acquire? }

  function Becomes(p: Plan, e: Effect): Session {
    if e.took || e.removed then p.yes else p.no
  }

  // What the plan does to the slots the session accounts for, per backend.
  predicate OwnershipOk(x: Session, p: Plan, b: Backend) {
    if b != p.b then Owns(p.yes, b) == Owns(p.no, b) == Owns(x, b)
    else
      match p.op
      case TryAcquire(_) => Owns(p.yes, b) == 1 && Owns(p.no, b) == Owns(x, b) == 0
      case Acquire(_, _) => Owns(p.yes, b) == 1 && Owns(p.no, b) == Owns(x, b) == 0
      case Abandon(_, _) => Owns(p.yes, b) == 0 && Owns(x, b) == Owns(p.no, b) == B(x.granted)
      case Release => Owns(p.yes, b) == Owns(p.no, b) == 0 && Owns(x, b) <= 1
      case ReleaseReserved => Owns(p.yes, b) == Owns(p.no, b) == 0 && Owns(x, b) <= 1
      case _ => Owns(p.yes, b) == Owns(p.no, b) == Owns(x, b)
  }

  // What it does to the session's own place in the queues.
  predicate Waits(x: Session, b: Backend, pri: Priority) {
    x.pc.Waiting? && x.pc.b == b && !x.granted && Pri(x.kind) == pri
  }

  ghost predicate PlaceOk(i: nat, x: Session, p: Plan, b: Backend, pri: Priority) {
    match p.op
    case Acquire(pri', w) =>
      w == i && !Waits(x, b, pri) && !Waits(p.yes, b, pri) && (Waits(p.no, b, pri) <==> b == p.b && pri == pri')
    case Abandon(pri', w) =>
      w == i && !Waits(p.yes, b, pri) && !Waits(p.no, b, pri)
      && (Waits(x, b, pri) <==> b == p.b && pri == pri' && !x.granted)
    case Nop => Waits(p.yes, b, pri) == Waits(p.no, b, pri) == Waits(x, b, pri)
    case _ => !Waits(p.yes, b, pri) && !Waits(p.no, b, pri) && !Waits(x, b, pri)
  }

  // A user session inside a tool, the only kind of session that parks a reservation.
  function Parks(x: Session, b: Backend): nat {
    B(x.kind.UserMessage? && x.pc.ToolRunning? && x.choice == On(b))
  }

  ghost predicate ParkingOk(x: Session, p: Plan) {
    && (p.op.ReleaseReserved? ==> Parks(x, p.b) == 0 && Parks(p.no, p.b) == 1)
    && (!Acquiring(p.op) && !p.op.ReleaseReserved? ==>
          Parks(p.yes, p.b) >= Parks(x, p.b) && Parks(p.no, p.b) >= Parks(x, p.b))
    && (Acquiring(p.op) && Parks(x, p.b) == 1 ==> p.op.pri.User?)
    && forall b :: b != p.b ==> Parks(p.yes, b) >= Parks(x, b) && Parks(p.no, b) >= Parks(x, b)
  }

  // The sessions that run inside withOrchestratorLock.
  predicate InLock(x: Session) {
    x.kind.EngineLoop?
    && (x.pc.Chatting? || x.pc.ToolRunning? || x.pc.ToolEnded? || x.pc.Unreserving?
        || ((x.pc.Waiting? || x.pc.Returning?) && x.pc.back))
  }

  predicate LockingOk(x: Session, p: Plan, muFree: bool) {
    match p.lock
    case Keep => InLock(p.yes) == InLock(p.no) == InLock(x)
    case Grab => muFree && p.yes == p.no && InLock(p.no) && !InLock(x)
    case Drop => p.yes == p.no && !InLock(p.no) && InLock(x)
  }

  ghost predicate ShapeOk(i: nat, x: Session, p: Plan) {
    && Bracket(p.yes) && p.yes.kind == p.no.kind == x.kind
    && (!p.op.Abandon? || x.granted ==> Bracket(p.no))
    && (p.op.Abandon? ==> x.pc.Waiting? && x.pc.b == p.b && p.op == Abandon(Pri(x.kind), i))
    && (Acquiring(p.op) ==> p.op.pri == Pri(x.kind))
  }

  // Every move of a session in shape keeps its shape and its kind, and has an orderly plan.
  ghost predicate PlanOk(i: nat, x: Session, p: Plan, muFree: bool) {
    && ShapeOk(i, x, p)
    && (forall b :: OwnershipOk(x, p, b))
    && (forall b, pri :: PlaceOk(i, x, p, b, pri))
    && ParkingOk(x, p)
    && LockingOk(x, p, muFree)
  }

  // The moves that belong to acquiring a slot; the case split keeps the proofs small.
  predicate AcquireSide(move: Move) {
    move.Attempt? || move.Wake? || move.AbandonWait? || move.GiveBack? || move.ToolEnd?
  }

  lemma MoveShapeAcquire(cfg: Config, i: nat, x: Session, muFree: bool, move: Move)
    requires AcquireSide(move) && Bracket(x) && MovePlan(cfg, i, x, muFree, move).Some?
    ensures ShapeOk(i, x, MovePlan(cfg, i, x, muFree, move).value)
  {
  }

  lemma MoveShapeOther(cfg: Config, i: nat, x: Session, muFree: bool, move: Move)
    requires !AcquireSide(move) && Bracket(x) && MovePlan(cfg, i, x, muFree, move).Some?
    ensures ShapeOk(i, x, MovePlan(cfg, i, x, muFree, move).value)
  {
  }

  lemma MoveOwnershipAcquire(cfg: Config, i: nat, x: Session, muFree: bool, move: Move, b: Backend)
    requires AcquireSide(move) && Bracket(x) && MovePlan(cfg, i, x, muFree, move).Some?
    ensures OwnershipOk(x, MovePlan(cfg, i, x, muFree, move).value, b)
  {
  }

  lemma MoveOwnershipOther(cfg: Config, i: nat, x: Session, muFree: bool, move: Move, b: Backend)
    requires !AcquireSide(move) && Bracket(x) && MovePlan(cfg, i, x, muFree, move).Some?
    ensures OwnershipOk(x, MovePlan(cfg, i, x, muFree, move).value, b)
  {
  }

  lemma MovePlace(cfg: Config, i: nat, x: Session, muFree: bool, move: Move, b: Backend, pri: Priority)
    requires Bracket(x) && MovePlan(cfg, i, x, muFree, move).Some?
    ensures PlaceOk(i, x, MovePlan(cfg, i, x, muFree, move).value, b, pri)
  {
  }

  lemma MoveParking(cfg: Config, i: nat, x: Session, muFree: bool, move: Move)
    requires Bracket(x) && MovePlan(cfg, i, x, muFree, move).Some?
    ensures ParkingOk(x, MovePlan(cfg, i, x, muFree, move).value)
  {
  }

  lemma MoveLocking(cfg: Config, i: nat, x: Session, muFree: bool, move: Move)
    requires Bracket(x) && MovePlan(cfg, i, x, muFree, move).Some?
    ensures LockingOk(x, MovePlan(cfg, i, x, muFree, move).value, muFree)
  {
  }

  lemma MoveOk(cfg: Config, i: nat, x: Session, muFree: bool, move: Move)
    requires Bracket(x) && MovePlan(cfg, i, x, muFree, move).Some?
    ensures PlanOk(i, x, MovePlan(cfg, i, x, muFree, move).value, muFree)
  {
    var p := MovePlan(cfg, i, x, muFree, move).value;
    if AcquireSide(move) {
      MoveShapeAcquire(cfg, i, x, muFree, move);
    } else {
      MoveShapeOther(cfg, i, x, muFree, move);
    }
    forall b ensures OwnershipOk(x, p, b) {
      if AcquireSide(move) {
        MoveOwnershipAcquire(cfg, i, x, muFree, move, b);
      } else {
        MoveOwnershipOther(cfg, i, x, muFree, move, b);
      }
    }
    assert ParkingOk(x, p) by { MoveParking(cfg, i, x, muFree, move); }
    assert LockingOk(x, p, muFree) by { MoveLocking(cfg, i, x, muFree, move); }
    forall b, pri ensures PlaceOk(i, x, p, b, pri) {
      MovePlace(cfg, i, x, muFree, move, b, pri);
    }
  }

  // Without fallbacks nobody releases a slot it does not account for; with them exactly the
  // fallback after a failed reacquire does.
  lemma StrayMoveExactly(cfg: Config, i: nat, x: Session, muFree: bool, move: Move)
    requires Bracket(x) && MovePlan(cfg, i, x, muFree, move).Some?
    ensures var p := MovePlan(cfg, i, x, muFree, move).value;
            GivesBack(p.op) && Owns(x, p.b) == 0
            <==> cfg.fallbacks && move.Fallback? && !x.acquired && x.choice.On?
  {
  }

  // ---------------------------------------------------------------------------
  // Queues and waiting sessions agree
  // ---------------------------------------------------------------------------

  ghost predicate Distinct(q: seq<Waiter>) {
    forall j, k :: 0 <= j < k < |q| ==> q[j] != q[k]
  }

  // A queue holds exactly the sessions that wait in it, each once.
  ghost predicate QueueMatches(q: seq<Waiter>, ss: seq<Session>, b: Backend, pri: Priority) {
    && Distinct(q)
    && forall w: nat :: w in q <==> w < |ss| && Waits(ss[w], b, pri)
  }

  ghost predicate Queued(s: State) {
    forall b, pri :: QueueMatches(s.At(b).sem.Queue(pri), s.ss, b, pri)
  }

  lemma {:induction false} WithoutDistinct(q: seq<Waiter>, w: Waiter)
    requires Distinct(q)
    ensures Distinct(Without(q, w))
    ensures forall v :: v in Without(q, w) <==> v in q && v != w
  {
    if q != [] {
      assert q == [q[0]] + q[1..];
      assert forall v :: v in q <==> v == q[0] || v in q[1..];
      assert q[0] !in q[1..];
      if q[0] != w {
        var r := Without(q[1..], w);
        WithoutDistinct(q[1..], w);
        assert forall v :: v in [q[0]] + r <==> v == q[0] || v in r;
      }
    }
  }

  // The waiting status of the sessions other than those in `except` is unchanged.
  ghost predicate SameWaits(ss: seq<Session>, ss': seq<Session>, b: Backend, pri: Priority, except: set<nat>) {
    |ss| == |ss'| && forall w: nat :: w < |ss| && w !in except ==> Waits(ss'[w], b, pri) == Waits(ss[w], b, pri)
  }

  lemma QueueSame(q: seq<Waiter>, ss: seq<Session>, ss': seq<Session>, b: Backend, pri: Priority)
    requires QueueMatches(q, ss, b, pri) && SameWaits(ss, ss', b, pri, {})
    ensures QueueMatches(q, ss', b, pri)
  {
  }

  lemma QueueJoined(q: seq<Waiter>, ss: seq<Session>, ss': seq<Session>, b: Backend, pri: Priority, i: nat)
    requires QueueMatches(q, ss, b, pri) && SameWaits(ss, ss', b, pri, {i})
    requires i < |ss| && !Waits(ss[i], b, pri) && Waits(ss'[i], b, pri)
    ensures QueueMatches(q + [i], ss', b, pri)
  {
    assert forall w :: w in q + [i] <==> w in q || w == i;
  }

  lemma QueueLeft(q: seq<Waiter>, ss: seq<Session>, ss': seq<Session>, b: Backend, pri: Priority, i: nat)
    requires QueueMatches(q, ss, b, pri) && SameWaits(ss, ss', b, pri, {i})
    requires i < |ss| && !Waits(ss'[i], b, pri)
    ensures QueueMatches(Without(q, i), ss', b, pri)
  {
    WithoutDistinct(q, i);
  }

  lemma QueueServed(q: seq<Waiter>, ss: seq<Session>, ss': seq<Session>, b: Backend, pri: Priority)
    requires q != [] && QueueMatches(q, ss, b, pri) && SameWaits(ss, ss', b, pri, {q[0]})
    requires q[0] < |ss'| ==> !Waits(ss'[q[0]], b, pri)
    ensures QueueMatches(q[1..], ss', b, pri)
  {
    assert q == [q[0]] + q[1..];
    assert forall w :: w in q <==> w == q[0] || w in q[1..];
  }

  // The woken session is another one, and it was waiting on this backend.
  lemma WokenWaits(cfg: Config, s: State, i: nat, p: Plan)
    requires i < |s.ss| && PlanOk(i, s.ss[i], p, s.mu.None?) && Queued(s)
    ensures var v := s.At(p.b).sem; var e := Apply(v, p.op, cfg.form);
            e.woken.Some? ==>
              && e.woken.value < |s.ss| && e.woken.value != i
              && Waits(s.ss[e.woken.value], p.b, if v.high != [] then User else Background)
  {
    var v, e := s.At(p.b).sem, Apply(s.At(p.b).sem, p.op, cfg.form);
    if e.woken.Some? {
      var from := if v.high != [] then User else Background;
      assert QueueMatches(v.Queue(from), s.ss, p.b, from);
      assert e.woken.value == v.Queue(from)[0] && e.woken.value in v.Queue(from);
      assert PlaceOk(i, s.ss[i], p, p.b, from);
    }
  }

  lemma QueueKeptByWake(cfg: Config, s: State, i: nat, p: Plan, b: Backend, pri: Priority)
    requires i < |s.ss| && PlaceOk(i, s.ss[i], p, b, pri)
    requires QueueMatches(s.At(b).sem.Queue(pri), s.ss, b, pri)
    requires var v := s.At(p.b).sem; var e := Apply(v, p.op, cfg.form);
             e.woken.Some? && e.woken.value < |s.ss| && e.woken.value != i
             && Waits(s.ss[e.woken.value], p.b, if v.high != [] then User else Background)
    ensures var t := RunPlan(cfg, s, i, p); QueueMatches(t.At(b).sem.Queue(pri), t.ss, b, pri)
  {
    var t := RunPlan(cfg, s, i, p);
    var v := s.At(p.b).sem;
    var q := s.At(b).sem.Queue(pri);
    if b == p.b && pri == (if v.high != [] then User else Background) {
      QueueServed(q, s.ss, t.ss, b, pri);
    } else {
      QueueSame(q, s.ss, t.ss, b, pri);
    }
  }

  lemma QueueKeptByMove(cfg: Config, s: State, i: nat, p: Plan, b: Backend, pri: Priority)
    requires i < |s.ss| && PlaceOk(i, s.ss[i], p, b, pri)
    requires QueueMatches(s.At(b).sem.Queue(pri), s.ss, b, pri)
    requires Apply(s.At(p.b).sem, p.op, cfg.form).woken.None?
    ensures var t := RunPlan(cfg, s, i, p); QueueMatches(t.At(b).sem.Queue(pri), t.ss, b, pri)
  {
    var t := RunPlan(cfg, s, i, p);
    var e := Apply(s.At(p.b).sem, p.op, cfg.form);
    var q := s.At(b).sem.Queue(pri);
    assert t.ss == s.ss[i := Becomes(p, e)];
    if b == p.b && p.op.Acquire? && p.op.pri == pri && !e.took {
      QueueJoined(q, s.ss, t.ss, b, pri, i);
    } else if b == p.b && p.op.Abandon? && p.op.pri == pri {
      QueueLeft(q, s.ss, t.ss, b, pri, i);
    } else {
      QueueSame(q, s.ss, t.ss, b, pri);
    }
  }

  lemma QueuedKept(cfg: Config, s: State, i: nat, p: Plan)
    requires i < |s.ss| && PlanOk(i, s.ss[i], p, s.mu.None?) && Queued(s)
    ensures Queued(RunPlan(cfg, s, i, p))
  {
    var t := RunPlan(cfg, s, i, p);
    WokenWaits(cfg, s, i, p);
    forall b, pri ensures QueueMatches(t.At(b).sem.Queue(pri), t.ss, b, pri) {
      assert QueueMatches(s.At(b).sem.Queue(pri), s.ss, b, pri) && PlaceOk(i, s.ss[i], p, b, pri);
      if Apply(s.At(p.b).sem, p.op, cfg.form).woken.Some? {
        QueueKeptByWake(cfg, s, i, p, b, pri);
      } else {
        QueueKeptByMove(cfg, s, i, p, b, pri);
      }
    }
  }

  // ---------------------------------------------------------------------------
  // The global invariant
  // ---------------------------------------------------------------------------

  function OwnsOn(b: Backend): Session -> nat { (x: Session) => Owns(x, b) }

  function ParksOn(b: Backend): Session -> nat { (x: Session) => Parks(x, b) }

  function IsEngine(): Session -> nat { (x: Session) => B(x.kind.EngineLoop?) }

  // Slot conservation: free, reserved, held and granted slots make up the capacity, plus
  // exactly the surplus made by CancelReservation and the releases by non-owners.
  ghost predicate Conserved(s: State, b: Backend) {
    Free(s.At(b).sem) + Sum(s.ss, OwnsOn(b)) == s.At(b).sem.cap + s.At(b).surplus + s.At(b).stray
  }

  predicate Bracketed(s: State) {
    forall i :: 0 <= i < |s.ss| ==> Bracket(s.ss[i])
  }

  ghost predicate MutexOk(s: State) {
    forall i: nat :: i < |s.ss| ==> (InLock(s.ss[i]) <==> s.mu == Some(i))
  }

  ghost predicate BackendOk(cfg: Config, s: State, b: Backend) {
    var v := s.At(b);
    && v.sem.cap == cfg.Cap(b)
    && Conserved(s, b)
    && (v.surplus == 0 ==> Discipline(v.sem))
    && v.sem.reserved <= Sum(s.ss, ParksOn(b))
    && (!cfg.fallbacks ==> v.stray == 0)
    && (cfg.form.SingleIncrement? ==> v.surplus == 0)
  }

  ghost predicate Inv(cfg: Config, s: State) {
    && Bracketed(s)
    && Queued(s)
    && MutexOk(s)
    && (s.mu.Some? ==> s.mu.value < |s.ss|)
    && Sum(s.ss, IsEngine()) == cfg.engines
    && BackendOk(cfg, s, Primary) && BackendOk(cfg, s, Brain)
  }

  // A session abandons its wait successfully exactly when its channel is still open.
  lemma RemovedIffNotGranted(s: State, i: nat)
    requires i < |s.ss| && s.ss[i].pc.Waiting? && Queued(s)
    ensures i in s.At(s.ss[i].pc.b).sem.Queue(Pri(s.ss[i].kind)) <==> !s.ss[i].granted
  {
    var b, pri := s.ss[i].pc.b, Pri(s.ss[i].kind);
    assert QueueMatches(s.At(b).sem.Queue(pri), s.ss, b, pri);
  }

  // A sum after session i became y and session w, if any, was granted.
  lemma SumAfter(ss: seq<Session>, f: Session -> nat, i: nat, y: Session, woken: Option<Waiter>)
    requires i < |ss|
    requires woken.Some? ==> woken.value < |ss| && woken.value != i
    ensures Sum(Deliver(ss[i := y], woken), f) + f(ss[i])
            + (if woken.Some? then f(ss[woken.value]) else 0)
         == Sum(ss, f) + f(y) + (if woken.Some? then f(ss[woken.value].(granted := true)) else 0)
  {
    SumUpdate(ss, f, i, y);
    if woken.Some? {
      SumUpdate(ss[i := y], f, woken.value, ss[woken.value].(granted := true));
    }
  }

  // The slots session i accounts for change by what the section took or gave back.
  lemma OwnChange(cfg: Config, s: State, i: nat, p: Plan, b: Backend)
    requires i < |s.ss| && PlanOk(i, s.ss[i], p, s.mu.None?) && Queued(s)
    ensures var x := s.ss[i]; var e := Apply(s.At(p.b).sem, p.op, cfg.form);
            Owns(Becomes(p, e), b) + (if b == p.b then B(GivesBack(p.op) && Owns(x, b) > 0) else 0)
            == Owns(x, b) + (if b == p.b then B(e.took) else 0)
  {
    assert OwnershipOk(s.ss[i], p, b);
    if p.op.Abandon? {
      RemovedIffNotGranted(s, i);
    }
  }

  lemma ConservedKept(cfg: Config, s: State, i: nat, p: Plan, b: Backend)
    requires i < |s.ss| && PlanOk(i, s.ss[i], p, s.mu.None?) && Bracketed(s) && Queued(s) && Conserved(s, b)
    ensures Conserved(RunPlan(cfg, s, i, p), b)
  {
    var e := Apply(s.At(p.b).sem, p.op, cfg.form);
    OwnChange(cfg, s, i, p, b);
    WokenWaits(cfg, s, i, p);
    if e.woken.Some? {
      var w := s.ss[e.woken.value];
      assert Bracket(w);
      assert Owns(w, b) == 0 && Owns(w.(granted := true), b) == (if b == p.b then 1 else 0);
    }
    SumAfter(s.ss, OwnsOn(b), i, Becomes(p, e), e.woken);
    SectionBalance(s.At(p.b).sem, p.op, cfg.form);
  }

  // Parked reservations stay covered when session x becomes y under `op`.
  lemma ReservedArithmetic(v: Sem, op: Op, form: Form, x: Session, p: Plan, b: Backend, before: nat, after: nat)
    requires ParkingOk(x, p) && p.b == b && p.op == op
    requires v.reserved <= before
    requires after + Parks(x, b) == before + Parks(Becomes(p, Apply(v, op, form)), b)
    ensures Apply(v, op, form).sem.reserved <= after
  {
    SectionReserved(v, op, form);
  }

  lemma ReservedKept(cfg: Config, s: State, i: nat, p: Plan, b: Backend)
    requires i < |s.ss| && PlanOk(i, s.ss[i], p, s.mu.None?) && Queued(s)
    requires s.At(b).sem.reserved <= Sum(s.ss, ParksOn(b))
    ensures var t := RunPlan(cfg, s, i, p); t.At(b).sem.reserved <= Sum(t.ss, ParksOn(b))
  {
    var t, f := RunPlan(cfg, s, i, p), ParksOn(b);
    var e := Apply(s.At(p.b).sem, p.op, cfg.form);
    WokenWaits(cfg, s, i, p);
    SumAfter(s.ss, f, i, Becomes(p, e), e.woken);
    assert e.woken.Some? ==> f(s.ss[e.woken.value]) == f(s.ss[e.woken.value].(granted := true)) == 0;
    assert Sum(t.ss, f) + Parks(s.ss[i], b) == Sum(s.ss, f) + Parks(Becomes(p, e), b);
    if b == p.b {
      ReservedArithmetic(s.At(b).sem, p.op, cfg.form, s.ss[i], p, b, Sum(s.ss, f), Sum(t.ss, f));
    }
  }

  // The parts of BackendOk that speak of the semaphore and its counters only
  predicate ServerOk(cfg: Config, v: Server, b: Backend) {
    && v.sem.cap == cfg.Cap(b) && (v.surplus == 0 ==> Discipline(v.sem))
    && (!cfg.fallbacks ==> v.stray == 0) && (cfg.form.SingleIncrement? ==> v.surplus == 0)
  }

  lemma ServerKept(cfg: Config, v: Server, op: Op, strays: nat, b: Backend)
    requires ServerOk(cfg, v, b) && (strays > 0 ==> cfg.fallbacks)
    ensures ServerOk(cfg, Server(Apply(v.sem, op, cfg.form).sem, v.surplus + Surplus(v.sem, op, cfg.form), v.stray + strays), b)
  {
    SectionBalance(v.sem, op, cfg.form);
    if v.surplus == 0 {
      DisciplineKeptExactly(v.sem, op, cfg.form);
    }
  }

  lemma BackendKept(cfg: Config, s: State, i: nat, p: Plan, b: Backend)
    requires i < |s.ss| && PlanOk(i, s.ss[i], p, s.mu.None?) && Bracketed(s) && Queued(s)
    requires BackendOk(cfg, s, b)
    requires GivesBack(p.op) && Owns(s.ss[i], p.b) == 0 ==> cfg.fallbacks
    ensures BackendOk(cfg, RunPlan(cfg, s, i, p), b)
  {
    ConservedKept(cfg, s, i, p, b);
    ReservedKept(cfg, s, i, p, b);
    assert ServerOk(cfg, RunPlan(cfg, s, i, p).At(b), b) by {
      if b == p.b {
        ServerKept(cfg, s.At(b), p.op, B(GivesBack(p.op) && Owns(s.ss[i], p.b) == 0), b);
      }
    }
  }

  lemma EnginesKept(cfg: Config, s: State, i: nat, p: Plan)
    requires i < |s.ss| && PlanOk(i, s.ss[i], p, s.mu.None?) && Queued(s)
    ensures Sum(RunPlan(cfg, s, i, p).ss, IsEngine()) == Sum(s.ss, IsEngine())
  {
    var e := Apply(s.At(p.b).sem, p.op, cfg.form);
    WokenWaits(cfg, s, i, p);
    SumAfter(s.ss, IsEngine(), i, Becomes(p, e), e.woken);
  }

  lemma SessionKept(cfg: Config, s: State, i: nat, p: Plan, k: nat)
    requires i < |s.ss| && PlanOk(i, s.ss[i], p, s.mu.None?) && Bracketed(s) && Queued(s) && MutexOk(s)
    requires k < |s.ss|
    ensures var t := RunPlan(cfg, s, i, p); Bracket(t.ss[k]) && (InLock(t.ss[k]) <==> t.mu == Some(k))
  {
    var t := RunPlan(cfg, s, i, p);
    var e := Apply(s.At(p.b).sem, p.op, cfg.form);
    assert Bracket(s.ss[k]) && (InLock(s.ss[k]) <==> s.mu == Some(k));
    assert InLock(s.ss[i]) <==> s.mu == Some(i);
    WokenWaits(cfg, s, i, p);
    if k == i {
      if p.op.Abandon? {
        RemovedIffNotGranted(s, i);
      }
      assert t.ss[k] == Becomes(p, e);
    } else if e.woken == Some(k) {
      assert t.ss[k] == s.ss[k].(granted := true);
    } else {
      assert t.ss[k] == s.ss[k];
    }
  }

  lemma SessionsKept(cfg: Config, s: State, i: nat, p: Plan)
    requires i < |s.ss| && PlanOk(i, s.ss[i], p, s.mu.None?) && Bracketed(s) && Queued(s) && MutexOk(s)
    ensures Bracketed(RunPlan(cfg, s, i, p)) && MutexOk(RunPlan(cfg, s, i, p))
  {
    forall k: nat | k < |s.ss|
      ensures var t := RunPlan(cfg, s, i, p); Bracket(t.ss[k]) && (InLock(t.ss[k]) <==> t.mu == Some(k))
    {
      SessionKept(cfg, s, i, p, k);
    }
  }

  lemma SpawnBackend(cfg: Config, s: State, x: Session, b: Backend)
    requires BackendOk(cfg, s, b) && Owns(x, b) == Parks(x, b) == 0
    ensures BackendOk(cfg, s.(ss := s.ss + [x]), b)
  {
    SumAppend(s.ss, OwnsOn(b), x);
    SumAppend(s.ss, ParksOn(b), x);
  }

  lemma SpawnQueued(s: State, x: Session)
    requires Queued(s) && !x.pc.Waiting?
    ensures Queued(s.(ss := s.ss + [x]))
  {
    var t := s.(ss := s.ss + [x]);
    forall b, pri ensures QueueMatches(t.At(b).sem.Queue(pri), t.ss, b, pri) {
      assert QueueMatches(s.At(b).sem.Queue(pri), s.ss, b, pri);
    }
  }

  lemma SpawnKeeps(cfg: Config, s: State, kind: Kind)
    requires Inv(cfg, s) && !kind.EngineLoop?
    ensures Inv(cfg, s.(ss := s.ss + [Spawned(kind)]))
  {
    var x := Spawned(kind);
    SumAppend(s.ss, IsEngine(), x);
    SpawnQueued(s, x);
    SpawnBackend(cfg, s, x, Primary);
    SpawnBackend(cfg, s, x, Brain);
  }

  lemma StepKeeps(cfg: Config, s: State, a: Action)
    requires Inv(cfg, s) && Step(cfg, s, a).Some?
    ensures Inv(cfg, Step(cfg, s, a).value)
  {
    match a
    case Spawn(kind) => SpawnKeeps(cfg, s, kind);
    case Act(i, move) =>
      var p := MovePlan(cfg, i, s.ss[i], s.mu.None?, move).value;
      assert Bracket(s.ss[i]);
      MoveOk(cfg, i, s.ss[i], s.mu.None?, move);
      StrayMoveExactly(cfg, i, s.ss[i], s.mu.None?, move);
      QueuedKept(cfg, s, i, p);
      SessionsKept(cfg, s, i, p);
      EnginesKept(cfg, s, i, p);
      BackendKept(cfg, s, i, p, Primary);
      BackendKept(cfg, s, i, p, Brain);
  }

  lemma {:induction false} SumAllSame(n: nat, x: Session, f: Session -> nat)
    ensures Sum(seq(n, (i: nat) => x), f) == n * f(x)
  {
    if n > 0 {
      assert seq(n, (i: nat) => x)[1..] == seq(n - 1, (i: nat) => x);
      SumAllSame(n - 1, x, f);
    }
  }

  lemma InitKeeps(cfg: Config)
    requires cfg.Valid()
    ensures Inv(cfg, Init(cfg))
  {
    var s := Init(cfg);
    var x := Fresh(EngineLoop);
    assert s.ss == seq(cfg.engines, (i: nat) => x);
    SumAllSame(cfg.engines, x, IsEngine());
    forall b ensures BackendOk(cfg, s, b) {
      SumAllSame(cfg.engines, x, OwnsOn(b));
      SumAllSame(cfg.engines, x, ParksOn(b));
    }
  }

  lemma {:induction false} RunKeeps(cfg: Config, s: State, acts: seq<Action>)
    requires Inv(cfg, s) && Run(cfg, s, acts).Some?
    ensures Inv(cfg, Run(cfg, s, acts).value)
    decreases |acts|
  {
    if acts != [] {
      StepKeeps(cfg, s, acts[0]);
      RunKeeps(cfg, Step(cfg, s, acts[0]).value, acts[1..]);
    }
  }

  // ---------------------------------------------------------------------------
  // Main results, over every reachable state
  // ---------------------------------------------------------------------------

  lemma ReachableInv(cfg: Config, s: State)
    requires cfg.Valid() && Reachable(cfg, s)
    ensures Inv(cfg, s)
  {
    var acts :| Run(cfg, Init(cfg), acts) == Some(s);
    InitKeeps(cfg);
    RunKeeps(cfg, Init(cfg), acts);
  }

  // Slot conservation over every interleaving.  With the intended CancelReservation and no
  // fallbacks the slots add up to the capacity exactly; in general the deviation is exactly
  // what CancelReservation minted and what non-owners released.
  lemma SlotConservation(cfg: Config, s: State, b: Backend)
    requires cfg.Valid() && Reachable(cfg, s)
    ensures Free(s.At(b).sem) + Sum(s.ss, OwnsOn(b)) == cfg.Cap(b) + s.At(b).surplus + s.At(b).stray
    ensures cfg.form.SingleIncrement? && !cfg.fallbacks ==>
              Free(s.At(b).sem) + Sum(s.ss, OwnsOn(b)) == cfg.Cap(b)
  {
    ReachableInv(cfg, s);
  }

  // No wake-up is lost while CancelReservation has not minted a slot: whoever waits in Acquire,
  // ungranted, cannot be served by a free slot, and a parked reservation means no user waits.
  lemma NoLostWakeup(cfg: Config, s: State, i: nat)
    requires cfg.Valid() && Reachable(cfg, s)
    requires i < |s.ss| && s.ss[i].pc.Waiting? && !s.ss[i].granted
    requires s.At(s.ss[i].pc.b).surplus == 0
    ensures s.At(s.ss[i].pc.b).sem.avail == 0
    ensures Pri(s.ss[i].kind).User? ==> s.At(s.ss[i].pc.b).sem.reserved == 0
  {
    ReachableInv(cfg, s);
    RemovedIffNotGranted(s, i);
  }

  // The session bracket: `acquired` holds exactly when the session owns the slot of its choice,
  // at every point where the session's own code runs between the calls; nothing is owned once
  // the session is done; and the mutex is held exactly by the session inside the lock.
  lemma SessionBracket(cfg: Config, s: State, i: nat)
    requires cfg.Valid() && Reachable(cfg, s) && i < |s.ss|
    ensures var x := s.ss[i];
            && (x.pc.LockWait? || x.pc.Chatting? || x.pc.ToolRunning? || x.pc.ToolEnded? || x.pc.Unlocked? ==>
                  (x.acquired && x.choice.On? <==> x.holds))
            && (x.pc.Chatting? ==> x.acquired)
            && (x.kind.UserMessage? && x.pc.ToolEnded? ==> x.acquired)
            && (x.pc.Done? ==> Owns(x, Primary) == Owns(x, Brain) == 0)
            && (InLock(x) <==> s.mu == Some(i))
  {
    ReachableInv(cfg, s);
    assert Bracket(s.ss[i]);
  }

  // No session ever releases a slot it does not own, when no fallbacks are configured.
  lemma OwnersRelease(cfg: Config, s: State, a: Action)
    requires cfg.Valid() && !cfg.fallbacks && Reachable(cfg, s) && Step(cfg, s, a).Some?
    ensures Step(cfg, s, a).value.primary.stray == Step(cfg, s, a).value.brain.stray == 0
  {
    ReachableInv(cfg, s);
    StepKeeps(cfg, s, a);
  }
}
