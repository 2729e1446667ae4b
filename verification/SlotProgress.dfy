/**
  What keeps the slot protocol going, in every form of CancelReservation: behind every waiter
  there is a session that will release a slot, and a lock holder that waits never waits beside a
  free slot.
 */
module SlotProgress {
  import opened Sums
  import opened Wrappers
  import opened PrioritySemaphore
  import opened SlotProtocol
  import opened SlotSafety

  // The part of the waiter discipline that even the double increment keeps
  predicate UserFirst(s: Sem) { s.avail > 0 || s.reserved > 0 ==> s.high == [] }

  predicate HasWaiters(s: Sem) { s.high != [] || s.low != [] }

  // Sessions that own a slot of b, and users that parked theirs around a tool
  function Suppliers(ss: seq<Session>, b: Backend): nat { Sum(ss, OwnsOn(b)) + Sum(ss, ParksOn(b)) }

  predicate Supplied(s: State, b: Backend) { HasWaiters(s.At(b).sem) ==> Suppliers(s.ss, b) > 0 }

  predicate HolderWaits(x: Session, b: Backend) { InLock(x) && x.pc == Waiting(b, true) && !x.granted }

  // The lock holder waits only for a semaphore without a free slot.
  predicate HolderStarved(s: State, b: Backend) {
    forall k :: 0 <= k < |s.ss| && HolderWaits(s.ss[k], b) ==> s.At(b).sem.avail == 0
  }

  predicate Progress(s: State, b: Backend) { UserFirst(s.At(b).sem) && Supplied(s, b) && HolderStarved(s, b) }

  lemma UserFirstKept(s: Sem, op: Op, form: Form)
    requires UserFirst(s)
    ensures UserFirst(Apply(s, op, form).sem)
  {
  }

  // A caller that gets nothing: the semaphore has no free slot, and no reserved one for a user.
  lemma RefusedMeansTaken(s: Sem, pri: Priority)
    requires UserFirst(s) && Take(s, pri).None?
    ensures pri.User? ==> Free(s) == 0
    ensures s.high == [] ==> s.avail == 0
    ensures s.avail == 0
  {
  }

  lemma CancelIsInLock(cfg: Config, i: nat, x: Session, muFree: bool, move: Move)
    requires Bracket(x) && MovePlan(cfg, i, x, muFree, move).Some?
    ensures MovePlan(cfg, i, x, muFree, move).value.op.CancelReservation? ==> InLock(x)
  {
  }

  // The moving session owns a slot afterwards, or the woken one does.
  lemma SuppliedByMove(cfg: Config, s: State, i: nat, p: Plan)
    requires i < |s.ss| && PlanOk(i, s.ss[i], p, s.mu.None?) && Bracketed(s) && Queued(s)
    requires var e := Apply(s.At(p.b).sem, p.op, cfg.form); e.took || e.woken.Some?
    ensures Supplied(RunPlan(cfg, s, i, p), p.b)
  {
    var e := Apply(s.At(p.b).sem, p.op, cfg.form);
    var t := RunPlan(cfg, s, i, p);
    WokenWaits(cfg, s, i, p);
    OwnChange(cfg, s, i, p, p.b);
    var k := if e.took then i else e.woken.value;
    assert Owns(t.ss[k], p.b) > 0;
    SumAtLeast(t.ss, OwnsOn(p.b), k);
  }

  // Nobody was served: the moving session's share is all that changes.
  lemma SuppliersAfter(cfg: Config, s: State, i: nat, p: Plan, b: Backend)
    requires i < |s.ss| && PlanOk(i, s.ss[i], p, s.mu.None?) && Queued(s)
    requires b == p.b ==> Apply(s.At(p.b).sem, p.op, cfg.form).woken.None?
    ensures var x, y := s.ss[i], Becomes(p, Apply(s.At(p.b).sem, p.op, cfg.form));
            Suppliers(RunPlan(cfg, s, i, p).ss, b) + Owns(x, b) + Parks(x, b) == Suppliers(s.ss, b) + Owns(y, b) + Parks(y, b)
  {
    var e := Apply(s.At(p.b).sem, p.op, cfg.form);
    WokenWaits(cfg, s, i, p);
    SumAfter(s.ss, OwnsOn(b), i, Becomes(p, e), e.woken);
    SumAfter(s.ss, ParksOn(b), i, Becomes(p, e), e.woken);
  }

  // While nobody is served, suppliers only get fewer when there is nobody to serve, or when the
  // semaphore is empty and the slots are with other sessions.
  lemma SuppliedWithoutService(cfg: Config, s: State, i: nat, p: Plan)
    requires cfg.Valid() && i < |s.ss| && PlanOk(i, s.ss[i], p, s.mu.None?) && Bracketed(s) && Queued(s)
    requires BackendOk(cfg, s, p.b) && Progress(s, p.b)
    requires var e := Apply(s.At(p.b).sem, p.op, cfg.form); !e.took && e.woken.None?
    ensures Supplied(RunPlan(cfg, s, i, p), p.b)
  {
    var b, x, v := p.b, s.ss[i], s.At(p.b).sem;
    var t := RunPlan(cfg, s, i, p);
    SuppliersAfter(cfg, s, i, p, b);
    OwnChange(cfg, s, i, p, b);
    assert OwnershipOk(x, p, b);
    SumAtLeast(s.ss, OwnsOn(b), i);
    SumAtLeast(s.ss, ParksOn(b), i);
    if Acquiring(p.op) {
      RefusedMeansTaken(v, p.op.pri);
      assert Sum(s.ss, OwnsOn(b)) + v.reserved > 0;
    } else if p.op.Release? {
      assert !HasWaiters(t.At(b).sem);
    } else if !p.op.ReleaseReserved? {
      assert HasWaiters(t.At(b).sem) ==> HasWaiters(v);
    }
  }

  lemma SuppliedKept(cfg: Config, s: State, i: nat, p: Plan, b: Backend)
    requires cfg.Valid() && i < |s.ss| && PlanOk(i, s.ss[i], p, s.mu.None?) && Bracketed(s) && Queued(s)
    requires BackendOk(cfg, s, b) && Progress(s, b)
    ensures Supplied(RunPlan(cfg, s, i, p), b)
  {
    var e := Apply(s.At(p.b).sem, p.op, cfg.form);
    if b != p.b {
      SuppliersAfter(cfg, s, i, p, b);
      assert OwnershipOk(s.ss[i], p, b);
    } else if e.took || e.woken.Some? {
      SuppliedByMove(cfg, s, i, p);
    } else {
      SuppliedWithoutService(cfg, s, i, p);
    }
  }

  // The only sections that add a free slot beside a waiter are cancelled reservations, and then
  // the lock holder is the one that cancels.
  lemma AvailStaysZero(s: Sem, op: Op, form: Form)
    requires s.avail == 0 && HasWaiters(s) && !op.CancelReservation?
    ensures Apply(s, op, form).sem.avail == 0
  {
  }

  lemma HolderQueued(s: State, k: nat, b: Backend)
    requires k < |s.ss| && HolderWaits(s.ss[k], b) && Queued(s)
    ensures HasWaiters(s.At(b).sem)
  {
    RemovedIffNotGranted(s, k);
  }

  lemma StarvedKept(cfg: Config, s: State, i: nat, move: Move, b: Backend)
    requires Inv(cfg, s) && Progress(s, b) && i < |s.ss| && MovePlan(cfg, i, s.ss[i], s.mu.None?, move).Some?
    ensures HolderStarved(RunPlan(cfg, s, i, MovePlan(cfg, i, s.ss[i], s.mu.None?, move).value), b)
  {
    var x := s.ss[i];
    var p := MovePlan(cfg, i, x, s.mu.None?, move).value;
    var t, e := RunPlan(cfg, s, i, p), Apply(s.At(p.b).sem, p.op, cfg.form);
    assert Bracket(x);
    MoveOk(cfg, i, x, s.mu.None?, move);
    CancelIsInLock(cfg, i, x, s.mu.None?, move);
    WokenWaits(cfg, s, i, p);
    forall k | 0 <= k < |t.ss| && HolderWaits(t.ss[k], b) ensures t.At(b).sem.avail == 0 {
      if k == i {
        HolderJoins(cfg, s, i, move, b);
      } else {
        assert t.ss[k] == s.ss[k];
        assert (InLock(s.ss[k]) <==> s.mu == Some(k)) && (InLock(x) <==> s.mu == Some(i));
        if b == p.b {
          HolderQueued(s, k, b);
          AvailStaysZero(s.At(b).sem, p.op, cfg.form);
        }
      }
    }
  }

  lemma WaiterStays(cfg: Config, i: nat, x: Session, muFree: bool, move: Move, b: Backend)
    requires Bracket(x) && MovePlan(cfg, i, x, muFree, move).Some?
    ensures var p := MovePlan(cfg, i, x, muFree, move).value;
            && (HolderWaits(p.yes, b) ==> p.op.Nop? && HolderWaits(x, b))
            && (HolderWaits(p.no, b) ==> (p.op.Acquire? && p.b == b) || (p.op.Nop? && HolderWaits(x, b)))
  {
  }

  // A session that waits after its own move has just found the semaphore empty, or waited before.
  lemma HolderJoins(cfg: Config, s: State, i: nat, move: Move, b: Backend)
    requires Inv(cfg, s) && Progress(s, b) && i < |s.ss| && MovePlan(cfg, i, s.ss[i], s.mu.None?, move).Some?
    requires HolderWaits(RunPlan(cfg, s, i, MovePlan(cfg, i, s.ss[i], s.mu.None?, move).value).ss[i], b)
    ensures RunPlan(cfg, s, i, MovePlan(cfg, i, s.ss[i], s.mu.None?, move).value).At(b).sem.avail == 0
  {
    var p := MovePlan(cfg, i, s.ss[i], s.mu.None?, move).value;
    var v := s.At(p.b).sem;
    assert Bracket(s.ss[i]);
    MoveOk(cfg, i, s.ss[i], s.mu.None?, move);
    WokenWaits(cfg, s, i, p);
    WaiterStays(cfg, i, s.ss[i], s.mu.None?, move, b);
    assert RunPlan(cfg, s, i, p).ss[i] == Becomes(p, Apply(v, p.op, cfg.form));
    if p.op.Acquire? {
      RefusedMeansTaken(v, p.op.pri);
    }
  }

  lemma MoveProgress(cfg: Config, s: State, i: nat, move: Move, b: Backend)
    requires cfg.Valid() && Inv(cfg, s) && Progress(s, b)
    requires i < |s.ss| && MovePlan(cfg, i, s.ss[i], s.mu.None?, move).Some?
    ensures Progress(RunPlan(cfg, s, i, MovePlan(cfg, i, s.ss[i], s.mu.None?, move).value), b)
  {
    var p := MovePlan(cfg, i, s.ss[i], s.mu.None?, move).value;
    assert Bracket(s.ss[i]);
    MoveOk(cfg, i, s.ss[i], s.mu.None?, move);
    UserFirstKept(s.At(b).sem, p.op, cfg.form);
    SuppliedKept(cfg, s, i, p, b);
    StarvedKept(cfg, s, i, move, b);
  }

  lemma SpawnProgress(s: State, kind: Kind, b: Backend)
    requires Progress(s, b)
    ensures Progress(s.(ss := s.ss + [Spawned(kind)]), b)
  {
    SumAppend(s.ss, OwnsOn(b), Spawned(kind));
    SumAppend(s.ss, ParksOn(b), Spawned(kind));
  }

  lemma StepProgress(cfg: Config, s: State, a: Action, b: Backend)
    requires cfg.Valid() && Inv(cfg, s) && Progress(s, b) && Step(cfg, s, a).Some?
    ensures Progress(Step(cfg, s, a).value, b)
  {
    match a
    case Spawn(kind) => SpawnProgress(s, kind, b);
    case Act(i, move) => MoveProgress(cfg, s, i, move, b);
  }

  lemma {:induction false} RunProgress(cfg: Config, s: State, acts: seq<Action>, b: Backend)
    requires cfg.Valid() && Inv(cfg, s) && Progress(s, b) && Run(cfg, s, acts).Some?
    ensures Progress(Run(cfg, s, acts).value, b)
    decreases |acts|
  {
    if acts != [] {
      StepProgress(cfg, s, acts[0], b);
      StepKeeps(cfg, s, acts[0]);
      RunProgress(cfg, Step(cfg, s, acts[0]).value, acts[1..], b);
    }
  }

  // In every reachable state, whichever form CancelReservation has: a waiter has a session that
  // will supply it, users wait only for an empty semaphore, and so does the lock holder.
  lemma ReachableProgress(cfg: Config, s: State, b: Backend)
    requires cfg.Valid() && Reachable(cfg, s)
    ensures Progress(s, b)
  {
    var acts :| Run(cfg, Init(cfg), acts) == Some(s);
    InitKeeps(cfg);
    RunProgress(cfg, Init(cfg), acts, b);
  }
}
