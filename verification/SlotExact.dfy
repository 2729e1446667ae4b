/** When exactly the slot protocol can lock up, lose a slot for good, or hand out too many. */
module SlotExact {
  import opened Sums
  import opened Wrappers
  import opened PrioritySemaphore
  import opened SlotProtocol
  import opened SlotSafety
  import opened SlotProgress
  import opened SlotDeadlock
  import opened SlotReacquire
  import opened SlotWitness
  import opened SlotNested

  predicate EnoughSlots(cfg: Config) { cfg.primarySlots >= cfg.engines && cfg.brainSlots >= cfg.engines }

  function Short(cfg: Config): Backend { if cfg.primarySlots < cfg.engines then Primary else Brain }

  // All sessions at work can be blocked at once, until some context ends, exactly when tools call
  // clients themselves or some backend has fewer slots than there are engine loops, whichever
  // form CancelReservation has.
  lemma DeadlockExactly(cfg: Config)
    requires cfg.Valid()
    ensures (exists s :: Reachable(cfg, s) && Deadlocked(cfg, s)) <==> cfg.nested || !EnoughSlots(cfg)
  {
    if cfg.nested {
      var t := UsersWait(cfg);
      ToolsOnlyDeadlock(cfg, t, Primary, cfg.engines, cfg.primarySlots);
    } else if !EnoughSlots(cfg) {
      var t := FewSlotsDeadlock(cfg, Short(cfg));
    } else {
      forall s | Reachable(cfg, s) ensures !Deadlocked(cfg, s) {
        if Deadlocked(cfg, s) {
          DeadlockNeedsFewSlots(cfg, s);
        }
      }
    }
  }

  // The cycle can occur exactly when some backend has fewer slots than there are engine loops.
  // The deployment has three loops and one Brain slot.
  lemma CycleExactly(cfg: Config)
    requires cfg.Valid()
    ensures (exists s, h: nat, b :: Reachable(cfg, s) && Cycle(s, h, b)) <==> !EnoughSlots(cfg)
  {
    if !EnoughSlots(cfg) {
      var t := CycleReachable(cfg, Short(cfg));
      assert Cycle(t, 0, Short(cfg));
    } else {
      forall s, h: nat, b | Reachable(cfg, s) && Cycle(s, h, b) ensures false {
        ReachableInv(cfg, s);
        assert BackendOk(cfg, s, b) && Bracket(s.ss[h]);
        OwnersAreEngines(cfg, s, h, b);
      }
    }
  }

  // ---------------------------------------------------------------------------
  // Getting a slot back after a tool
  // ---------------------------------------------------------------------------

  ghost predicate AlwaysReacquires(cfg: Config) {
    forall s, i: nat :: Reachable(cfg, s) && i < |s.ss| && NeedsSlot(s.ss[i]) ==> CanReacquire(cfg, s, i)
  }

  lemma HolderStuck(cfg: Config, b: Backend) returns (s: State, i: nat)
    requires cfg.Valid() && cfg.Cap(b) < cfg.engines
    ensures Reachable(cfg, s) && i < |s.ss| && NeedsSlot(s.ss[i]) && !CanReacquire(cfg, s, i)
  {
    s := ReachCycle(cfg.(nested := false), b);
    i := 0;
    Lift(cfg, s);
    ReachableInv(cfg, s);
    forall acts ensures !GetsSlot(cfg, s, i, acts) {
      if GetsSlot(cfg, s, i, acts) {
        assert Cycle(s, 0, b) && Act(0, CtxDone) !in acts;
        CycleForever(cfg, s, 0, b, acts);
      }
    }
  }

  // Whatever happened before, every session inside a tool can get its slot back without a
  // cancellation exactly when tools make no client calls and no backend has fewer slots than
  // there are engine loops.
  lemma ReacquireExactly(cfg: Config)
    requires cfg.Valid()
    ensures AlwaysReacquires(cfg) <==> !cfg.nested && EnoughSlots(cfg)
  {
    if cfg.nested {
      var s, i := UserStuck(cfg);
    } else if !EnoughSlots(cfg) {
      var s, i := HolderStuck(cfg, Short(cfg));
    } else {
      forall s, i: nat | Reachable(cfg, s) && i < |s.ss| && NeedsSlot(s.ss[i]) ensures CanReacquire(cfg, s, i) {
        var acts := Reacquires(cfg, s, i);
      }
    }
  }

  // ---------------------------------------------------------------------------
  // Overcommitment
  // ---------------------------------------------------------------------------

  // Giving up a reacquire is only for engine loops.  It removes a reservation whenever there is
  // one, and that reservation covers the slot of a user who is inside a tool and stays there.
  lemma UnreserveHitsUser(cfg: Config, s: State, i: nat)
    requires cfg.Valid() && Reachable(cfg, s) && i < |s.ss| && Step(cfg, s, Act(i, Unreserve)).Some?
    ensures var t, b := Step(cfg, s, Act(i, Unreserve)).value, s.ss[i].pc.b;
            && s.ss[i].kind.EngineLoop? && t.At(b).sem.reserved == s.At(b).sem.reserved - B(s.At(b).sem.reserved > 0)
            && (s.At(b).sem.reserved > 0 ==>
                  exists u :: 0 <= u < |s.ss| && Parks(s.ss[u], b) == 1 && u < |t.ss| && Parks(t.ss[u], b) == 1)
  {
    var t, b := Step(cfg, s, Act(i, Unreserve)).value, s.ss[i].pc.b;
    ReachableInv(cfg, s);
    assert Bracket(s.ss[i]) && BackendOk(cfg, s, b);
    if s.At(b).sem.reserved > 0 {
      var u := SumWitness(s.ss, ParksOn(b));
      assert u != i && Parks(t.ss[u], b) == 1;
    }
  }

  ghost predicate NothingExtra(s: State) {
    s.primary.surplus == s.primary.stray == s.brain.surplus == s.brain.stray == 0
  }

  // Only engine loops cancel reservations or release what they do not own.
  lemma StepWithoutEngines(cfg: Config, s: State, a: Action)
    requires cfg.engines == 0 && Inv(cfg, s) && NothingExtra(s) && Step(cfg, s, a).Some?
    ensures NothingExtra(Step(cfg, s, a).value)
  {
    if a.Act? {
      var x := s.ss[a.i];
      assert Bracket(x);
      SumAtLeast(s.ss, IsEngine(), a.i);
      CancelIsInLock(cfg, a.i, x, s.mu.None?, a.move);
      StrayMoveExactly(cfg, a.i, x, s.mu.None?, a.move);
      EngineFallback(cfg, a.i, x, s.mu.None?, a.move);
    }
  }

  lemma EngineFallback(cfg: Config, i: nat, x: Session, muFree: bool, move: Move)
    requires Bracket(x) && MovePlan(cfg, i, x, muFree, move).Some?
    ensures move.Fallback? && !x.acquired ==> x.kind.EngineLoop?
  {
  }

  lemma {:induction false} RunWithoutEngines(cfg: Config, s: State, acts: seq<Action>)
    requires cfg.engines == 0 && Inv(cfg, s) && NothingExtra(s) && Run(cfg, s, acts).Some?
    ensures NothingExtra(Run(cfg, s, acts).value)
    decreases |acts|
  {
    if acts != [] {
      StepWithoutEngines(cfg, s, acts[0]);
      StepKeeps(cfg, s, acts[0]);
      RunWithoutEngines(cfg, Step(cfg, s, acts[0]).value, acts[1..]);
    }
  }

  lemma NothingExtraWithoutCause(cfg: Config, s: State)
    requires cfg.Valid() && Reachable(cfg, s) && (cfg.engines == 0 || (cfg.form.SingleIncrement? && !cfg.fallbacks))
    ensures NothingExtra(s)
  {
    ReachableInv(cfg, s);
    if cfg.engines == 0 {
      var acts :| Run(cfg, Init(cfg), acts) == Some(s);
      InitKeeps(cfg);
      RunWithoutEngines(cfg, Init(cfg), acts);
    }
  }

  // More sessions own a slot of b than b has slots.
  lemma TooMany(cfg: Config, b: Backend) returns (t: State)
    requires cfg.Valid() && cfg.engines > 0 && (cfg.form.AsWritten? || cfg.fallbacks)
    ensures Reachable(cfg, t) && Sum(t.ss, OwnsOn(b)) > cfg.Cap(b)
  {
    var cfg0 := cfg.(nested := false);
    var s: State;
    if cfg.fallbacks {
      s := StrayReachable(cfg0, b);
    } else {
      s := SurplusReachable(cfg0, b);
    }
    var k := s.At(b).sem.avail;
    Fill(cfg0, s, b, Holder(b), k);
    t := Filled(s, b, Holder(b), k);
    SlotConservation(cfg0, t, b);
    Lift(cfg, t);
  }

  // That can happen exactly when there are engine loops and either the semaphore counts a
  // cancelled reservation twice or engine loops may run a fallback tool.
  lemma OvercommitExactly(cfg: Config, b: Backend)
    requires cfg.Valid()
    ensures (exists s :: Reachable(cfg, s) && Sum(s.ss, OwnsOn(b)) > cfg.Cap(b))
       <==> cfg.engines > 0 && (cfg.form.AsWritten? || cfg.fallbacks)
  {
    if cfg.engines > 0 && (cfg.form.AsWritten? || cfg.fallbacks) {
      var t := TooMany(cfg, b);
    } else {
      forall s | Reachable(cfg, s) ensures Sum(s.ss, OwnsOn(b)) <= cfg.Cap(b) {
        SlotConservation(cfg, s, b);
        NothingExtraWithoutCause(cfg, s);
      }
    }
  }
}
