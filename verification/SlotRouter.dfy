/**
  The router between the two backends (engine/slot_router.go), over the semaphore objects.
  Its methods stop where the source blocks: `Queued` is a caller enqueued in Acquire.
 */
module SlotRouting {
  import R = Runs
  import opened Wrappers
  import opened PrioritySemaphore
  import opened SlotProtocol

  datatype Routed = Resolved(b: Backend) | Queued(b: Backend)

  // Who serves the caller, when `first` is asked before `second` and the Brain's queue is last.
  function Decision(first: Backend, firstServes: bool, second: Backend, secondServes: bool): Routed {
    if firstServes then Resolved(first) else if secondServes then Resolved(second) else Queued(Brain)
  }

  class SlotRouter {
    const primary: PrioritySem
    const fallback: PrioritySem

    constructor (primary: PrioritySem, fallback: PrioritySem)
      requires primary != fallback
      ensures this.primary == primary && this.fallback == fallback
    {
      this.primary, this.fallback := primary, fallback;
    }

    // One semaphore took part in `op`, the other one is as before.
    twostate predicate Touched(b: Backend, op: Op)
      reads primary, fallback
    {
      if b.Primary? then primary.Did(op) && fallback.Did(Nop)
      else fallback.Did(op) && primary.Did(Nop)
    }

    method TryAcquirePrimary() returns (ok: bool)
      requires primary != fallback
      modifies primary
      ensures Touched(Primary, TryAcquire(User))
      ensures ok <==> old(Free(primary.State())) > 0
    {
      ok := primary.TryAcquireAt(User);
    }

    // The semaphore of the backend that serves the caller gave one slot; a caller nobody serves
    // stands at the end of the Brain's queue; the other semaphore is untouched.
    twostate predicate Routes(r: Routed, pri: Priority, ch: Waiter)
      reads primary, fallback
    {
      match r
      case Resolved(b) => Touched(b, TryAcquire(pri))
      case Queued(b) => b.Brain? && Touched(Brain, Acquire(pri, ch))
    }

    // With preferBrain the caller gets a Brain slot whenever the Brain has one for it, and a primary
    // slot exactly when only the primary has one; otherwise the other way round.
    method AcquireOrFallback(preferBrain: bool, pri: Priority, ch: Waiter) returns (r: Routed)
      requires primary != fallback
      modifies primary, fallback
      ensures var p, q := ServesNow(old(primary.State()), pri), ServesNow(old(fallback.State()), pri);
              && (r == Resolved(Brain) <==> if preferBrain then q else q && !p)
              && (r == Resolved(Primary) <==> if preferBrain then p && !q else p)
              && (r == Queued(Brain) <==> !p && !q)
      ensures Routes(r, pri, ch)
    {
      if preferBrain {
        r := AcquirePreferBrain(pri, ch);
      } else {
        r := AcquirePreferPrimary(pri, ch);
      }
    }

    method AcquirePreferBrain(pri: Priority, ch: Waiter) returns (r: Routed)
      requires primary != fallback
      modifies primary, fallback
      ensures r == Decision(Brain, ServesNow(old(fallback.State()), pri), Primary, ServesNow(old(primary.State()), pri))
      ensures Routes(r, pri, ch)
    {
      var ok := fallback.TryAcquireAt(pri);
      if ok { return Resolved(Brain); }
      ok := primary.TryAcquireAt(pri);
      if ok { return Resolved(Primary); }
      var queued := fallback.AcquireOrEnqueue(pri, ch);
      return if queued then Queued(Brain) else Resolved(Brain);
    }

    method AcquirePreferPrimary(pri: Priority, ch: Waiter) returns (r: Routed)
      requires primary != fallback
      modifies primary, fallback
      ensures r == Decision(Primary, ServesNow(old(primary.State()), pri), Brain, ServesNow(old(fallback.State()), pri))
      ensures Routes(r, pri, ch)
    {
      var ok := primary.TryAcquireAt(pri);
      if ok { return Resolved(Primary); }
      var queued := fallback.AcquireOrEnqueue(pri, ch);
      return if queued then Queued(Brain) else Resolved(Brain);
    }

    // Reacquire after its context is done: the wait is abandoned and one reservation cancelled,
    // whoever parked it.  Nothing else happens to that semaphore in between here.
    method ReacquireCancelled(b: Backend, pri: Priority, ch: Waiter)
      requires primary != fallback
      modifies primary, fallback
      ensures var sem := if b.Primary? then primary else fallback;
              var other := if b.Primary? then fallback else primary;
              var leave := if ch in old(sem.State()).Queue(pri) then Abandon(pri, ch) else Op.Release;
              && sem.State() == Apply(Apply(old(sem.State()), leave, AsWritten).sem, Op.CancelReservation, AsWritten).sem
              && other.Did(Nop)
    {
      var sem := if b.Primary? then primary else fallback;
      sem.AcquireCancelled(pri, ch);
      sem.CancelReservation();
    }
  }

  // A background session leaves a parked reservation alone: with only a reservation free on the
  // primary it takes nothing there, while a user takes the reserved slot.
  lemma BackgroundYields(primary: Sem, form: Form)
    requires primary.avail == 0 && primary.reserved > 0
    ensures !Apply(primary, TryAcquire(Background), form).took
    ensures Apply(primary, TryAcquire(User), form).took
         && Apply(primary, TryAcquire(User), form).sem == primary.(reserved := primary.reserved - 1)
  {
  }

  // ---------------------------------------------------------------------------
  // The sessions of the protocol route like the router
  // ---------------------------------------------------------------------------

  // n attempts of session i, with nothing in between
  function Attempts(i: nat, n: nat): seq<Action> {
    if n == 0 then [] else Attempts(i, n - 1) + [Act(i, Attempt)]
  }

  // The session left the router owning a slot of the backend, or waits there at the end of the queue
  // of its class.
  predicate LeftRouter(s: State, t: State, i: nat, r: Routed)
    requires i < |s.ss|
  {
    && i < |t.ss| && t.ss[i].kind == s.ss[i].kind
    && match r
       case Resolved(b) => t.ss[i].choice == On(b) && t.ss[i].holds && t.ss[i].acquired && !t.ss[i].pc.Waiting?
       case Queued(b) => t.ss[i].pc == Waiting(b, false) && t.At(b).sem.Queue(Pri(s.ss[i].kind)) == s.At(b).sem.Queue(Pri(s.ss[i].kind)) + [i]
  }

  // Where an attempt leads: to a slot of the backend asked, or to the next pc.
  lemma AttemptLeads(cfg: Config, s: State, i: nat, b: Backend)
    requires i < |s.ss| && !HasCall(cfg, s, i)
    requires s.ss[i].pc == (if b.Primary? then TryPrimary else TryBrain)
    ensures var pri := Pri(s.ss[i].kind); var t := Step(cfg, s, Act(i, Attempt));
            && t.Some? && |t.value.ss| == |s.ss|
            && (ServesNow(s.At(b).sem, pri) ==> LeftRouter(s, t.value, i, Resolved(b)))
            && (!ServesNow(s.At(b).sem, pri) ==>
                  t.value == s.(ss := s.ss[i := s.ss[i].(pc := if b.Primary? then Ask(Brain) else TryPrimary)]))
  {
    ServedExactly(s.At(b).sem, Pri(s.ss[i].kind), i, cfg.form);
  }

  lemma AskLeads(cfg: Config, s: State, i: nat)
    requires i < |s.ss| && !HasCall(cfg, s, i) && s.ss[i].pc == Ask(Brain) && !s.ss[i].kind.DirectCall?
    ensures var q := ServesNow(s.brain.sem, Pri(s.ss[i].kind)); var t := Step(cfg, s, Act(i, Attempt));
            t.Some? && LeftRouter(s, t.value, i, if q then Resolved(Brain) else Queued(Brain))
  {
    ServedExactly(s.brain.sem, Pri(s.ss[i].kind), i, cfg.form);
  }

  // Calls depend on the kinds and on who is done only.
  lemma SameCalls(cfg: Config, s: State, i: nat, pc: Pc)
    requires i < |s.ss| && !HasCall(cfg, s, i) && (s.ss[i].pc.TryBrain? || s.ss[i].pc.TryPrimary?)
    ensures !HasCall(cfg, s.(ss := s.ss[i := s.ss[i].(pc := pc)]), i)
  {
    var t := s.(ss := s.ss[i := s.ss[i].(pc := pc)]);
    forall k | 0 <= k < |t.ss| && FromTool(t.ss[k].kind) && t.ss[k].kind.parent == Some(i) ensures !cfg.nested || t.ss[k].pc.Done? {
      assert t.ss[k].kind == s.ss[k].kind;
    }
  }

  lemma OneMoreAttempt(cfg: Config, s: State, i: nat, n: nat)
    requires Run(cfg, s, Attempts(i, n)).Some?
    ensures Run(cfg, s, Attempts(i, n + 1)) == Step(cfg, Run(cfg, s, Attempts(i, n)).value, Act(i, Attempt))
  {
    R.RunSnoc(Steps(cfg), s, Attempts(i, n), Act(i, Attempt));
  }

  // Undisturbed, a session that comes to the router leaves it where the router's conditions say:
  // a background job on the Brain whenever the Brain has a slot for it, the others on the primary
  // whenever the primary has one, and everybody in the Brain's queue when neither has.
  lemma SessionRoutes(cfg: Config, s: State, i: nat) returns (n: nat, r: Routed)
    requires i < |s.ss| && !HasCall(cfg, s, i) && !s.ss[i].kind.DirectCall?
    requires s.ss[i].pc == if s.ss[i].kind.UserMessage? then TryPrimary else FirstPc(s.ss[i].kind)
    ensures Run(cfg, s, Attempts(i, n)).Some? && LeftRouter(s, Run(cfg, s, Attempts(i, n)).value, i, r)
    ensures var pri := Pri(s.ss[i].kind);
            var p, q := ServesNow(s.primary.sem, pri), ServesNow(s.brain.sem, pri);
            var job := s.ss[i].kind.BackgroundJob?;
            && (r == Resolved(Brain) <==> if job then q else q && !p)
            && (r == Resolved(Primary) <==> if job then p && !q else p)
            && (r == Queued(Brain) <==> !p && !q)
  {
    var pri := Pri(s.ss[i].kind);
    var p, q := ServesNow(s.primary.sem, pri), ServesNow(s.brain.sem, pri);
    OneMoreAttempt(cfg, s, i, 0);
    if s.ss[i].kind.BackgroundJob? {
      AttemptLeads(cfg, s, i, Brain);
      n, r := 1, Resolved(Brain);
      if !q {
        var s1 := s.(ss := s.ss[i := s.ss[i].(pc := TryPrimary)]);
        SameCalls(cfg, s, i, TryPrimary);
        n, r := PrimaryFirst(cfg, s1, i);
        Prepend(cfg, s, s1, i, n);
        n := n + 1;
      }
    } else {
      n, r := PrimaryFirst(cfg, s, i);
    }
  }

  lemma PrimaryFirst(cfg: Config, s: State, i: nat) returns (n: nat, r: Routed)
    requires i < |s.ss| && !HasCall(cfg, s, i) && !s.ss[i].kind.DirectCall? && s.ss[i].pc.TryPrimary?
    ensures Run(cfg, s, Attempts(i, n)).Some? && LeftRouter(s, Run(cfg, s, Attempts(i, n)).value, i, r)
    ensures var pri := Pri(s.ss[i].kind);
            r == Decision(Primary, ServesNow(s.primary.sem, pri), Brain, ServesNow(s.brain.sem, pri))
  {
    var pri := Pri(s.ss[i].kind);
    OneMoreAttempt(cfg, s, i, 0);
    AttemptLeads(cfg, s, i, Primary);
    n, r := 1, Resolved(Primary);
    if !ServesNow(s.primary.sem, pri) {
      var s1 := s.(ss := s.ss[i := s.ss[i].(pc := Ask(Brain))]);
      SameCalls(cfg, s, i, Ask(Brain));
      AskLeads(cfg, s1, i);
      OneMoreAttempt(cfg, s, i, 1);
      n, r := 2, if ServesNow(s.brain.sem, pri) then Resolved(Brain) else Queued(Brain);
    }
  }

  // One more attempt in front
  lemma {:induction false} Prepend(cfg: Config, s: State, s1: State, i: nat, n: nat)
    requires Step(cfg, s, Act(i, Attempt)) == Some(s1)
    ensures Run(cfg, s, Attempts(i, n + 1)) == Run(cfg, s1, Attempts(i, n))
  {
    if n == 0 {
      OneMoreAttempt(cfg, s, i, 0);
    } else {
      Prepend(cfg, s, s1, i, n - 1);
      R.RunSnoc(Steps(cfg), s, Attempts(i, n), Act(i, Attempt));
      R.RunSnoc(Steps(cfg), s1, Attempts(i, n - 1), Act(i, Attempt));
    }
  }
}
