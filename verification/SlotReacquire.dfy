/**
  A session inside a tool can get its slot back: with enough slots, and tools that make no client
  calls of their own, some continuation without new sessions and without any cancellation ends
  with the session out of its tool and owning its slot again.
 */
module SlotReacquire {
  import opened Sums
  import opened Wrappers
  import opened PrioritySemaphore
  import opened SlotProtocol
  import opened SlotSafety
  import opened SlotProgress
  import opened SlotDeadlock

  // In a tool, or on the way back from it
  predicate NeedsSlot(x: Session) {
    x.choice.On? && (x.pc.ToolRunning? || x.pc == Waiting(x.choice.b, true))
  }

  predicate BackInHand(x: Session, y: Session) {
    y.pc.ToolEnded? && y.acquired && y.holds && y.choice == x.choice
  }

  // No new session, no context that ends, no wait that is given up
  predicate Undisturbed(acts: seq<Action>) {
    forall a :: a in acts ==> a.Act? && !a.move.CtxDone? && !a.move.AbandonWait?
  }

  predicate GetsSlot(cfg: Config, s: State, i: nat, acts: seq<Action>)
    requires i < |s.ss|
  {
    Undisturbed(acts)
    && match Run(cfg, s, acts)
       case None => false
       case Some(t) => i < |t.ss| && BackInHand(s.ss[i], t.ss[i])
  }

  ghost predicate CanReacquire(cfg: Config, s: State, i: nat)
    requires i < |s.ss|
  {
    exists acts :: GetsSlot(cfg, s, i, acts)
  }

  // ---------------------------------------------------------------------------
  // Every session gets closer to its end
  // ---------------------------------------------------------------------------

  function Rank(pc: Pc): nat {
    match pc
    case Idle | Done => 0
    case Unlocked => 1
    case Chatting | ToolEnded => 2
    case LockWait | Unreserving(_) => 3
    case Waiting(_, _) | Returning(_, _) => 4
    case ToolRunning | Ask(_) => 5
    case TryPrimary => 6
    case SnapshotLock | TryBrain => 7
  }

  function RankOf(): Session -> nat { (x: Session) => Rank(x.pc) }

  predicate Lower(p: Plan, x: Session) { Rank(p.yes.pc) < Rank(x.pc) && Rank(p.no.pc) < Rank(x.pc) }

  lemma MoveRankAcquire(cfg: Config, i: nat, x: Session, muFree: bool)
    requires AcquireSide(NextMove(x)) && MovePlan(cfg, i, x, muFree, NextMove(x)).Some?
    ensures Lower(MovePlan(cfg, i, x, muFree, NextMove(x)).value, x)
  {
  }

  lemma MoveRankOther(cfg: Config, i: nat, x: Session, muFree: bool)
    requires Active(x) && !AcquireSide(NextMove(x)) && MovePlan(cfg, i, x, muFree, NextMove(x)).Some?
    ensures Lower(MovePlan(cfg, i, x, muFree, NextMove(x)).value, x)
  {
  }

  lemma MoveRank(cfg: Config, i: nat, x: Session, muFree: bool)
    requires Active(x) && MovePlan(cfg, i, x, muFree, NextMove(x)).Some?
    ensures Lower(MovePlan(cfg, i, x, muFree, NextMove(x)).value, x)
  {
    if AcquireSide(NextMove(x)) {
      MoveRankAcquire(cfg, i, x, muFree);
    } else {
      MoveRankOther(cfg, i, x, muFree);
    }
  }

  lemma StepRank(cfg: Config, s: State, k: nat)
    requires Inv(cfg, s) && k < |s.ss| && Active(s.ss[k]) && Step(cfg, s, Act(k, NextMove(s.ss[k]))).Some?
    ensures Sum(Step(cfg, s, Act(k, NextMove(s.ss[k]))).value.ss, RankOf()) < Sum(s.ss, RankOf())
  {
    var x := s.ss[k];
    var p := MovePlan(cfg, k, x, s.mu.None?, NextMove(x)).value;
    assert Bracket(x);
    MoveRank(cfg, k, x, s.mu.None?);
    MoveOk(cfg, k, x, s.mu.None?, NextMove(x));
    WokenWaits(cfg, s, k, p);
    var e := Apply(s.At(p.b).sem, p.op, cfg.form);
    SumAfter(s.ss, RankOf(), k, Becomes(p, e), e.woken);
  }

  // ---------------------------------------------------------------------------
  // What the steps do to the session in its tool
  // ---------------------------------------------------------------------------

  lemma OtherStep(cfg: Config, s: State, k: nat, i: nat)
    requires Inv(cfg, s) && k < |s.ss| && i < |s.ss| && i != k && NeedsSlot(s.ss[i])
    requires Active(s.ss[k]) && Step(cfg, s, Act(k, NextMove(s.ss[k]))).Some?
    ensures var t := Step(cfg, s, Act(k, NextMove(s.ss[k]))).value;
            i < |t.ss| && NeedsSlot(t.ss[i]) && t.ss[i].choice == s.ss[i].choice
  {
  }

  // Its own step ends the tool with the slot, or makes it wait.
  lemma OwnStep(cfg: Config, s: State, i: nat)
    requires Inv(cfg, s) && i < |s.ss| && NeedsSlot(s.ss[i]) && Step(cfg, s, Act(i, NextMove(s.ss[i]))).Some?
    ensures var t := Step(cfg, s, Act(i, NextMove(s.ss[i]))).value;
            i < |t.ss| && t.ss[i].choice == s.ss[i].choice && (NeedsSlot(t.ss[i]) || BackInHand(s.ss[i], t.ss[i]))
  {
    var x := s.ss[i];
    var p := MovePlan(cfg, i, x, s.mu.None?, NextMove(x)).value;
    assert Bracket(x);
    MoveOk(cfg, i, x, s.mu.None?, NextMove(x));
    WokenWaits(cfg, s, i, p);
    assert Step(cfg, s, Act(i, NextMove(x))).value.ss[i] == Becomes(p, Apply(s.At(p.b).sem, p.op, cfg.form));
  }

  // One more step in front of a continuation
  lemma GetsSlotLater(cfg: Config, s: State, k: nat, i: nat, acts: seq<Action>)
    requires k < |s.ss| && i < |s.ss| && Active(s.ss[k]) && Step(cfg, s, Act(k, NextMove(s.ss[k]))).Some?
    requires var t := Step(cfg, s, Act(k, NextMove(s.ss[k]))).value;
             i < |t.ss| && t.ss[i].choice == s.ss[i].choice && GetsSlot(cfg, t, i, acts)
    ensures GetsSlot(cfg, s, i, [Act(k, NextMove(s.ss[k]))] + acts)
  {
    var all := [Act(k, NextMove(s.ss[k]))] + acts;
    assert all[1..] == acts;
  }

  // Whatever happened before, the session gets its slot back if the active sessions just go on.
  lemma {:induction false} Reacquires(cfg: Config, s: State, i: nat) returns (acts: seq<Action>)
    requires cfg.Valid() && !cfg.nested && Reachable(cfg, s)
    requires cfg.primarySlots >= cfg.engines && cfg.brainSlots >= cfg.engines
    requires i < |s.ss| && NeedsSlot(s.ss[i])
    ensures GetsSlot(cfg, s, i, acts)
    decreases Sum(s.ss, RankOf())
  {
    ReachableInv(cfg, s);
    DeadlockFree(cfg, s, i);
    var k :| 0 <= k < |s.ss| && Active(s.ss[k]) && Step(cfg, s, Act(k, NextMove(s.ss[k]))).Some?;
    var a := Act(k, NextMove(s.ss[k]));
    var t := Step(cfg, s, a).value;
    StepRank(cfg, s, k);
    ReachableStep(cfg, s, a);
    if k == i {
      OwnStep(cfg, s, i);
    } else {
      OtherStep(cfg, s, k, i);
    }
    if NeedsSlot(t.ss[i]) {
      acts := Reacquires(cfg, t, i);
    } else {
      acts := [];
    }
    GetsSlotLater(cfg, s, k, i, acts);
    acts := [a] + acts;
  }
}
