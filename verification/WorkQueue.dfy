/**
  clients/workqueue.go: a bounded channel of background tasks, callers that submit to it, and
  workers that execute, retry after a pause, and complete.  Every channel operation, sleep and
  completion is one step; the check of the queue's depth and the send are separate steps.
 */
module WorkQueueModel {
  import R = Runs
  import opened Sums
  import opened Wrappers

  const PRIORITY_LOW := 1
  const PRIORITY_NORMAL := 2

  // One memory.WorkRequest; `id` is its order of submission.
  datatype Item = Item(id: nat, priority: int, retries: int)

  // A goroutine inside QueueWork, or asleep until it calls QueueWork again.
  datatype Caller = Called(x: Item) | Admitted(x: Item) | Asleep(x: Item) | Gone

  datatype Worker = Idle | Running(x: Item) | Backoff(x: Item)

  datatype Outcome = Success | Failed | RetryQueueFull | NotAdmitted

  // One call of OnComplete
  datatype Done = Done(x: Item, outcome: Outcome)

  datatype State = State(
    cap: nat,
    ch: seq<Item>,
    callers: seq<Caller>,
    workers: seq<Worker>,
    done: seq<Done>,
    asked: seq<Item>,      // the requests as submitted
    started: seq<nat>,     // log of executions, by id
    deferred: seq<nat>)    // log of deferrals, by id

  function Init(cap: nat, workers: nat): State {
    State(cap, [], [], seq(workers, (i: nat) => Idle), [], [], [], [])
  }

  // Zero counts as normal priority.
  predicate IsLow(x: Item) { x.priority != 0 && x.priority <= PRIORITY_LOW }

  predicate UnderPressure(cap: nat, depth: nat) { depth >= cap * 3 / 4 }

  function Raised(x: Item): Item { x.(priority := PRIORITY_NORMAL) }

  // ---------------------------------------------------------------------------
  // Steps
  // ---------------------------------------------------------------------------

  datatype Act =
    | Submit(priority: int, retries: int)
    | Check(i: nat)              // compare depth with the threshold
    | Send(i: nat, to: nat)      // non-blocking send of an admitted item
    | Wake(i: nat)               // an hour has passed
    | Take(w: nat)
    | Return(w: nat, ok: bool)   // execFn returns
    | Resend(w: nat, to: nat)    // the pause is over; non-blocking send

  predicate Enabled(s: State, a: Act) {
    match a
    case Submit(_, _) => true
    case Check(i) => i < |s.callers| && s.callers[i].Called?
    case Send(i, _) => i < |s.callers| && s.callers[i].Admitted?
    case Wake(i) => i < |s.callers| && s.callers[i].Asleep?
    case Take(w) => w < |s.workers| && s.workers[w].Idle? && s.ch != []
    case Return(w, _) => w < |s.workers| && s.workers[w].Running?
    case Resend(w, _) => w < |s.workers| && s.workers[w].Backoff?
  }

  // An unbuffered channel hands the item to a waiting worker.
  predicate CanHand(s: State, to: nat) { s.cap == 0 && to < |s.workers| && s.workers[to].Idle? }

  // Where an item goes when it is offered to the channel.
  datatype Offer = Buffer | Hand | Refuse

  function Offered(s: State, to: nat): Offer {
    if |s.ch| < s.cap then Buffer else if CanHand(s, to) then Hand else Refuse
  }

  function Deliver(s: State, x: Item, to: nat, refused: Outcome): State {
    match Offered(s, to)
    case Buffer => s.(ch := s.ch + [x])
    case Hand => s.(workers := s.workers[to := Running(x)], started := s.started + [x.id])
    case Refuse => s.(done := s.done + [Done(x, refused)])
  }

  function Step(s: State, a: Act): State
    requires Enabled(s, a)
  {
    match a
    case Submit(priority, retries) =>
      var x := Item(|s.callers|, priority, retries);
      s.(callers := s.callers + [Called(x)], asked := s.asked + [x])
    case Check(i) =>
      var x := s.callers[i].x;
      if UnderPressure(s.cap, |s.ch|) && IsLow(x) then
        s.(callers := s.callers[i := Asleep(Raised(x))], deferred := s.deferred + [x.id])
      else
        s.(callers := s.callers[i := Admitted(x)])
    case Send(i, to) =>
      Deliver(s, s.callers[i].x, to, NotAdmitted).(callers := s.callers[i := Gone])
    case Wake(i) =>
      s.(callers := s.callers[i := Called(s.callers[i].x)])
    case Take(w) =>
      s.(ch := s.ch[1..], workers := s.workers[w := Running(s.ch[0])], started := s.started + [s.ch[0].id])
    case Return(w, ok) =>
      var x := s.workers[w].x;
      if !ok && x.retries > 0 then
        s.(workers := s.workers[w := Backoff(x.(retries := x.retries - 1))])
      else
        s.(workers := s.workers[w := Idle], done := s.done + [Done(x, if ok then Success else Failed)])
    case Resend(w, to) =>
      var t := Deliver(s, s.workers[w].x, to, RetryQueueFull);
      t.(workers := t.workers[w := Idle])
  }

  function Steps(): (State, Act) -> Option<State> {
    (s: State, a: Act) => if Enabled(s, a) then Some(Step(s, a)) else None
  }

  predicate Runs(s: State, acts: seq<Act>) { R.Run(Steps(), s, acts).Some? }

  function End(s: State, acts: seq<Act>): State
    requires Runs(s, acts)
  {
    R.Run(Steps(), s, acts).value
  }

  ghost predicate Reachable(cap: nat, workers: nat, s: State) {
    exists acts: seq<Act> :: Runs(Init(cap, workers), acts) && End(Init(cap, workers), acts) == s
  }

  // ---------------------------------------------------------------------------
  // Every step but a submission moves one item
  // ---------------------------------------------------------------------------

  // Where an item can be, and what it weighs there.
  datatype Place = InCaller(c: Caller) | InChannel(x: Item) | InWorker(k: Worker) | InDone(d: Done)

  datatype Weights = Weights(place: Place -> nat) {
    function Caller(): Caller -> nat { c => place(InCaller(c)) }
    function Channel(): Item -> nat { x => place(InChannel(x)) }
    function Worker(): Worker -> nat { k => place(InWorker(k)) }
    function Done(): Done -> nat { d => place(InDone(d)) }

    // Empty places weigh nothing.
    predicate Valid() { place(InCaller(Gone)) == 0 && place(InWorker(Idle)) == 0 }
  }

  function Total(s: State, w: Weights): nat {
    Sum(s.callers, w.Caller()) + Sum(s.ch, w.Channel()) + Sum(s.workers, w.Worker()) + Sum(s.done, w.Done())
  }

  function From(s: State, a: Act): Place
    requires Enabled(s, a) && !a.Submit?
  {
    match a
    case Check(i) => InCaller(s.callers[i])
    case Send(i, _) => InCaller(s.callers[i])
    case Wake(i) => InCaller(s.callers[i])
    case Take(w) => InChannel(s.ch[0])
    case Return(w, _) => InWorker(s.workers[w])
    case Resend(w, _) => InWorker(s.workers[w])
  }

  function OfferedPlace(s: State, x: Item, to: nat, refused: Outcome): Place {
    match Offered(s, to)
    case Buffer => InChannel(x)
    case Hand => InWorker(Running(x))
    case Refuse => InDone(Done(x, refused))
  }

  function To(s: State, a: Act): Place
    requires Enabled(s, a) && !a.Submit?
  {
    match a
    case Check(i) => InCaller(Step(s, a).callers[i])
    case Send(i, to) => OfferedPlace(s, s.callers[i].x, to, NotAdmitted)
    case Wake(i) => InCaller(Called(s.callers[i].x))
    case Take(w) => InWorker(Running(s.ch[0]))
    case Return(w, ok) =>
      var x := s.workers[w].x;
      if !ok && x.retries > 0 then InWorker(Backoff(x.(retries := x.retries - 1)))
      else InDone(Done(x, if ok then Success else Failed))
    case Resend(w, to) => OfferedPlace(s, s.workers[w].x, to, RetryQueueFull)
  }

  lemma DeliverMoves(s: State, x: Item, to: nat, refused: Outcome, w: Weights)
    requires w.Valid()
    ensures Total(Deliver(s, x, to, refused), w) == Total(s, w) + w.place(OfferedPlace(s, x, to, refused))
  {
    match Offered(s, to)
    case Buffer => SumAppend(s.ch, w.Channel(), x);
    case Hand => SumUpdate(s.workers, w.Worker(), to, Running(x));
    case Refuse => SumAppend(s.done, w.Done(), Done(x, refused));
  }

  lemma StepMoves(s: State, a: Act, w: Weights)
    requires w.Valid() && Enabled(s, a) && !a.Submit?
    ensures Total(Step(s, a), w) + w.place(From(s, a)) == Total(s, w) + w.place(To(s, a))
  {
    match a
    case Check(i) =>
      SumUpdate(s.callers, w.Caller(), i, Step(s, a).callers[i]);
    case Send(i, to) =>
      DeliverMoves(s, s.callers[i].x, to, NotAdmitted, w);
      SumUpdate(s.callers, w.Caller(), i, Gone);
    case Wake(i) =>
      SumUpdate(s.callers, w.Caller(), i, Called(s.callers[i].x));
    case Take(k) =>
      SumUpdate(s.workers, w.Worker(), k, Running(s.ch[0]));
    case Return(k, ok) =>
      SumUpdate(s.workers, w.Worker(), k, Step(s, a).workers[k]);
      if To(s, a).InDone? {
        SumAppend(s.done, w.Done(), To(s, a).d);
      }
    case Resend(k, to) =>
      var t := Deliver(s, s.workers[k].x, to, RetryQueueFull);
      DeliverMoves(s, s.workers[k].x, to, RetryQueueFull, w);
      SumUpdate(t.workers, w.Worker(), k, Idle);
  }

  lemma SubmitAdds(s: State, a: Act, w: Weights)
    requires a.Submit?
    ensures Total(Step(s, a), w) == Total(s, w) + w.place(InCaller(Called(Item(|s.callers|, a.priority, a.retries))))
  {
    SumAppend(s.callers, w.Caller(), Called(Item(|s.callers|, a.priority, a.retries)));
  }

  // ---------------------------------------------------------------------------
  // Ledgers
  // ---------------------------------------------------------------------------

  function Pos(n: int): nat { if n > 0 then n else 0 }

  function ItemsOf(p: Place): Option<Item> {
    match p
    case InCaller(Gone) => None
    case InCaller(c) => Some(c.x)
    case InChannel(x) => Some(x)
    case InWorker(Idle) => None
    case InWorker(k) => Some(k.x)
    case InDone(d) => Some(d.x)
  }

  predicate Holds(p: Place, id: nat) { ItemsOf(p).Some? && ItemsOf(p).value.id == id }

  // Executions an item can still have from a place, or had left when it was completed.
  function Remaining(p: Place): nat {
    match ItemsOf(p)
    case None => 0
    case Some(x) =>
      if (p.InWorker? && p.k.Running?) || (p.InDone? && (p.d.outcome.Success? || p.d.outcome.Failed?)) then Pos(x.retries)
      else Pos(x.retries) + 1
  }

  function Here(id: nat): Weights { Weights((p: Place) => if Holds(p, id) then 1 else 0) }

  function Left(id: nat): Weights { Weights((p: Place) => if Holds(p, id) then Remaining(p) else 0) }

  // An item that may still be deferred
  function Deferrable(id: nat): Weights {
    Weights((p: Place) => if Holds(p, id) && p.InCaller? && !p.c.Admitted? && IsLow(p.c.x) then 1 else 0)
  }

  function Budget(s: State, id: nat): nat { if id < |s.asked| then Pos(s.asked[id].retries) + 1 else 0 }

  function MayDefer(s: State, id: nat): nat { if id < |s.asked| && IsLow(s.asked[id]) then 1 else 0 }

  predicate Ledger(s: State, id: nat) {
    && |s.callers| == |s.asked|
    && Total(s, Here(id)) == (if id < |s.asked| then 1 else 0)
    && Times(s.started, id) + Total(s, Left(id)) == Budget(s, id)
    && Times(s.deferred, id) + Total(s, Deferrable(id)) <= MayDefer(s, id)
  }

  lemma StartedBy(s: State, a: Act, id: nat)
    requires Enabled(s, a) && !a.Submit?
    ensures Times(Step(s, a).started, id) + Left(id).place(To(s, a)) == Times(s.started, id) + Left(id).place(From(s, a))
  {
    var p := To(s, a);
    if p.InWorker? && p.k.Running? {
      SumAppend(s.started, Is(id), p.k.x.id);
    }
  }

  lemma DeferredBy(s: State, a: Act, id: nat)
    requires Enabled(s, a) && !a.Submit?
    ensures Times(Step(s, a).deferred, id) + Deferrable(id).place(To(s, a))
            <= Times(s.deferred, id) + Deferrable(id).place(From(s, a))
  {
    if a.Check? {
      SumAppend(s.deferred, Is(id), s.callers[a.i].x.id);
    }
  }

  lemma SubmitLedger(s: State, a: Act, id: nat)
    requires a.Submit? && Ledger(s, id)
    ensures Ledger(Step(s, a), id)
  {
    SubmitAdds(s, a, Here(id));
    SubmitAdds(s, a, Left(id));
    SubmitAdds(s, a, Deferrable(id));
  }

  lemma StepLedger(s: State, a: Act, id: nat)
    requires Enabled(s, a) && Ledger(s, id)
    ensures Ledger(Step(s, a), id)
  {
    if a.Submit? {
      SubmitLedger(s, a, id);
    } else {
      StepMoves(s, a, Here(id));
      StepMoves(s, a, Left(id));
      StepMoves(s, a, Deferrable(id));
      StartedBy(s, a, id);
      DeferredBy(s, a, id);
      SameItem(s, a);
    }
  }

  lemma SameItem(s: State, a: Act)
    requires Enabled(s, a) && !a.Submit?
    ensures ItemsOf(From(s, a)).Some? && ItemsOf(To(s, a)).Some?
    ensures ItemsOf(From(s, a)).value.id == ItemsOf(To(s, a)).value.id
    ensures Step(s, a).asked == s.asked && |Step(s, a).callers| == |s.callers|
  {
  }

  lemma {:induction false} RunLedger(s: State, acts: seq<Act>, id: nat)
    requires Runs(s, acts) && Ledger(s, id)
    ensures Ledger(End(s, acts), id)
    decreases |acts|
  {
    if acts != [] {
      StepLedger(s, acts[0], id);
      RunLedger(Step(s, acts[0]), acts[1..], id);
    }
  }

  lemma {:induction false} IdleWeighNothing(n: nat, w: Weights)
    requires w.Valid()
    ensures Sum(seq(n, (i: nat) => Idle), w.Worker()) == 0
  {
    var ks := seq(n, (i: nat) => Idle);
    if n > 0 {
      assert ks[1..] == seq(n - 1, (i: nat) => Idle);
      IdleWeighNothing(n - 1, w);
    }
  }

  lemma ReachableLedger(cap: nat, workers: nat, s: State, id: nat)
    requires Reachable(cap, workers, s)
    ensures Ledger(s, id)
  {
    var acts: seq<Act> :| Runs(Init(cap, workers), acts) && End(Init(cap, workers), acts) == s;
    IdleWeighNothing(workers, Here(id));
    IdleWeighNothing(workers, Left(id));
    IdleWeighNothing(workers, Deferrable(id));
    RunLedger(Init(cap, workers), acts, id);
  }

  // ---------------------------------------------------------------------------
  // Guarantees
  // ---------------------------------------------------------------------------

  function Completions(s: State, id: nat): nat { Sum(s.done, Here(id).Done()) }

  function Waiting(s: State, id: nat): nat {
    Sum(s.callers, Here(id).Caller()) + Sum(s.ch, Here(id).Channel()) + Sum(s.workers, Here(id).Worker())
  }

  // A submitted item is in exactly one place, and completes at most once.
  lemma ItemConserved(cap: nat, workers: nat, s: State, id: nat)
    requires Reachable(cap, workers, s)
    ensures Waiting(s, id) + Completions(s, id) == if id < |s.asked| then 1 else 0
  {
    ReachableLedger(cap, workers, s, id);
  }

  // At most Retries + 1 executions, and at most one deferral, which only a low priority allows.
  lemma ExecutionsBounded(cap: nat, workers: nat, s: State, id: nat)
    requires Reachable(cap, workers, s) && id < |s.asked|
    ensures Times(s.started, id) <= Pos(s.asked[id].retries) + 1
    ensures Times(s.deferred, id) <= if IsLow(s.asked[id]) then 1 else 0
  {
    ReachableLedger(cap, workers, s, id);
  }

  // What each outcome says about the executions: an item that was refused was never executed,
  // a failure used every attempt, and one refused on its way back had attempts left.
  lemma OutcomeMeans(cap: nat, workers: nat, s: State, i: nat)
    requires Reachable(cap, workers, s) && i < |s.done|
    ensures var d := s.done[i]; var n := Times(s.started, d.x.id);
            && d.x.id < |s.asked|
            && (d.outcome.NotAdmitted? ==> n == 0)
            && (d.outcome.Failed? ==> n == Pos(s.asked[d.x.id].retries) + 1)
            && (d.outcome.RetryQueueFull? ==> n <= Pos(s.asked[d.x.id].retries))
  {
    var d := s.done[i];
    ReachableLedger(cap, workers, s, d.x.id);
    LeftAtCompletion(s, i);
    ReachableUntouched(cap, workers, s);
    assert d in s.done;
  }

  // A completed item is nowhere else, so its completion holds all the attempts it had left.
  lemma LeftAtCompletion(s: State, i: nat)
    requires i < |s.done| && Ledger(s, s.done[i].x.id)
    ensures Total(s, Left(s.done[i].x.id)) == Remaining(InDone(s.done[i]))
    ensures s.done[i].x.id < |s.asked|
  {
    var id := s.done[i].x.id;
    SumAtLeast(s.done, Here(id).Done(), i);
    SumSupport(s.callers, Here(id).Caller(), Left(id).Caller());
    SumSupport(s.ch, Here(id).Channel(), Left(id).Channel());
    SumSupport(s.workers, Here(id).Worker(), Left(id).Worker());
    SumSupport(s.done, Here(id).Done(), Left(id).Done());
  }

  // An item keeps its attempts until the channel or a worker has accepted it, and a plain
  // failure has none left.
  predicate Untouched(s: State) {
    && |s.callers| == |s.asked|
    && (forall i :: 0 <= i < |s.callers| && !s.callers[i].Gone? ==>
          s.callers[i].x.id == i && s.callers[i].x.retries == s.asked[i].retries)
    && (forall d :: d in s.done && d.outcome.NotAdmitted? ==>
          d.x.id < |s.asked| && d.x.retries == s.asked[d.x.id].retries)
    && (forall d :: d in s.done && d.outcome.Failed? ==> d.x.retries <= 0)
  }

  lemma StepUntouched(s: State, a: Act)
    requires Enabled(s, a) && Untouched(s)
    ensures Untouched(Step(s, a))
  {
    var t := Step(s, a);
    assert forall d :: d in t.done ==> d in s.done || To(s, a) == InDone(d);
  }

  lemma {:induction false} RunUntouched(s: State, acts: seq<Act>)
    requires Runs(s, acts) && Untouched(s)
    ensures Untouched(End(s, acts))
    decreases |acts|
  {
    if acts != [] {
      StepUntouched(s, acts[0]);
      RunUntouched(Step(s, acts[0]), acts[1..]);
    }
  }

  lemma ReachableUntouched(cap: nat, workers: nat, s: State)
    requires Reachable(cap, workers, s)
    ensures Untouched(s)
  {
    var acts: seq<Act> :| Runs(Init(cap, workers), acts) && End(Init(cap, workers), acts) == s;
    RunUntouched(Init(cap, workers), acts);
  }

  // ---------------------------------------------------------------------------
  // Progress
  // ---------------------------------------------------------------------------

  function CallerRank(c: Caller): nat {
    match c
    case Called(x) => 3 * Pos(x.retries) + if IsLow(x) then 7 else 5
    case Admitted(x) => 3 * Pos(x.retries) + 4
    case Asleep(x) => 3 * Pos(x.retries) + if IsLow(x) then 8 else 6
    case Gone => 0
  }

  function PlaceRank(p: Place): nat {
    match p
    case InCaller(c) => CallerRank(c)
    case InChannel(x) => 3 * Pos(x.retries) + 3
    case InWorker(Idle) => 0
    case InWorker(Running(x)) => 3 * Pos(x.retries) + 2
    case InWorker(Backoff(x)) => 3 * Pos(x.retries) + 4
    case InDone(_) => 0
  }

  function Rank(): Weights { Weights((p: Place) => PlaceRank(p)) }

  lemma StepRank(s: State, a: Act)
    requires Enabled(s, a)
    ensures !a.Submit? ==> Total(Step(s, a), Rank()) < Total(s, Rank())
    ensures a.Submit? ==> Total(Step(s, a), Rank()) <= Total(s, Rank()) + 3 * Pos(a.retries) + 7
  {
    if a.Submit? {
      SubmitAdds(s, a, Rank());
    } else {
      StepMoves(s, a, Rank());
      assert PlaceRank(To(s, a)) < PlaceRank(From(s, a));
    }
  }

  // Steps of callers and workers in a run
  function Work(acts: seq<Act>): nat
    decreases |acts|
  {
    if acts == [] then 0 else (if acts[0].Submit? then 0 else 1) + Work(acts[1..])
  }

  // What the submissions of a run can cause
  function Allowance(acts: seq<Act>): nat
    decreases |acts|
  {
    if acts == [] then 0 else (if acts[0].Submit? then 3 * Pos(acts[0].retries) + 7 else 0) + Allowance(acts[1..])
  }

  lemma {:induction false} RunRank(s: State, acts: seq<Act>)
    requires Runs(s, acts)
    ensures Work(acts) + Total(End(s, acts), Rank()) <= Total(s, Rank()) + Allowance(acts)
    decreases |acts|
  {
    if acts != [] {
      StepRank(s, acts[0]);
      RunRank(Step(s, acts[0]), acts[1..]);
    }
  }

  // Nothing runs forever: retries and deferrals are paid for by the submissions.
  lemma RunsBounded(cap: nat, workers: nat, acts: seq<Act>)
    requires Runs(Init(cap, workers), acts)
    ensures Work(acts) <= Allowance(acts)
  {
    IdleWeighNothing(workers, Rank());
    RunRank(Init(cap, workers), acts);
  }

  ghost predicate Quiet(s: State) { forall a: Act :: Enabled(s, a) ==> a.Submit? }

  // When nothing is left to do and there is a worker, every request has completed exactly once.
  lemma QuietMeansCompleted(cap: nat, workers: nat, s: State, id: nat)
    requires Reachable(cap, workers, s) && Quiet(s) && s.workers != [] && id < |s.asked|
    ensures Completions(s, id) == 1
  {
    ItemConserved(cap, workers, s, id);
    QuietCallers(s);
    QuietWorkers(s);
    SumZero(s.callers, Here(id).Caller());
    SumZero(s.workers, Here(id).Worker());
  }

  lemma QuietCallers(s: State)
    requires Quiet(s)
    ensures forall c :: c in s.callers ==> c.Gone?
  {
    forall i | 0 <= i < |s.callers| ensures s.callers[i].Gone? {
      assert !Enabled(s, Check(i)) && !Enabled(s, Send(i, 0)) && !Enabled(s, Wake(i));
    }
  }

  lemma QuietWorkers(s: State)
    requires Quiet(s) && s.workers != []
    ensures s.ch == [] && forall k :: k in s.workers ==> k.Idle?
  {
    forall w | 0 <= w < |s.workers| ensures s.workers[w].Idle? {
      assert !Enabled(s, Return(w, true)) && !Enabled(s, Resend(w, 0));
    }
    assert !Enabled(s, Take(0));
  }

  // ---------------------------------------------------------------------------
  // The queue with one worker
  // ---------------------------------------------------------------------------

  // A worker's pass over the item at the head, as steps
  function Pass(s: State, ok: bool): seq<Act>
    requires s.ch != []
  {
    [Take(0)] + [Return(0, ok)] + if !ok && s.ch[0].retries > 0 then [Resend(0, 0)] else []
  }

  function Taken(s: State): State
    requires s.ch != []
  {
    s.(ch := s.ch[1..], started := s.started + [s.ch[0].id])
  }

  // The worker after the execution: in its pause, or free again.
  function Executed(s: State, ok: bool): State
    requires s.ch != []
  {
    var x := s.ch[0];
    if !ok && x.retries > 0 then Taken(s).(workers := [Backoff(x.(retries := x.retries - 1))])
    else Taken(s).(done := s.done + [Done(x, if ok then Success else Failed)])
  }

  lemma OneRuns(s: State, a: Act)
    requires Enabled(s, a)
    ensures Runs(s, [a]) && End(s, [a]) == Step(s, a)
  {
    R.RunSnoc(Steps(), s, [], a);
    assert [] + [a] == [a];
  }

  lemma TakeAndReturn(s: State, ok: bool)
    requires s.workers == [Idle] && s.ch != []
    ensures Runs(s, [Take(0)] + [Return(0, ok)]) && End(s, [Take(0)] + [Return(0, ok)]) == Executed(s, ok)
  {
    OneRuns(s, Take(0));
    var t := Taken(s).(workers := [Running(s.ch[0])]);
    assert Step(s, Take(0)) == t;
    assert t.workers[0 := Idle] == [Idle];
    R.RunSnoc(Steps(), s, [Take(0)], Return(0, ok));
  }

  lemma PauseEnds(s: State, x: Item)
    requires s.workers == [Backoff(x)]
    ensures Enabled(s, Resend(0, 0))
    ensures Step(s, Resend(0, 0))
         == if |s.ch| < s.cap then s.(ch := s.ch + [x], workers := [Idle])
            else s.(done := s.done + [Done(x, RetryQueueFull)], workers := [Idle])
  {
    assert s.workers[0 := Idle] == [Idle];
  }

  lemma PassEnds(s: State, ok: bool)
    requires s.workers == [Idle] && s.ch != []
    ensures Runs(s, Pass(s, ok))
    ensures var x, t := s.ch[0], Taken(s);
            var y := x.(retries := x.retries - 1);
            End(s, Pass(s, ok)) ==
              if ok || x.retries <= 0 then t.(done := s.done + [Done(x, if ok then Success else Failed)])
              else if |t.ch| < s.cap then t.(ch := t.ch + [y])
              else t.(done := s.done + [Done(y, RetryQueueFull)])
  {
    TakeAndReturn(s, ok);
    var two, x := [Take(0)] + [Return(0, ok)], s.ch[0];
    if !ok && x.retries > 0 {
      PauseEnds(Executed(s, ok), x.(retries := x.retries - 1));
      R.RunSnoc(Steps(), s, two, Resend(0, 0));
    } else {
      assert two + [] == two;
    }
  }

  lemma PassProgress(s: State, ok: bool)
    requires s.workers == [Idle] && s.ch != []
    ensures Runs(s, Pass(s, ok)) && Total(End(s, Pass(s, ok)), Rank()) < Total(s, Rank())
  {
    PassEnds(s, ok);
    RunRank(s, Pass(s, ok));
    var acts := Pass(s, ok);
    assert |acts| == 3 ==> acts[1..][1..] == [Resend(0, 0)];
    assert |acts| == 2 ==> acts[1..][1..] == [];
    assert [Resend(0, 0)][1..] == [];
    assert Allowance([Resend(0, 0)]) == 0 && Allowance(acts[1..][1..]) == 0;
    assert acts[1..][0] == acts[1];
  }

  // In the run every execution returns what exec answers for the item its worker took, and the
  // number of executions so far.
  predicate Truthful(s: State, acts: seq<Act>, exec: (Item, nat) -> bool)
    requires Runs(s, acts)
    decreases |acts|
  {
    acts == []
    || ((acts[0].Return? ==> acts[0].ok == exec(s.workers[acts[0].w].x, |s.started|))
        && Truthful(Step(s, acts[0]), acts[1..], exec))
  }

  lemma {:induction false} TruthfulConcat(s: State, a: seq<Act>, b: seq<Act>, exec: (Item, nat) -> bool)
    requires Runs(s, a) && Truthful(s, a, exec) && Runs(End(s, a), b) && Truthful(End(s, a), b, exec)
    ensures Runs(s, a + b) && Truthful(s, a + b, exec)
    decreases |a|
  {
    R.RunConcat(Steps(), s, a, b);
    if a == [] {
      assert a + b == b;
    } else {
      TruthfulConcat(Step(s, a[0]), a[1..], b, exec);
      assert (a + b)[1..] == a[1..] + b;
    }
  }

  lemma OneTruthful(s: State, a: Act, exec: (Item, nat) -> bool)
    requires Enabled(s, a) && (a.Return? ==> a.ok == exec(s.workers[a.w].x, |s.started|))
    ensures Runs(s, [a]) && Truthful(s, [a], exec)
  {
    OneRuns(s, a);
    assert [a][1..] == [];
  }

  lemma PassTruthful(s: State, exec: (Item, nat) -> bool)
    requires s.workers == [Idle] && s.ch != []
    ensures var ok := exec(s.ch[0], |s.started| + 1); Runs(s, Pass(s, ok)) && Truthful(s, Pass(s, ok), exec)
  {
    var x, ok := s.ch[0], exec(s.ch[0], |s.started| + 1);
    OneTruthful(s, Take(0), exec);
    OneRuns(s, Take(0));
    var t := Taken(s).(workers := [Running(x)]);
    assert Step(s, Take(0)) == t;
    OneTruthful(t, Return(0, ok), exec);
    TruthfulConcat(s, [Take(0)], [Return(0, ok)], exec);
    TakeAndReturn(s, ok);
    var two := [Take(0)] + [Return(0, ok)];
    if !ok && x.retries > 0 {
      PauseEnds(Executed(s, ok), x.(retries := x.retries - 1));
      OneTruthful(Executed(s, ok), Resend(0, 0), exec);
      TruthfulConcat(s, two, [Resend(0, 0)], exec);
    } else {
      assert two + [] == two;
    }
  }

  // Admission: a request is put off exactly when it has low priority and would make the buffer more
  // than three quarters full; it then comes back with normal priority.  Every other one is admitted.
  lemma CheckExactly(s: State, i: nat)
    requires Enabled(s, Check(i))
    ensures var x, t := s.callers[i].x, Step(s, Check(i));
            var low := x.priority < 0 || x.priority == 1;
            && |t.callers| == |s.callers| && t.ch == s.ch && t.done == s.done
            && (t.callers[i].Asleep? <==> low && 4 * (|s.ch| + 1) > 3 * s.cap)
            && (t.callers[i].Asleep? ==> t.callers[i].x == x.(priority := 2) && t.deferred == s.deferred + [x.id])
            && (!t.callers[i].Asleep? ==> t.callers[i] == Admitted(x) && t.deferred == s.deferred)
  {
  }

  class WorkQueue {
    const capacity: nat
    var ch: seq<Item>
    var done: seq<Done>
    var started: seq<nat>

    constructor (capacity: nat)
      ensures this.capacity == capacity && ch == [] && done == [] && started == []
    {
      this.capacity := capacity;
      ch, done, started := [], [], [];
    }

    ghost function Shared(): State
      reads this
    {
      State(capacity, ch, [], [Idle], done, [], started, [])
    }

    // QueueWork on a buffered channel; `later` is the item a deferral submits again in an hour.
    method QueueWork(x: Item) returns (later: Option<Item>)
      modifies this`ch, this`done
      ensures later == if UnderPressure(capacity, |old(ch)|) && IsLow(x) then Some(Raised(x)) else None
      ensures later.Some? <==> (x.priority < 0 || x.priority == 1) && 4 * (|old(ch)| + 1) > 3 * capacity
      ensures later.Some? ==> ch == old(ch) && done == old(done)
      ensures later.None? && |old(ch)| < capacity ==> ch == old(ch) + [x] && done == old(done)
      ensures later.None? && |old(ch)| >= capacity ==> ch == old(ch) && done == old(done) + [Done(x, NotAdmitted)]
    {
      var pri := if x.priority == 0 then PRIORITY_NORMAL else x.priority;
      var depth := |ch|;
      var threshold := capacity * 3 / 4;
      if depth >= threshold && pri <= PRIORITY_LOW {
        return Some(x.(priority := PRIORITY_NORMAL));
      }
      if |ch| < capacity {
        ch := ch + [x];
      } else {
        done := done + [Done(x, NotAdmitted)];
      }
      return None;
    }

    // One item of process's loop: execute, then retry after the pause, or complete.
    method ProcessOne(exec: (Item, nat) -> bool) returns (ok: bool)
      requires ch != []
      modifies this
      ensures ok == exec(old(ch[0]), |old(started)| + 1)
      ensures Runs(old(Shared()), Pass(old(Shared()), ok)) && Shared() == End(old(Shared()), Pass(old(Shared()), ok))
    {
      var x := ch[0];
      ch := ch[1..];
      started := started + [x.id];
      ok := exec(x, |started|);
      PassEnds(old(Shared()), ok);
      if !ok && x.retries > 0 {
        var y := x.(retries := x.retries - 1);
        if |ch| < capacity {
          ch := ch + [y];
          return;
        }
        done := done + [Done(y, RetryQueueFull)];
      } else {
        done := done + [Done(x, if ok then Success else Failed)];
      }
    }

    // process, until the channel is empty: a run of the worker's steps in which every item taken is
    // executed, and treated by what the execution answers.
    method Process(exec: (Item, nat) -> bool) returns (ghost acts: seq<Act>)
      modifies this
      ensures ch == []
      ensures Runs(old(Shared()), acts) && End(old(Shared()), acts) == Shared() && Truthful(old(Shared()), acts, exec)
    {
      acts := [];
      while ch != []
        invariant Runs(old(Shared()), acts) && End(old(Shared()), acts) == Shared() && Truthful(old(Shared()), acts, exec)
        decreases Total(Shared(), Rank())
      {
        ghost var s := Shared();
        var ok := ProcessOne(exec);
        PassProgress(s, ok);
        PassTruthful(s, exec);
        TruthfulConcat(old(Shared()), acts, Pass(s, ok), exec);
        R.RunConcat(Steps(), old(Shared()), acts, Pass(s, ok));
        acts := acts + Pass(s, ok);
      }
    }
  }
}
