/**
  clients/circuit_breaker.go and the way SubagentClient.exec uses it
  (clients/subagent_client.go): concurrent calls check the breaker before they start and most
  of their exits record a result afterwards.  Times and durations are integers, in minutes
  where a constant is given.
 */
module CircuitBreakers {
  import R = Runs
  import opened PrioritySemaphore
  import opened Wrappers

  const FAIL_THRESHOLD: nat := 3
  const OPEN_DURATION: nat := 2
  const MAX_OPEN: nat := 10

  datatype CircuitState = Closed | Open | HalfOpen

  datatype Breaker = Breaker(state: CircuitState, failCount: nat, openUntil: int, openDur: nat)

  datatype Event = Check(now: int) | Success | Failure(now: int)

  const Fresh := Breaker(Closed, 0, 0, OPEN_DURATION)

  function Min(a: nat, b: nat): nat { if a <= b then a else b }

  predicate Admits(b: Breaker, now: int) {
    b.state.Closed? || (b.state.Open? && now > b.openUntil)
  }

  function Next(b: Breaker, e: Event): Breaker {
    match e
    case Check(now) => if b.state.Open? && now > b.openUntil then b.(state := HalfOpen) else b
    case Success => Breaker(Closed, 0, b.openUntil, OPEN_DURATION)
    case Failure(now) =>
      if b.failCount + 1 >= FAIL_THRESHOLD then
        Breaker(Open, b.failCount + 1, now + b.openDur, Min(b.openDur * 2, MAX_OPEN))
      else b.(failCount := b.failCount + 1)
  }

  function After(b: Breaker, h: seq<Event>): Breaker
    decreases |h|
  {
    if h == [] then b else Next(After(b, h[..|h| - 1]), h[|h| - 1])
  }

  // ---------------------------------------------------------------------------
  // Every history
  // ---------------------------------------------------------------------------

  // Failures recorded since the last success
  function Failures(h: seq<Event>): nat
    decreases |h|
  {
    if h == [] then 0
    else
      match h[|h| - 1]
      case Success => 0
      case Failure(_) => Failures(h[..|h| - 1]) + 1
      case Check(_) => Failures(h[..|h| - 1])
  }

  // When the last failure was recorded
  function LastFailure(h: seq<Event>): int
    requires Failures(h) > 0
    decreases |h|
  {
    if h[|h| - 1].Failure? then h[|h| - 1].now else LastFailure(h[..|h| - 1])
  }

  function Power2(n: nat): nat { if n == 0 then 1 else 2 * Power2(n - 1) }

  // Minutes the k-th consecutive opening lasts
  function Window(k: nat): nat
    requires k > 0
  {
    Min(OPEN_DURATION * Power2(k - 1), MAX_OPEN)
  }

  lemma {:induction false} WindowDoubles(k: nat)
    requires k > 0
    ensures Window(k + 1) == Min(Window(k) * 2, MAX_OPEN)
  {
    assert Power2(k) == 2 * Power2(k - 1);
  }

  // A check since the last record came after the window ended.
  predicate Probed(h: seq<Event>, until: int)
    decreases |h|
  {
    h != [] && h[|h| - 1].Check? && (h[|h| - 1].now > until || Probed(h[..|h| - 1], until))
  }

  // The breaker is open or half-open exactly when three failures were recorded since the last
  // success; then its window is the one of that many consecutive openings, from the last of
  // them, and it is half-open exactly when a check came later than that.
  lemma {:induction false} HistoryDecides(h: seq<Event>)
    ensures var b, f := After(Fresh, h), Failures(h);
            && b.failCount == f
            && (b.state.Closed? <==> f < FAIL_THRESHOLD)
            && b.openDur == Window(if f < FAIL_THRESHOLD then 1 else f - 1)
            && (f >= FAIL_THRESHOLD ==>
                  && b.openUntil == LastFailure(h) + Window(f - 2)
                  && (b.state.HalfOpen? <==> Probed(h, b.openUntil)))
    decreases |h|
  {
    if h != [] {
      var front, f := h[..|h| - 1], Failures(h[..|h| - 1]);
      HistoryDecides(front);
      if f >= FAIL_THRESHOLD {
        WindowDoubles(f - 1);
      } else {
        WindowDoubles(1);
      }
      assert Window(1) == 2;
    }
  }

  // Calls admitted by a series of checks
  function Admitted(b: Breaker, checks: seq<int>): nat
    decreases |checks|
  {
    if checks == [] then 0
    else (if Admits(b, checks[0]) then 1 else 0) + Admitted(Next(b, Check(checks[0])), checks[1..])
  }

  // Until something is recorded, an open breaker admits one call, the first after its window;
  // a half-open one admits none and a closed one admits all.
  lemma {:induction false} OneProbe(b: Breaker, checks: seq<int>)
    ensures Admitted(b, checks) ==
      match b.state
      case Closed => |checks|
      case Open => if exists t :: t in checks && t > b.openUntil then 1 else 0
      case HalfOpen => 0
    decreases |checks|
  {
    if checks != [] {
      OneProbe(Next(b, Check(checks[0])), checks[1..]);
      assert checks[0] in checks && forall t :: t in checks ==> t == checks[0] || t in checks[1..];
      assert forall t :: t in checks[1..] ==> t in checks;
    }
  }

  // ---------------------------------------------------------------------------
  // Calls
  // ---------------------------------------------------------------------------

  // How an admitted call of exec ends.  `server` is false for a cancelled or expired context.
  datatype Exit =
    | Busy
    | AcquireCancelled
    | LoadFailed(server: bool)
    | MarshalFailed
    | RequestFailed(server: bool)
    | EmptyResponse
    | Answered

  function RecordOf(e: Exit, now: int): Option<Event> {
    match e
    case Busy => None
    case AcquireCancelled => None
    case LoadFailed(server) => if server then Some(Failure(now)) else None
    case MarshalFailed => None
    case RequestFailed(server) => if server then Some(Failure(now)) else None
    case EmptyResponse => Some(Failure(now))
    case Answered => Some(Success)
  }

  predicate Recording(e: Exit) { RecordOf(e, 0).Some? }

  predicate Failing(e: Exit) { RecordOf(e, 0) == Some(Failure(0)) }

  // The breaker with the number of calls between check and exit
  datatype Client = Client(cb: Breaker, inFlight: nat)

  datatype Act = Begin(now: int) | Finish(exit: Exit, now: int)

  predicate Enabled(c: Client, a: Act) { a.Finish? ==> c.inFlight > 0 }

  function Step(c: Client, a: Act): Client
    requires Enabled(c, a)
  {
    match a
    case Begin(now) =>
      Client(Next(c.cb, Check(now)), c.inFlight + if Admits(c.cb, now) then 1 else 0)
    case Finish(exit, now) =>
      var r := RecordOf(exit, now);
      Client(if r.Some? then Next(c.cb, r.value) else c.cb, c.inFlight - 1)
  }

  function Steps(): (Client, Act) -> Option<Client> {
    (c: Client, a: Act) => if Enabled(c, a) then Some(Step(c, a)) else None
  }

  predicate Runs(c: Client, acts: seq<Act>) { R.Run(Steps(), c, acts).Some? }

  function End(c: Client, acts: seq<Act>): Client
    requires Runs(c, acts)
  {
    R.Run(Steps(), c, acts).value
  }

  const Start := Client(Fresh, 0)

  // Every call of the run ends in one of the exits in es.
  predicate Uses(acts: seq<Act>, es: set<Exit>) {
    forall a :: a in acts && a.Finish? ==> a.exit in es
  }

  ghost predicate Reachable(es: set<Exit>, c: Client) {
    exists acts: seq<Act> :: Runs(Start, acts) && Uses(acts, es) && End(Start, acts) == c
  }

  // ---------------------------------------------------------------------------
  // Recovery
  // ---------------------------------------------------------------------------

  // Half-open with nobody left to record anything
  predicate Stuck(c: Client) { c.cb.state.HalfOpen? && c.inFlight == 0 }

  predicate Sound(c: Client) { c.cb.state.Closed? <==> c.cb.failCount < FAIL_THRESHOLD }

  lemma {:induction false} SoundKept(c: Client, acts: seq<Act>)
    requires Runs(c, acts) && Sound(c)
    ensures Sound(End(c, acts))
    decreases |acts|
  {
    if acts != [] {
      SoundKept(Step(c, acts[0]), acts[1..]);
    }
  }

  // A half-open breaker stays half-open, unchanged, exactly as long as no call records.
  lemma {:induction false} HalfOpenUntilRecord(c: Client, acts: seq<Act>)
    requires Runs(c, acts) && Sound(c) && c.cb.state.HalfOpen?
    requires forall a :: a in acts && a.Finish? ==> !Recording(a.exit)
    ensures End(c, acts).cb == c.cb && End(c, acts).inFlight <= c.inFlight
    decreases |acts|
  {
    if acts != [] {
      assert acts[0] in acts;
      HalfOpenUntilRecord(Step(c, acts[0]), acts[1..]);
    }
  }

  lemma RecordEndsHalfOpen(c: Client, exit: Exit, now: int)
    requires Sound(c) && c.cb.state.HalfOpen? && c.inFlight > 0
    ensures Recording(exit) <==> !Step(c, Finish(exit, now)).cb.state.HalfOpen?
    ensures Recording(exit) ==> Step(c, Finish(exit, now)).cb.state == if Failing(exit) then Open else Closed
  {
  }

  // A stuck client refuses every later call.
  lemma {:induction false} StuckForever(c: Client, acts: seq<Act>)
    requires Stuck(c) && Runs(c, acts)
    ensures End(c, acts) == c
    ensures forall a :: a in acts ==> a.Begin? && !Admits(c.cb, a.now)
    decreases |acts|
  {
    if acts != [] {
      StuckForever(Step(c, acts[0]), acts[1..]);
      assert acts == [acts[0]] + acts[1..];
    }
  }

  // While every exit records, a half-open breaker has its probe in flight.
  predicate ProbeInFlight(c: Client) { Sound(c) && (c.cb.state.HalfOpen? ==> c.inFlight > 0) }

  lemma {:induction false} ProbeKept(c: Client, acts: seq<Act>, es: set<Exit>)
    requires Runs(c, acts) && Uses(acts, es) && ProbeInFlight(c)
    requires forall e :: e in es ==> Recording(e)
    ensures ProbeInFlight(End(c, acts))
    decreases |acts|
  {
    if acts != [] {
      assert acts[0] in acts;
      ProbeKept(Step(c, acts[0]), acts[1..], es);
    }
  }

  // Three failing calls one after the other, and a probe that ends without recording
  lemma StuckReachable(es: set<Exit>, fail: Exit, quiet: Exit)
    requires fail in es && quiet in es && Failing(fail) && !Recording(quiet)
    ensures Reachable(es, Client(Breaker(HalfOpen, 3, 2, 4), 0))
  {
    assert Runs(Start, []) && Uses([], es) && End(Start, []) == Start;
    FailsOnce(fail);
    FailsTwice(fail);
    FailsThrice(fail);
    ProbeIsLost(quiet);
    ReachCall(es, Start, 0, fail);
    ReachCall(es, Client(Fresh.(failCount := 1), 0), 0, fail);
    ReachCall(es, Client(Fresh.(failCount := 2), 0), 0, fail);
    ReachCall(es, Client(Breaker(Open, 3, 2, 4), 0), 3, quiet);
  }

  lemma FailsOnce(fail: Exit)
    requires Failing(fail)
    ensures Call(Start, 0, fail) == Client(Fresh.(failCount := 1), 0)
  {
  }

  lemma FailsTwice(fail: Exit)
    requires Failing(fail)
    ensures Call(Client(Fresh.(failCount := 1), 0), 0, fail) == Client(Fresh.(failCount := 2), 0)
  {
  }

  lemma FailsThrice(fail: Exit)
    requires Failing(fail)
    ensures Call(Client(Fresh.(failCount := 2), 0), 0, fail) == Client(Breaker(Open, 3, 2, 4), 0)
  {
  }

  lemma ProbeIsLost(quiet: Exit)
    requires !Recording(quiet)
    ensures Call(Client(Breaker(Open, 3, 2, 4), 0), 3, quiet) == Client(Breaker(HalfOpen, 3, 2, 4), 0)
  {
  }

  function Call(c: Client, now: int, exit: Exit): Client
    requires c.inFlight == 0 && Admits(c.cb, now)
  {
    Step(Step(c, Begin(now)), Finish(exit, now))
  }

  lemma ReachCall(es: set<Exit>, c: Client, now: int, exit: Exit)
    requires Reachable(es, c) && c.inFlight == 0 && Admits(c.cb, now) && exit in es
    ensures Reachable(es, Call(c, now, exit))
  {
    var acts: seq<Act> :| Runs(Start, acts) && Uses(acts, es) && End(Start, acts) == c;
    R.RunSnoc(Steps(), Start, acts, Begin(now));
    R.RunSnoc(Steps(), Start, acts + [Begin(now)], Finish(exit, now));
    assert Uses(acts + [Begin(now)] + [Finish(exit, now)], es);
  }

  // The breaker can lose its probe for good exactly when some exit records nothing.
  lemma StuckExactly(es: set<Exit>, fail: Exit)
    requires fail in es && Failing(fail)
    ensures (exists c :: Reachable(es, c) && Stuck(c)) <==> (exists e :: e in es && !Recording(e))
  {
    if e :| e in es && !Recording(e) {
      StuckReachable(es, fail, e);
      assert Stuck(Client(Breaker(HalfOpen, 3, 2, 4), 0));
    } else {
      forall c | Reachable(es, c) ensures !Stuck(c) {
        var acts: seq<Act> :| Runs(Start, acts) && Uses(acts, es) && End(Start, acts) == c;
        ProbeKept(Start, acts, es);
      }
    }
  }

  // ---------------------------------------------------------------------------
  // The breaker and exec
  // ---------------------------------------------------------------------------

  class CircuitBreaker {
    var state: CircuitState
    var failCount: nat
    var openUntil: int
    var openDur: nat

    constructor ()
      ensures Value() == Fresh
    {
      state, failCount, openUntil, openDur := Closed, 0, 0, OPEN_DURATION;
    }

    ghost function Value(): Breaker
      reads this
    {
      Breaker(state, failCount, openUntil, openDur)
    }

    method Check(now: int) returns (ok: bool)
      modifies this`state
      ensures Value() == Next(old(Value()), Event.Check(now))
      ensures ok == Admits(old(Value()), now)
    {
      match state
      case Closed =>
        return true;
      case Open =>
        if now > openUntil {
          state := HalfOpen;
          return true;
        }
        return false;
      case HalfOpen =>
        return false;
    }

    method RecordSuccess()
      modifies this
      ensures Value() == Next(old(Value()), Success)
    {
      failCount, state, openDur := 0, Closed, OPEN_DURATION;
    }

    method RecordFailure(now: int)
      modifies this
      ensures Value() == Next(old(Value()), Failure(now))
    {
      failCount := failCount + 1;
      if failCount >= FAIL_THRESHOLD {
        state := Open;
        openUntil := now + openDur;
        openDur := openDur * 2;
        if openDur > MAX_OPEN {
          openDur := MAX_OPEN;
        }
      }
    }

    method RecordFailureIfServer(server: bool, now: int)
      modifies this
      ensures Value() == if server then Next(old(Value()), Failure(now)) else old(Value())
    {
      if !server {
        return;
      }
      RecordFailure(now);
    }
  }

  // How the parts of one exec turn out: errors carry whether the server is to blame.
  datatype Attempt = Attempt(tryOnly: bool, load: Option<bool>, marshalOk: bool, request: Option<bool>, empty: bool)

  function ExitOf(acquired: bool, t: Attempt): Exit {
    if !acquired then (if t.tryOnly then Busy else AcquireCancelled)
    else if t.load.Some? then LoadFailed(t.load.value)
    else if !t.marshalOk then MarshalFailed
    else if t.request.Some? then RequestFailed(t.request.value)
    else if t.empty then EmptyResponse
    else Answered
  }

  // The sections of one exec on the semaphore: a slot is taken and given back, or there is none
  // and a blocking caller queues up until its context ends.
  function SlotOps(q: Sem, t: Attempt, ch: Waiter): seq<Op> {
    if Take(q, Background).Some? then [TryAcquire(Background), Op.Release]
    else if t.tryOnly then []
    else [Acquire(Background, ch), Abandon(Background, ch)]
  }

  lemma AllOfTwo(q: Sem, first: Op, second: Op)
    ensures ApplyAll(q, [first, second], AsWritten) == Apply(Apply(q, first, AsWritten).sem, second, AsWritten).sem
  {
    var mid := Apply(q, first, AsWritten).sem;
    assert [first, second][1..] == [second] && [second][1..] == [];
    assert ApplyAll(mid, [second], AsWritten) == ApplyAll(Apply(mid, second, AsWritten).sem, [], AsWritten);
  }

  lemma NobodyServed(q: Sem, t: Attempt, ch: Waiter)
    requires Take(q, Background).None? && ch !in q.low
    ensures ApplyAll(q, SlotOps(q, t, ch), AsWritten) == q
  {
    if !t.tryOnly {
      AllOfTwo(q, Acquire(Background, ch), Abandon(Background, ch));
      WithoutSplit(q.low, [ch], ch);
      assert Without([ch], ch) == [] && q.low + [] == q.low;
    }
  }

  // Whatever the exit, exec leaves a semaphore in its discipline with the slots and the waiters
  // it found there.
  lemma SlotsReturned(q: Sem, t: Attempt, ch: Waiter)
    requires Discipline(q) && ch !in q.low
    ensures ApplyAll(q, SlotOps(q, t, ch), AsWritten) == q
  {
    if Take(q, Background).Some? {
      AllOfTwo(q, TryAcquire(Background), Op.Release);
    } else {
      NobodyServed(q, t, ch);
    }
  }

  // acquire / tryAcquire of the client, without interference: a caller that must wait is not
  // served, so its context ends.
  method AcquireSlot(sem: PrioritySem, tryOnly: bool, ch: Waiter) returns (ok: bool)
    requires ch !in sem.low
    modifies sem
    ensures ok == Take(old(sem.State()), Background).Some?
    ensures ok ==> sem.State() == Apply(old(sem.State()), TryAcquire(Background), AsWritten).sem && sem.closed == old(sem.closed)
    ensures !ok ==> sem.State() == old(sem.State()) && sem.closed == old(sem.closed)
  {
    if tryOnly {
      ok := sem.TryAcquireAt(Background);
    } else {
      ghost var before := sem.low;
      var queued := sem.AcquireOrEnqueue(Background, ch);
      if queued {
        WithoutSplit(before, [ch], ch);
        assert Without([ch], ch) == [] && before + [] == before;
        sem.AcquireCancelled(Background, ch);
      }
      ok := !queued;
    }
  }

  // exec from ensureLoaded on: the exit decides what is recorded.
  method Request(cb: CircuitBreaker, t: Attempt, finish: int) returns (exit: Exit)
    modifies cb
    ensures exit == ExitOf(true, t)
    ensures cb.Value() == match RecordOf(exit, finish) case Some(e) => Next(old(cb.Value()), e) case None => old(cb.Value())
  {
    if t.load.Some? {
      cb.RecordFailureIfServer(t.load.value, finish);
      return LoadFailed(t.load.value);
    }
    if !t.marshalOk {
      return MarshalFailed;
    }
    if t.request.Some? {
      cb.RecordFailureIfServer(t.request.value, finish);
      return RequestFailed(t.request.value);
    }
    if t.empty {
      cb.RecordFailure(finish);
      return EmptyResponse;
    }
    cb.RecordSuccess();
    return Answered;
  }

  // exec without interference: None when the breaker refuses, and then the semaphore is not
  // touched; otherwise the two steps of the call, and the sections that give every slot back.
  method Exec(cb: CircuitBreaker, sem: PrioritySem, t: Attempt, ch: Waiter, begin: int, finish: int) returns (exit: Option<Exit>)
    requires ch !in sem.low
    modifies cb, sem
    ensures exit == if Admits(old(cb.Value()), begin)
                    then Some(ExitOf(Take(old(sem.State()), Background).Some?, t)) else None
    ensures sem.State() == if exit.Some? then ApplyAll(old(sem.State()), SlotOps(old(sem.State()), t, ch), AsWritten)
                           else old(sem.State())
    ensures Discipline(old(sem.State())) ==> sem.State() == old(sem.State()) && sem.closed == old(sem.closed)
    ensures var c := Step(Client(old(cb.Value()), 0), Begin(begin));
            cb.Value() == if exit.Some? then Step(c, Finish(exit.value, finish)).cb else c.cb
  {
    ghost var q := sem.State();
    var ok := cb.Check(begin);
    if !ok {
      return None;
    }
    var acquired := AcquireSlot(sem, t.tryOnly, ch);
    if !acquired {
      NobodyServed(q, t, ch);
      exit := Some(if t.tryOnly then Busy else AcquireCancelled);
      return;
    }
    var e := Request(cb, t, finish);
    exit := Some(e);
    AllOfTwo(q, TryAcquire(Background), Op.Release);
    sem.Release();
  }

  // What an exit does to the breaker: an answered call closes and resets it; a server error and an
  // empty response count as one more failure, and the third opens it for its window; every other
  // exit leaves it alone.
  lemma ExitsExactly(c: Client, exit: Exit, now: int)
    requires c.inFlight > 0
    ensures var u, b := Step(c, Finish(exit, now)).cb, c.cb;
            match exit
            case Answered => u == Breaker(Closed, 0, b.openUntil, 2)
            case LoadFailed(server) => if server then CountsFailure(b, u, now) else u == b
            case RequestFailed(server) => if server then CountsFailure(b, u, now) else u == b
            case EmptyResponse => CountsFailure(b, u, now)
            case _ => u == b
    ensures Step(c, Finish(exit, now)).inFlight == c.inFlight - 1
  {
  }

  predicate CountsFailure(b: Breaker, u: Breaker, now: int) {
    && u.failCount == b.failCount + 1
    && (u.failCount < 3 ==> u.state == b.state && u.openUntil == b.openUntil && u.openDur == b.openDur)
    && (u.failCount >= 3 ==> u.state == Open && u.openUntil == now + b.openDur && u.openDur == Min(2 * b.openDur, 10))
  }

  // Which exit a call takes: the first thing that goes wrong, in the order of the source.
  lemma ExitExactly(acquired: bool, t: Attempt)
    ensures var e := ExitOf(acquired, t);
            && (e == Busy <==> !acquired && t.tryOnly) && (e == AcquireCancelled <==> !acquired && !t.tryOnly)
            && (e == Answered <==> acquired && t.load == None && t.marshalOk && t.request == None && !t.empty)
            && (e == EmptyResponse <==> acquired && t.load == None && t.marshalOk && t.request == None && t.empty)
            && (e == MarshalFailed <==> acquired && t.load == None && !t.marshalOk)
            && (e.LoadFailed? <==> acquired && t.load.Some?) && (e.LoadFailed? ==> Some(e.server) == t.load)
            && (e.RequestFailed? ==> Some(e.server) == t.request)
  {
  }
}
