/**
  The counting semaphore with two FIFO waiter queues and reservations
  (engine/priority_sem.go).

  `Sem` is the value of the semaphore's fields, `Apply` what each critical section does to
  them, and the class `PrioritySem` is the object itself, whose methods are proved against
  `Apply`.  A waiter is the identity of the channel it blocks on.
 */
module PrioritySemaphore {
  import opened Wrappers

  type Waiter = nat

  datatype Priority = Background | User

  datatype Sem = Sem(avail: nat, reserved: nat, cap: nat, high: seq<Waiter>, low: seq<Waiter>) {
    function Queue(pri: Priority): seq<Waiter> {
      if pri.User? then high else low
    }

    function WithQueue(pri: Priority, q: seq<Waiter>): Sem {
      if pri.User? then this.(high := q) else this.(low := q)
    }
  }

  // The source's CancelReservation frees the slot twice; SingleIncrement is what its comment
  // describes.
  datatype Form = AsWritten | SingleIncrement

  // The critical sections.  Acquire stands for the section that takes a slot or enqueues `w`,
  // Abandon for the one that removes `w` after the context is done.
  datatype Op =
    | TryAcquire(pri: Priority)
    | Acquire(pri: Priority, w: Waiter)
    | Abandon(pri: Priority, w: Waiter)
    | Release
    | ReleaseReserved
    | CancelReservation
    | Nop

  // `took`: the caller left with a slot.  `woken`: the channel that was closed.
  // `removed`: the waiter was still queued.
  datatype Effect = Effect(sem: Sem, took: bool, woken: Option<Waiter>, removed: bool)

  function NewSem(slots: int): Sem {
    var n := if slots <= 0 then 1 else slots;
    Sem(n, 0, n, [], [])
  }

  // The fast path shared by TryAcquireAt and Acquire.
  function Take(s: Sem, pri: Priority): Option<Sem> {
    if pri.User? && s.reserved > 0 then Some(s.(reserved := s.reserved - 1))
    else if s.avail > 0 && (pri.User? || s.high == []) then Some(s.(avail := s.avail - 1))
    else None
  }

  function Dispatch(s: Sem): Effect {
    if s.high != [] then Effect(s.(high := s.high[1..]), false, Some(s.high[0]), false)
    else if s.low != [] then Effect(s.(low := s.low[1..]), false, Some(s.low[0]), false)
    else Effect(s.(avail := s.avail + 1), false, None, false)
  }

  // The queue without the first occurrence of w.
  function Without(q: seq<Waiter>, w: Waiter): (r: seq<Waiter>)
    ensures w !in q ==> r == q
    ensures |r| <= |q|
  {
    if q == [] then []
    else if q[0] == w then q[1..]
    else [q[0]] + Without(q[1..], w)
  }

  function Apply(s: Sem, op: Op, form: Form): Effect {
    match op
    case TryAcquire(pri) =>
      (match Take(s, pri)
       case Some(t) => Effect(t, true, None, false)
       case None => Effect(s, false, None, false))
    case Acquire(pri, w) =>
      (match Take(s, pri)
       case Some(t) => Effect(t, true, None, false)
       case None => Effect(s.WithQueue(pri, s.Queue(pri) + [w]), false, None, false))
    case Abandon(pri, w) =>
      Effect(s.WithQueue(pri, Without(s.Queue(pri), w)), false, None, w in s.Queue(pri))
    case Release => Dispatch(s)
    case ReleaseReserved =>
      if s.high != [] then Effect(s.(high := s.high[1..]), false, Some(s.high[0]), false)
      else Effect(s.(reserved := s.reserved + 1), false, None, false)
    case CancelReservation =>
      if s.reserved == 0 then Effect(s, false, None, false)
      else
        var t := s.(reserved := s.reserved - 1);
        Dispatch(if form.AsWritten? then t.(avail := t.avail + 1) else t)
    case Nop => Effect(s, false, None, false)
  }

  // ---------------------------------------------------------------------------
  // Conservation of one critical section
  // ---------------------------------------------------------------------------

  function B(b: bool): nat { if b then 1 else 0 }

  function Free(s: Sem): nat { s.avail + s.reserved }

  // Slots that left the semaphore in this section.
  function HandedOut(e: Effect): nat { B(e.took) + B(e.woken.Some?) }

  // Slots the caller gave back in this section.
  predicate GivesBack(op: Op) { op.Release? || op.ReleaseReserved? }

  // Slots that exist only because CancelReservation counted one twice.
  function Surplus(s: Sem, op: Op, form: Form): nat {
    B(form.AsWritten? && op.CancelReservation? && s.reserved > 0)
  }

  // Every section keeps the slots balanced, up to exactly the surplus.
  lemma SectionBalance(s: Sem, op: Op, form: Form)
    ensures var e := Apply(s, op, form);
            Free(e.sem) + HandedOut(e) == Free(s) + B(GivesBack(op)) + Surplus(s, op, form)
    ensures Apply(s, op, form).sem.cap == s.cap
  {
  }

  // Only ReleaseReserved parks a slot, and an acquiring user takes a parked one if there is one.
  lemma SectionReserved(s: Sem, op: Op, form: Form)
    ensures var e := Apply(s, op, form);
            && e.sem.reserved <= s.reserved + B(op.ReleaseReserved?)
            && (s.reserved > 0 && (op == TryAcquire(User) || (op.Acquire? && op.pri.User?)) ==>
                  e.took && e.sem.reserved == s.reserved - 1)
  {
  }

  // What a caller finds: a user takes a free or a reserved slot, a background caller a free one
  // while no user waits.
  predicate ServesNow(s: Sem, pri: Priority) {
    match pri
    case User => s.avail > 0 || s.reserved > 0
    case Background => s.avail > 0 && s.high == []
  }

  // A caller leaves with a slot exactly when there is one for it; otherwise it queues up, or goes
  // away without a trace.
  lemma ServedExactly(s: Sem, pri: Priority, w: Waiter, form: Form)
    ensures Apply(s, TryAcquire(pri), form).took == Apply(s, Acquire(pri, w), form).took == ServesNow(s, pri)
    ensures var tried, asked := Apply(s, TryAcquire(pri), form).sem, Apply(s, Acquire(pri, w), form).sem;
            if ServesNow(s, pri) then
              && tried == asked && Free(tried) == Free(s) - 1 && tried.high == s.high && tried.low == s.low
              && (tried.reserved < s.reserved <==> pri.User? && s.reserved > 0)
            else
              && tried == s && asked.Queue(pri) == s.Queue(pri) + [w]
              && asked.avail == s.avail && asked.reserved == s.reserved
  {
  }

  // ---------------------------------------------------------------------------
  // Waiter discipline
  // ---------------------------------------------------------------------------

  // No wake-up is lost: a slot nobody owns means nobody who may take it is waiting.
  predicate Discipline(s: Sem) {
    && (s.avail > 0 ==> s.high == [] && s.low == [])
    && (s.reserved > 0 ==> s.high == [])
  }

  // Each section keeps the discipline; the only exception is the source's CancelReservation,
  // exactly when it runs with a reservation and two or more background waiters.
  lemma DisciplineKeptExactly(s: Sem, op: Op, form: Form)
    requires Discipline(s)
    ensures Discipline(Apply(s, op, form).sem)
       <==> !(form.AsWritten? && op.CancelReservation? && s.reserved > 0 && |s.low| >= 2)
  {
  }

  function ApplyAll(s: Sem, ops: seq<Op>, form: Form): Sem
    decreases |ops|
  {
    if ops == [] then s else ApplyAll(Apply(s, ops[0], form).sem, ops[1..], form)
  }

  // Over any sequence of sections of the intended form.
  lemma {:induction false} DisciplineAlways(s: Sem, ops: seq<Op>)
    requires Discipline(s)
    ensures Discipline(ApplyAll(s, ops, SingleIncrement))
    decreases |ops|
  {
    if ops != [] {
      DisciplineKeptExactly(s, ops[0], SingleIncrement);
      DisciplineAlways(Apply(s, ops[0], SingleIncrement).sem, ops[1..]);
    }
  }

  // Priority: a background waiter is woken only when no user waits, it is the oldest one, and
  // a background caller never takes a reserved slot nor overtakes a waiting user.
  lemma PriorityRespected(s: Sem, op: Op, form: Form)
    ensures var e := Apply(s, op, form);
            && (e.woken.Some? && s.high == [] ==> s.low != [] && e.woken.value == s.low[0])
            && (e.woken.Some? && s.high != [] ==> e.woken.value == s.high[0])
            && (e.took && (op.TryAcquire? || op.Acquire?) && op.pri.Background? ==>
                  e.sem.reserved == s.reserved && s.high == [])
            && (op.CancelReservation? || e.sem.reserved >= s.reserved || op.pri.User?)
  {
  }

  // ---------------------------------------------------------------------------
  // FIFO service over whole runs
  // ---------------------------------------------------------------------------

  // `a` can be obtained from `b` by deleting elements.
  ghost predicate Subsequence(a: seq<Waiter>, b: seq<Waiter>) {
    if a == [] then true
    else if b == [] then false
    else (a[0] == b[0] && Subsequence(a[1..], b[1..])) || Subsequence(a, b[1..])
  }

  // The waiters of one class woken, and those enqueued, by one section.
  function WokenIn(s: Sem, op: Op, form: Form, pri: Priority): seq<Waiter> {
    var e := Apply(s, op, form);
    if e.woken.Some? && (s.high != []) == pri.User? then [e.woken.value] else []
  }

  function JoinedIn(s: Sem, op: Op, form: Form, pri: Priority): seq<Waiter> {
    if op.Acquire? && op.pri == pri && !Apply(s, op, form).took then [op.w] else []
  }

  // The same over a run, in order.
  function Served(s: Sem, ops: seq<Op>, form: Form, pri: Priority): seq<Waiter>
    decreases |ops|
  {
    if ops == [] then []
    else WokenIn(s, ops[0], form, pri) + Served(Apply(s, ops[0], form).sem, ops[1..], form, pri)
  }

  function Arrived(s: Sem, ops: seq<Op>, form: Form, pri: Priority): seq<Waiter>
    decreases |ops|
  {
    if ops == [] then []
    else JoinedIn(s, ops[0], form, pri) + Arrived(Apply(s, ops[0], form).sem, ops[1..], form, pri)
  }

  lemma {:induction false} SubsequenceRefl(a: seq<Waiter>)
    ensures Subsequence(a, a)
  {
    if a != [] { SubsequenceRefl(a[1..]); }
  }

  lemma {:induction false} SubsequencePrefix(p: seq<Waiter>, a: seq<Waiter>, b: seq<Waiter>)
    requires Subsequence(a, b)
    ensures Subsequence(p + a, p + b)
  {
    if p == [] {
      assert p + a == a && p + b == b;
    } else {
      SubsequencePrefix(p[1..], a, b);
      assert (p + a)[1..] == p[1..] + a && (p + b)[1..] == p[1..] + b;
    }
  }

  lemma {:induction false} SubsequenceTrans(a: seq<Waiter>, b: seq<Waiter>, c: seq<Waiter>)
    requires Subsequence(a, b) && Subsequence(b, c)
    ensures Subsequence(a, c)
    decreases |b| + |c|
  {
    if a == [] {
    } else if b[0] == c[0] && Subsequence(b[1..], c[1..]) {
      if a[0] == b[0] && Subsequence(a[1..], b[1..]) {
        SubsequenceTrans(a[1..], b[1..], c[1..]);
      } else {
        SubsequenceTrans(a, b[1..], c[1..]);
      }
    } else {
      SubsequenceTrans(a, b, c[1..]);
    }
  }

  lemma {:induction false} WithoutThenMore(q: seq<Waiter>, w: Waiter, t: seq<Waiter>)
    ensures Subsequence(Without(q, w) + t, q + t)
  {
    if q == [] {
      SubsequenceRefl(t);
      assert Without(q, w) + t == t && q + t == t;
    } else if q[0] == w {
      SubsequenceRefl(q[1..] + t);
      assert (q + t)[1..] == q[1..] + t;
    } else {
      var r := Without(q[1..], w);
      WithoutThenMore(q[1..], w, t);
      SubsequencePrefix([q[0]], r + t, q[1..] + t);
      assert [q[0]] + (r + t) == ([q[0]] + r) + t;
      assert [q[0]] + (q[1..] + t) == q + t;
    }
  }

  // Unless a waiter abandons, one section moves the front of the queue to the woken ones and
  // a caller that must wait to its end.
  lemma OrderOnce(s: Sem, op: Op, form: Form, pri: Priority)
    requires !(op.Abandon? && op.pri == pri)
    ensures WokenIn(s, op, form, pri) + Apply(s, op, form).sem.Queue(pri) == s.Queue(pri) + JoinedIn(s, op, form, pri)
  {
  }

  lemma ServedInOrderOnce(s: Sem, op: Op, form: Form, pri: Priority, t: seq<Waiter>)
    ensures Subsequence(WokenIn(s, op, form, pri) + (Apply(s, op, form).sem.Queue(pri) + t),
                        s.Queue(pri) + (JoinedIn(s, op, form, pri) + t))
  {
    var q, q' := s.Queue(pri), Apply(s, op, form).sem.Queue(pri);
    var woken, joined := WokenIn(s, op, form, pri), JoinedIn(s, op, form, pri);
    if op.Abandon? && op.pri == pri {
      WithoutThenMore(q, op.w, t);
      assert woken + (q' + t) == q' + t;
      assert joined + t == t;
    } else {
      OrderOnce(s, op, form, pri);
      ConcatAssoc(woken, q', t);
      ConcatAssoc(q, joined, t);
      SubsequenceRefl(q + (joined + t));
    }
  }

  // In every run, those served and those still queued appear in exactly the order in which
  // they queued up; the missing ones are those that abandoned.
  lemma {:induction false} ServedInOrder(s: Sem, ops: seq<Op>, form: Form, pri: Priority)
    ensures Subsequence(Served(s, ops, form, pri) + ApplyAll(s, ops, form).Queue(pri),
                        s.Queue(pri) + Arrived(s, ops, form, pri))
    decreases |ops|
  {
    if ops == [] {
      SubsequenceRefl(s.Queue(pri));
      assert [] + s.Queue(pri) == s.Queue(pri) && s.Queue(pri) + [] == s.Queue(pri);
    } else {
      var next := Apply(s, ops[0], form).sem;
      var woken, joined := WokenIn(s, ops[0], form, pri), JoinedIn(s, ops[0], form, pri);
      var served, arrived := Served(next, ops[1..], form, pri), Arrived(next, ops[1..], form, pri);
      var final := ApplyAll(s, ops, form).Queue(pri);
      ServedInOrder(next, ops[1..], form, pri);
      SubsequencePrefix(woken, served + final, next.Queue(pri) + arrived);
      ServedInOrderOnce(s, ops[0], form, pri, arrived);
      SubsequenceTrans(woken + (served + final), woken + (next.Queue(pri) + arrived),
                       s.Queue(pri) + (joined + arrived));
      ConcatAssoc(woken, served, final);
    }
  }

  // ---------------------------------------------------------------------------
  // The object
  // ---------------------------------------------------------------------------

  lemma {:induction false} WithoutSplit(a: seq<Waiter>, b: seq<Waiter>, w: Waiter)
    requires w !in a
    ensures Without(a + b, w) == a + Without(b, w)
  {
    if a == [] {
      assert a + b == b;
    } else {
      WithoutSplit(a[1..], b, w);
      assert a[0] in a && (a + b)[0] == a[0] && (a + b)[1..] == a[1..] + b;
      ConcatAssoc([a[0]], a[1..], Without(b, w));
      assert [a[0]] + a[1..] == a;
    }
  }

  // removeWaiterCh
  method RemoveWaiter(q: seq<Waiter>, w: Waiter) returns (removed: bool, r: seq<Waiter>)
    ensures removed <==> w in q
    ensures r == Without(q, w)
  {
    for i := 0 to |q|
      invariant w !in q[..i]
    {
      if q[i] == w {
        WithoutSplit(q[..i], q[i..], w);
        assert q == q[..i] + q[i..];
        return true, q[..i] + q[i + 1..];
      }
    }
    return false, q;
  }

  class PrioritySem {
    var avail: nat
    var reserved: nat
    var cap: nat
    var high: seq<Waiter>
    var low: seq<Waiter>
    var closed: set<Waiter>  // the channels close() was called on

    function State(): Sem
      reads this
    {
      Sem(avail, reserved, cap, high, low)
    }

    constructor (slots: int)
      ensures State() == NewSem(slots) && closed == {}
      ensures avail == cap == (if slots > 0 then slots else 1) && reserved == 0 && high == low == []
    {
      var n := slots;
      if slots <= 0 { n := 1; }
      avail, reserved, cap := n, 0, n;
      high, low, closed := [], [], {};
    }

    // The new state and the set of closed channels are those of the section `op`.
    twostate predicate Did(op: Op)
      reads this
    {
      var e := Apply(old(State()), op, AsWritten);
      && State() == e.sem
      && closed == old(closed) + (if e.woken.Some? then {e.woken.value} else {})
    }

    method TryAcquireAt(pri: Priority) returns (ok: bool)
      modifies this
      ensures Did(TryAcquire(pri))
      ensures ok == Apply(old(State()), TryAcquire(pri), AsWritten).took
      ensures ok == ServesNow(old(State()), pri)
    {
      if pri.User? {
        if reserved > 0 {
          reserved := reserved - 1;
          return true;
        }
        if avail > 0 {
          avail := avail - 1;
          return true;
        }
        return false;
      }
      if avail > 0 && |high| == 0 {
        avail := avail - 1;
        return true;
      }
      return false;
    }

    // Acquire up to the point where it blocks: `queued` says the caller waits on `ch`.
    method AcquireOrEnqueue(pri: Priority, ch: Waiter) returns (queued: bool)
      modifies this
      ensures Did(Acquire(pri, ch))
      ensures queued == !Apply(old(State()), Acquire(pri, ch), AsWritten).took
      ensures queued == !ServesNow(old(State()), pri)
      ensures queued ==> State().Queue(pri) == old(State()).Queue(pri) + [ch]
    {
      if pri.User? && reserved > 0 {
        reserved := reserved - 1;
        return false;
      }
      if avail > 0 {
        if pri.User? || |high| == 0 {
          avail := avail - 1;
          return false;
        }
      }
      if pri.User? {
        high := high + [ch];
      } else {
        low := low + [ch];
      }
      return true;
    }

    // Acquire after its context is done.  When the channel was closed in the meantime the slot
    // is given back, so the caller never leaves with one.
    method AcquireCancelled(pri: Priority, ch: Waiter)
      modifies this
      ensures ch in old(State()).Queue(pri) ==> Did(Abandon(pri, ch))
      ensures ch !in old(State()).Queue(pri) ==> Did(Op.Release)
    {
      var removed: bool;
      if pri.User? {
        removed, high := RemoveWaiter(high, ch);
      } else {
        removed, low := RemoveWaiter(low, ch);
      }
      if !removed {
        Release();
      }
    }

    method Release()
      modifies this
      ensures Did(Op.Release)
    {
      DispatchSlot();
    }

    method ReleaseReserved()
      modifies this
      ensures Did(Op.ReleaseReserved)
    {
      if |high| > 0 {
        var ch := high[0];
        high := high[1..];
        closed := closed + {ch};
        return;
      }
      reserved := reserved + 1;
    }

    method CancelReservation()
      modifies this
      ensures Did(Op.CancelReservation)
    {
      if reserved <= 0 {
        return;
      }
      reserved := reserved - 1;
      avail := avail + 1;
      DispatchSlot();
    }

    method DispatchSlot()
      modifies this
      ensures Did(Op.Release)
    {
      if |high| > 0 {
        var ch := high[0];
        high := high[1..];
        closed := closed + {ch};
        return;
      }
      if |low| > 0 {
        var ch := low[0];
        low := low[1..];
        closed := closed + {ch};
        return;
      }
      avail := avail + 1;
    }

    method SlotsInUse() returns (used: int, total: nat)
      ensures used + Free(State()) == cap && total == cap
    {
      return cap - avail - reserved, cap;
    }
  }
}
