/**
  pipelines/retry_queue.go: a queue of failed tasks that one goroutine drains periodically
  while other goroutines enqueue.  The drain takes the whole queue, runs each task without the
  lock, and puts the ones to retry back in front.
 */
module RetryQueueModel {
  import R = Runs
  import opened Sums
  import opened Wrappers

  // `id` is the position in enqueue order.
  datatype Item = Item(id: nat, retries: nat)

  datatype Fate = Succeeded | Exhausted | Overflowed

  datatype Gone = Gone(x: Item, fate: Fate)

  // A drain in progress: what is left of its batch, what it will put back, the size of the
  // batch and the number of Enqueue calls since it started.
  datatype Drain = Drain(todo: seq<Item>, requeue: seq<Item>, size: nat, meanwhile: nat)

  datatype State = State(
    maxItems: nat,
    maxRetries: nat,
    items: seq<Item>,
    drain: Option<Drain>,
    next: nat,
    gone: seq<Gone>,
    tried: seq<nat>)    // log of task executions, by id

  // The bounds after NewRetryQueue has applied its defaults
  function Init(maxItems: int, maxRetries: int): State {
    State(if maxItems <= 0 then 50 else maxItems, if maxRetries <= 0 then 3 else maxRetries, [], None, 0, [], [])
  }

  datatype Act = Enqueue | Start | Try(ok: bool) | Merge

  predicate Enabled(s: State, a: Act) {
    match a
    case Enqueue => true
    case Start => s.drain.None? && s.items != []
    case Try(_) => s.drain.Some? && s.drain.value.todo != []
    case Merge => s.drain.Some? && s.drain.value.todo == []
  }

  // At the bound, Enqueue drops the oldest item of the queue.
  predicate Full(s: State) { |s.items| >= s.maxItems && s.items != [] }

  function Kept(s: State): seq<Item> { if Full(s) then s.items[1..] else s.items }

  function Step(s: State, a: Act): State
    requires Enabled(s, a)
  {
    match a
    case Enqueue =>
      s.(items := Kept(s) + [Item(s.next, 0)],
         gone := if Full(s) then s.gone + [Gone(s.items[0], Overflowed)] else s.gone,
         next := s.next + 1,
         drain := if s.drain.Some? then Some(s.drain.value.(meanwhile := s.drain.value.meanwhile + 1)) else None)
    case Start =>
      s.(items := [], drain := Some(Drain(s.items, [], |s.items|, 0)))
    case Try(ok) =>
      var d := s.drain.value;
      var x := d.todo[0];
      var y := x.(retries := x.retries + 1);
      var t := s.(tried := s.tried + [x.id]);
      if ok then t.(drain := Some(d.(todo := d.todo[1..])), gone := s.gone + [Gone(x, Succeeded)])
      else if y.retries >= s.maxRetries then t.(drain := Some(d.(todo := d.todo[1..])), gone := s.gone + [Gone(y, Exhausted)])
      else t.(drain := Some(d.(todo := d.todo[1..], requeue := d.requeue + [y])))
    case Merge =>
      s.(items := s.drain.value.requeue + s.items, drain := None)
  }

  function Steps(): (State, Act) -> Option<State> {
    (s: State, a: Act) => if Enabled(s, a) then Some(Step(s, a)) else None
  }

  predicate Runs(s: State, acts: seq<Act>) { R.Run(Steps(), s, acts).Some? }

  function End(s: State, acts: seq<Act>): State
    requires Runs(s, acts)
  {
    R.Run(Steps(), s, acts).value
  }

  ghost predicate Reachable(maxItems: int, maxRetries: int, s: State) {
    exists acts: seq<Act> :: Runs(Init(maxItems, maxRetries), acts) && End(Init(maxItems, maxRetries), acts) == s
  }

  lemma ReachesFurther(maxItems: int, maxRetries: int, s: State, acts: seq<Act>)
    requires Reachable(maxItems, maxRetries, s) && Runs(s, acts)
    ensures Reachable(maxItems, maxRetries, End(s, acts))
  {
    var a: seq<Act> :| Runs(Init(maxItems, maxRetries), a) && End(Init(maxItems, maxRetries), a) == s;
    R.RunConcat(Steps(), Init(maxItems, maxRetries), a, acts);
    assert Runs(Init(maxItems, maxRetries), a + acts);
  }

  // ---------------------------------------------------------------------------
  // Order and bounds
  // ---------------------------------------------------------------------------

  // Everything waiting, oldest first: a merge only removes the boundary.
  function Live(s: State): seq<Item> {
    if s.drain.Some? then s.drain.value.requeue + s.drain.value.todo + s.items else s.items
  }

  // In enqueue order, with a retry left each
  predicate Waiting(xs: seq<Item>, next: nat, maxRetries: nat) {
    && (forall i, j :: 0 <= i < j < |xs| ==> xs[i].id < xs[j].id)
    && (forall i :: 0 <= i < |xs| ==> xs[i].id < next && xs[i].retries < maxRetries)
  }

  predicate DrainBounds(s: State) {
    s.drain.Some? ==>
      var d := s.drain.value;
      |d.requeue| + |d.todo| <= d.size && |s.items| <= d.meanwhile && |s.items| <= s.maxItems
  }

  predicate Inv(s: State) {
    s.maxItems > 0 && s.maxRetries > 0 && Waiting(Live(s), s.next, s.maxRetries) && DrainBounds(s)
  }

  lemma WaitingWithout(a: seq<Item>, x: Item, b: seq<Item>, next: nat, max: nat)
    requires Waiting(a + [x] + b, next, max)
    ensures Waiting(a + b, next, max)
  {
    var xs, ys := a + [x] + b, a + b;
    assert forall i :: 0 <= i < |ys| ==> ys[i] == xs[if i < |a| then i else i + 1];
  }

  lemma WaitingRetried(a: seq<Item>, x: Item, b: seq<Item>, next: nat, max: nat, y: Item)
    requires Waiting(a + [x] + b, next, max) && y.id == x.id && y.retries < max
    ensures Waiting(a + [y] + b, next, max)
  {
    var xs, ys := a + [x] + b, a + [y] + b;
    assert forall i :: 0 <= i < |ys| ==> ys[i].id == xs[i].id && (i != |a| ==> ys[i] == xs[i]);
    assert xs[|a|] == x && ys[|a|] == y;
  }

  lemma WaitingMore(a: seq<Item>, next: nat, max: nat)
    requires Waiting(a, next, max) && max > 0
    ensures Waiting(a + [Item(next, 0)], next + 1, max)
  {
  }

  // The part of the line that a drain holds
  function Front(s: State): seq<Item> {
    if s.drain.Some? then s.drain.value.requeue + s.drain.value.todo else []
  }

  lemma EnqueueLive(s: State)
    ensures Live(s) == Front(s) + s.items
    ensures Full(s) ==> Live(s) == Front(s) + [s.items[0]] + Kept(s)
    ensures Live(Step(s, Enqueue)) == Front(s) + Kept(s) + [Item(s.next, 0)]
  {
    assert Full(s) ==> s.items == [s.items[0]] + s.items[1..];
  }

  lemma EnqueueKeeps(s: State)
    requires Inv(s)
    ensures Inv(Step(s, Enqueue))
  {
    EnqueueLive(s);
    if Full(s) {
      WaitingWithout(Front(s), s.items[0], Kept(s), s.next, s.maxRetries);
    }
    WaitingMore(Front(s) + Kept(s), s.next, s.maxRetries);
    assert DrainBounds(Step(s, Enqueue));
  }

  lemma TryKeeps(s: State, ok: bool)
    requires Enabled(s, Try(ok)) && Inv(s)
    ensures Inv(Step(s, Try(ok)))
  {
    var t, d := Step(s, Try(ok)), s.drain.value;
    var x, front, back := d.todo[0], d.requeue, d.todo[1..] + s.items;
    assert Live(s) == front + [x] + back;
    if t.drain.value.requeue == front {
      WaitingWithout(front, x, back, s.next, s.maxRetries);
      assert Live(t) == front + back;
    } else {
      var y := x.(retries := x.retries + 1);
      WaitingRetried(front, x, back, s.next, s.maxRetries, y);
      assert Live(t) == front + [y] + back;
    }
  }

  lemma StepKeeps(s: State, a: Act)
    requires Enabled(s, a) && Inv(s)
    ensures Inv(Step(s, a))
  {
    match a
    case Enqueue => EnqueueKeeps(s);
    case Start => assert Live(Step(s, a)) == s.items;
    case Try(ok) => TryKeeps(s, ok);
    case Merge => assert Live(Step(s, a)) == Live(s);
  }

  lemma {:induction false} RunKeeps(s: State, acts: seq<Act>)
    requires Runs(s, acts) && Inv(s)
    ensures Inv(End(s, acts))
    decreases |acts|
  {
    if acts != [] {
      StepKeeps(s, acts[0]);
      RunKeeps(Step(s, acts[0]), acts[1..]);
    }
  }

  // Whatever the interleaving, everything waiting is in enqueue order with attempts left, and
  // while a drain runs the queue itself stays within maxItems.
  lemma OrderKept(maxItems: int, maxRetries: int, s: State)
    requires Reachable(maxItems, maxRetries, s)
    ensures Waiting(Live(s), s.next, s.maxRetries) && Inv(s)
    ensures s.drain.Some? ==> |s.items| <= s.maxItems
  {
    var acts: seq<Act> :| Runs(Init(maxItems, maxRetries), acts) && End(Init(maxItems, maxRetries), acts) == s;
    RunKeeps(Init(maxItems, maxRetries), acts);
  }

  // After a merge the queue is at most the batch and what was enqueued meanwhile.
  lemma MergeBound(maxItems: int, maxRetries: int, s: State)
    requires Reachable(maxItems, maxRetries, s) && Enabled(s, Merge)
    ensures var d := s.drain.value; var n := |Step(s, Merge).items|;
            n <= d.size + d.meanwhile && n <= d.size + s.maxItems
  {
    OrderKept(maxItems, maxRetries, s);
  }

  // Enqueue never lets a queue grow past the bound.
  lemma EnqueueBound(s: State)
    requires s.maxItems > 0
    ensures |Step(s, Enqueue).items| <= if |s.items| <= s.maxItems then s.maxItems else |s.items|
  {
  }

  // ---------------------------------------------------------------------------
  // Attempts
  // ---------------------------------------------------------------------------

  function ItemIs(id: nat): Item -> nat { (x: Item) => if x.id == id then 1 else 0 }

  function GoneIs(id: nat): Gone -> nat { (g: Gone) => if g.x.id == id then 1 else 0 }

  // Attempts recorded in the item, and one more for the attempt that succeeded
  function ItemTries(id: nat): Item -> nat { (x: Item) => if x.id == id then x.retries else 0 }

  function GoneTries(id: nat): Gone -> nat {
    (g: Gone) => if g.x.id == id then g.x.retries + (if g.fate.Succeeded? then 1 else 0) else 0
  }

  predicate Ledger(s: State, id: nat) {
    && Sum(Live(s), ItemIs(id)) + Sum(s.gone, GoneIs(id)) == (if id < s.next then 1 else 0)
    && Times(s.tried, id) == Sum(Live(s), ItemTries(id)) + Sum(s.gone, GoneTries(id))
  }

  // Taking x out of the line, or replacing it
  lemma SumWithout(a: seq<Item>, x: Item, b: seq<Item>, f: Item -> nat)
    ensures Sum(a + [x] + b, f) == Sum(a + b, f) + f(x)
  {
    SumConcat(a + [x], b, f);
    SumConcat(a, b, f);
    SumAppend(a, f, x);
  }

  lemma {:induction false} SumConcat(a: seq<Item>, b: seq<Item>, f: Item -> nat)
    ensures Sum(a + b, f) == Sum(a, f) + Sum(b, f)
    decreases |b|
  {
    if b == [] {
      assert a + b == a;
    } else {
      var front, x := b[..|b| - 1], b[|b| - 1];
      SumConcat(a, front, f);
      SumAppend(a + front, f, x);
      SumAppend(front, f, x);
      assert a + b == (a + front) + [x] && b == front + [x];
    }
  }

  lemma EnqueueLine(s: State, f: Item -> nat)
    ensures Sum(Live(Step(s, Enqueue)), f)
            + (if Full(s) then f(s.items[0]) else 0)
            == Sum(Live(s), f) + f(Item(s.next, 0))
  {
    EnqueueLive(s);
    if Full(s) {
      SumWithout(Front(s), s.items[0], Kept(s), f);
    }
    SumAppend(Front(s) + Kept(s), f, Item(s.next, 0));
  }

  lemma TryLine(s: State, ok: bool, f: Item -> nat)
    requires Enabled(s, Try(ok))
    ensures var x := s.drain.value.todo[0]; var y := x.(retries := x.retries + 1);
            Sum(Live(Step(s, Try(ok))), f) + f(x)
            == Sum(Live(s), f) + if ok || y.retries >= s.maxRetries then 0 else f(y)
  {
    var t, d := Step(s, Try(ok)), s.drain.value;
    var x, front, back := d.todo[0], d.requeue, d.todo[1..] + s.items;
    var y := x.(retries := x.retries + 1);
    assert Live(s) == front + [x] + back;
    SumWithout(front, x, back, f);
    if ok || y.retries >= s.maxRetries {
      assert Live(t) == front + back;
    } else {
      SumWithout(front, y, back, f);
      assert Live(t) == front + [y] + back;
    }
  }

  lemma EnqueueLedger(s: State, id: nat)
    requires Ledger(s, id)
    ensures Ledger(Step(s, Enqueue), id)
  {
    EnqueueLine(s, ItemIs(id));
    EnqueueLine(s, ItemTries(id));
    if Full(s) {
      SumAppend(s.gone, GoneIs(id), Gone(s.items[0], Overflowed));
      SumAppend(s.gone, GoneTries(id), Gone(s.items[0], Overflowed));
    }
  }

  // What became of the task x that was tried
  function Tried(x: Item, ok: bool): Gone {
    if ok then Gone(x, Succeeded) else Gone(x.(retries := x.retries + 1), Exhausted)
  }

  lemma TryPlaces(s: State, ok: bool, id: nat)
    requires Enabled(s, Try(ok)) && Ledger(s, id)
    ensures var t := Step(s, Try(ok));
            Sum(Live(t), ItemIs(id)) + Sum(t.gone, GoneIs(id)) == if id < t.next then 1 else 0
  {
    var x := s.drain.value.todo[0];
    TryLine(s, ok, ItemIs(id));
    if ok || x.retries + 1 >= s.maxRetries {
      assert Step(s, Try(ok)).gone == s.gone + [Tried(x, ok)];
      SumAppend(s.gone, GoneIs(id), Tried(x, ok));
    } else {
      assert Step(s, Try(ok)).gone == s.gone;
    }
  }

  lemma TryTimes(s: State, ok: bool, id: nat)
    requires Enabled(s, Try(ok)) && Ledger(s, id)
    ensures var t := Step(s, Try(ok));
            Times(t.tried, id) == Sum(Live(t), ItemTries(id)) + Sum(t.gone, GoneTries(id))
  {
    var x := s.drain.value.todo[0];
    TryLine(s, ok, ItemTries(id));
    SumAppend(s.tried, Is(id), x.id);
    assert Step(s, Try(ok)).tried == s.tried + [x.id];
    if ok || x.retries + 1 >= s.maxRetries {
      assert Step(s, Try(ok)).gone == s.gone + [Tried(x, ok)];
      SumAppend(s.gone, GoneTries(id), Tried(x, ok));
    } else {
      assert Step(s, Try(ok)).gone == s.gone;
    }
  }

  lemma StepLedger(s: State, a: Act, id: nat)
    requires Enabled(s, a) && Ledger(s, id)
    ensures Ledger(Step(s, a), id)
  {
    match a
    case Enqueue => EnqueueLedger(s, id);
    case Start => assert Live(Step(s, a)) == Live(s);
    case Try(ok) =>
      TryPlaces(s, ok, id);
      TryTimes(s, ok, id);
    case Merge => assert Live(Step(s, a)) == Live(s);
  }

  // What is gone says how: given up after exactly maxRetries attempts, otherwise sooner.
  predicate Fates(s: State) {
    forall g :: g in s.gone ==>
      g.x.retries <= s.maxRetries && (g.fate.Exhausted? <==> g.x.retries == s.maxRetries)
  }

  lemma StepFates(s: State, a: Act)
    requires Enabled(s, a) && Inv(s) && Fates(s)
    ensures Fates(Step(s, a))
  {
    var t := Step(s, a);
    if a.Enqueue? && |s.items| >= s.maxItems {
      assert Live(s)[|Live(s)| - |s.items|] == s.items[0];
    } else if a.Try? {
      var d := s.drain.value;
      assert Live(s)[|d.requeue|] == d.todo[0];
    }
  }

  lemma {:induction false} RunLedger(s: State, acts: seq<Act>, id: nat)
    requires Runs(s, acts) && Inv(s) && Ledger(s, id) && Fates(s)
    ensures Ledger(End(s, acts), id) && Fates(End(s, acts))
    decreases |acts|
  {
    if acts != [] {
      StepKeeps(s, acts[0]);
      StepLedger(s, acts[0], id);
      StepFates(s, acts[0]);
      RunLedger(Step(s, acts[0]), acts[1..], id);
    }
  }

  // An enqueued task waits or is gone, once; it is tried at most maxRetries times, and exactly
  // that often when the queue gives up on it.
  lemma AttemptsBounded(maxItems: int, maxRetries: int, s: State, id: nat)
    requires Reachable(maxItems, maxRetries, s)
    ensures Sum(Live(s), ItemIs(id)) + Sum(s.gone, GoneIs(id)) == if id < s.next then 1 else 0
    ensures Times(s.tried, id) <= s.maxRetries
    ensures forall x :: x in Live(s) && x.id == id ==> Times(s.tried, id) == x.retries
    ensures forall x :: Gone(x, Exhausted) in s.gone && x.id == id ==> Times(s.tried, id) == s.maxRetries
    ensures forall x :: Gone(x, Succeeded) in s.gone && x.id == id ==> Times(s.tried, id) == x.retries + 1
  {
    OrderKept(maxItems, maxRetries, s);
    var acts: seq<Act> :| Runs(Init(maxItems, maxRetries), acts) && End(Init(maxItems, maxRetries), acts) == s;
    RunLedger(Init(maxItems, maxRetries), acts, id);
    TriesByPlace(s, id);
  }

  lemma TriesByPlace(s: State, id: nat)
    requires Inv(s) && Fates(s) && Ledger(s, id)
    ensures Times(s.tried, id) <= s.maxRetries
    ensures forall x :: x in Live(s) && x.id == id ==> Times(s.tried, id) == x.retries
    ensures forall g :: g in s.gone && g.x.id == id ==> Times(s.tried, id) == GoneTries(id)(g)
  {
    SumSupport(Live(s), ItemIs(id), ItemTries(id));
    SumSupport(s.gone, GoneIs(id), GoneTries(id));
    if Sum(Live(s), ItemIs(id)) > 0 {
      var i := SumWitness(Live(s), ItemIs(id));
    }
    if Sum(s.gone, GoneIs(id)) > 0 {
      var i := SumWitness(s.gone, GoneIs(id));
    }
    forall x | x in Live(s) && x.id == id ensures Times(s.tried, id) == x.retries {
      var i :| 0 <= i < |Live(s)| && Live(s)[i] == x;
      SumAtLeast(Live(s), ItemIs(id), i);
    }
    forall g | g in s.gone && g.x.id == id ensures Times(s.tried, id) == GoneTries(id)(g) {
      var i :| 0 <= i < |s.gone| && s.gone[i] == g;
      SumAtLeast(s.gone, GoneIs(id), i);
    }
  }

  // ---------------------------------------------------------------------------
  // Is the queue bounded by maxItems?
  // ---------------------------------------------------------------------------

  // k calls of Enqueue between two drains
  lemma {:induction false} EnqueueMany(s: State, k: nat) returns (acts: seq<Act>)
    requires s.drain.None? && s.maxItems > 0
    ensures Runs(s, acts)
    ensures var t := End(s, acts);
            && t.drain.None? && t.maxItems == s.maxItems && t.maxRetries == s.maxRetries
            && |t.items| == (if |s.items| >= s.maxItems then |s.items| else if |s.items| + k <= s.maxItems then |s.items| + k else s.maxItems)
            && forall i :: 0 <= i < |t.items| && i >= |t.items| - k ==> t.items[i].retries == 0
    decreases k
  {
    if k == 0 {
      acts := [];
    } else {
      var a := EnqueueMany(s, k - 1);
      acts := a + [Enqueue];
      assert [Enqueue][1..] == [];
      R.RunConcat(Steps(), s, a, [Enqueue]);
    }
  }

  // The rest of a drain in which every task fails
  lemma {:induction false} FailAll(s: State) returns (acts: seq<Act>)
    requires s.drain.Some? && forall x :: x in s.drain.value.todo ==> x.retries + 1 < s.maxRetries
    ensures Runs(s, acts)
    ensures var t := End(s, acts);
            && t.maxItems == s.maxItems && t.maxRetries == s.maxRetries && t.items == s.items
            && t.drain.Some? && t.drain.value.todo == []
            && |t.drain.value.requeue| == |s.drain.value.requeue| + |s.drain.value.todo|
    decreases |s.drain.value.todo|
  {
    if s.drain.value.todo == [] {
      acts := [];
    } else {
      var t := Step(s, Try(false));
      var a := FailAll(t);
      acts := [Try(false)] + a;
      assert acts[1..] == a;
    }
  }

  // Idle, at or over the bound, every task untried
  predicate Loaded(s: State, n: nat) {
    s.drain.None? && s.maxItems > 0 && |s.items| == s.maxItems + n && forall x :: x in s.items ==> x.retries == 0
  }

  // A drain in which everything fails, one arrival meanwhile, then arrivals that push the
  // retried tasks out: the queue is one longer and as fresh as before.
  lemma GrowOnce(s: State, n: nat) returns (acts: seq<Act>)
    requires Loaded(s, n) && s.maxRetries >= 2
    ensures Runs(s, acts) && Loaded(End(s, acts), n + 1) && End(s, acts).maxRetries == s.maxRetries
  {
    var s1 := Step(s, Start);
    var a := FailAll(s1);
    var s2 := End(s1, a);
    var s3 := Step(s2, Enqueue);
    var s4 := Step(s3, Merge);
    assert |s4.items| == s.maxItems + n + 1;
    var b := EnqueueMany(s4, |s4.items|);
    var tail := [Enqueue, Merge] + b;
    assert tail[1..] == [Merge] + b && tail[1..][1..] == b;
    assert Runs(s3, tail[1..]) && End(s3, tail[1..]) == End(s4, b);
    assert Runs(s2, tail) && End(s2, tail) == End(s4, b);
    R.RunConcat(Steps(), s1, a, tail);
    acts := [Start] + (a + tail);
    assert acts[1..] == a + tail;
  }

  lemma {:induction false} Grows(maxItems: int, maxRetries: int, n: nat) returns (s: State)
    requires Init(maxItems, maxRetries).maxRetries >= 2
    ensures Reachable(maxItems, maxRetries, s) && Loaded(s, n) && s.maxRetries >= 2
  {
    var init := Init(maxItems, maxRetries);
    if n == 0 {
      var a := EnqueueMany(init, init.maxItems);
      s := End(init, a);
    } else {
      var r := Grows(maxItems, maxRetries, n - 1);
      var a := GrowOnce(r, n - 1);
      s := End(r, a);
      ReachesFurther(maxItems, maxRetries, r, a);
    }
  }

  predicate OneShot(s: State) {
    && s.maxRetries == 1 && s.maxItems > 0 && |s.items| <= s.maxItems
    && (s.drain.Some? ==> s.drain.value.requeue == [])
  }

  lemma {:induction false} OneShotKept(s: State, acts: seq<Act>)
    requires Runs(s, acts) && OneShot(s)
    ensures OneShot(End(s, acts))
    decreases |acts|
  {
    if acts != [] {
      OneShotKept(Step(s, acts[0]), acts[1..]);
    }
  }

  ghost predicate ReachesLength(maxItems: int, maxRetries: int, n: nat) {
    exists s :: Reachable(maxItems, maxRetries, s) && |s.items| >= n
  }

  // maxItems bounds the queue exactly when nothing is ever retried; otherwise the queue can
  // grow past every length.
  lemma BoundedExactly(maxItems: int, maxRetries: int)
    ensures (forall s :: Reachable(maxItems, maxRetries, s) ==> |s.items| <= s.maxItems) <==> maxRetries == 1
    ensures maxRetries != 1 ==> forall n: nat :: ReachesLength(maxItems, maxRetries, n)
  {
    if maxRetries == 1 {
      forall s | Reachable(maxItems, maxRetries, s) ensures |s.items| <= s.maxItems {
        var acts: seq<Act> :| Runs(Init(maxItems, maxRetries), acts) && End(Init(maxItems, maxRetries), acts) == s;
        OneShotKept(Init(maxItems, maxRetries), acts);
      }
    } else {
      var one := Grows(maxItems, maxRetries, 1);
      assert Reachable(maxItems, maxRetries, one) && |one.items| > one.maxItems;
      forall n: nat ensures ReachesLength(maxItems, maxRetries, n) {
        var s := Grows(maxItems, maxRetries, n);
        assert Reachable(maxItems, maxRetries, s) && |s.items| >= n;
      }
    }
  }

  // ---------------------------------------------------------------------------
  // The queue
  // ---------------------------------------------------------------------------

  // The steps of a drain of the first tasks of a batch: in front of each task the Enqueue calls that
  // come while it runs, then its execution
  function Enqueues(n: nat): seq<Act> {
    if n == 0 then [] else Enqueues(n - 1) + [Act.Enqueue]
  }

  function Tries(batch: seq<Item>, fn: (Item, nat) -> bool, arrivals: nat -> nat): seq<Act>
    decreases |batch|
  {
    if batch == [] then []
    else
      var k := |batch| - 1;
      Tries(batch[..k], fn, arrivals) + Enqueues(arrivals(k)) + [Try(fn(batch[k], k))]
  }

  // The tasks of a batch that failed with attempts left, in order, each with one more retry
  function ToRetry(batch: seq<Item>, fn: (Item, nat) -> bool, maxRetries: nat): seq<Item>
    decreases |batch|
  {
    if batch == [] then []
    else
      var k := |batch| - 1;
      ToRetry(batch[..k], fn, maxRetries)
      + if !fn(batch[k], k) && batch[k].retries + 1 < maxRetries then [batch[k].(retries := batch[k].retries + 1)] else []
  }

  function Total(arrivals: nat -> nat, k: nat): nat {
    if k == 0 then 0 else Total(arrivals, k - 1) + arrivals(k - 1)
  }

  // n tasks enqueued into an empty queue from id `first` on: the last ones that fit
  function Arrivals(first: nat, n: nat, maxItems: nat): seq<Item> {
    if n <= maxItems then Ids(first, n) else Ids(first + n - maxItems, maxItems)
  }

  function Ids(first: nat, n: nat): seq<Item> { seq(n, (j: nat) => Item(first + j, 0)) }

  lemma TriesNext(batch: seq<Item>, i: nat, fn: (Item, nat) -> bool, arrivals: nat -> nat, maxRetries: nat)
    requires i < |batch|
    ensures Tries(batch[..i + 1], fn, arrivals)
         == Tries(batch[..i], fn, arrivals) + Enqueues(arrivals(i)) + [Try(fn(batch[i], i))]
    ensures ToRetry(batch[..i + 1], fn, maxRetries)
         == ToRetry(batch[..i], fn, maxRetries)
            + if !fn(batch[i], i) && batch[i].retries + 1 < maxRetries then [batch[i].(retries := batch[i].retries + 1)] else []
  {
    assert batch[..i + 1][..i] == batch[..i];
  }

  lemma ArrivalsNext(first: nat, n: nat, maxItems: nat)
    requires maxItems > 0
    ensures var xs := Arrivals(first, n, maxItems);
            Arrivals(first, n + 1, maxItems)
            == (if |xs| >= maxItems then xs[1..] else xs) + [Item(first + n, 0)]
  {
  }

  class RetryQueue {
    const maxItems: nat
    const maxRetries: nat
    var items: seq<Item>
    var next: nat
    ghost var drain: Option<Drain>
    ghost var gone: seq<Gone>
    ghost var tried: seq<nat>

    constructor (maxItems: int, maxRetries: int)
      ensures Value() == Init(maxItems, maxRetries)
      ensures this.maxItems == (if maxItems > 0 then maxItems else 50) && this.maxRetries == (if maxRetries > 0 then maxRetries else 3)
      ensures items == [] && next == 0
    {
      this.maxItems := if maxItems <= 0 then 50 else maxItems;
      this.maxRetries := if maxRetries <= 0 then 3 else maxRetries;
      items, next, drain, gone, tried := [], 0, None, [], [];
    }

    ghost function Value(): State
      reads this
    {
      State(maxItems, maxRetries, items, drain, next, gone, tried)
    }

    method Enqueue()
      requires maxItems > 0
      modifies this`items, this`next, this`drain, this`gone
      ensures Value() == Step(old(Value()), Act.Enqueue)
      ensures items == (if |old(items)| >= maxItems then old(items)[1..] else old(items)) + [Item(old(next), 0)]
      ensures next == old(next) + 1
    {
      if |items| >= maxItems {
        gone := gone + [Gone(items[0], Overflowed)];
        items := items[1..];
      }
      items := items + [Item(next, 0)];
      next := next + 1;
      if drain.Some? {
        drain := Some(drain.value.(meanwhile := drain.value.meanwhile + 1));
      }
    }

    // After i tasks of the batch `was`, drained from state `from` on
    ghost predicate Draining(from: State, was: seq<Item>, batch: array<Item>, i: nat, requeue: seq<Item>, acts: seq<Act>,
                             fn: (Item, nat) -> bool, arrivals: nat -> nat)
      reads this, batch
    {
      && i <= batch.Length == |was| && batch[i..] == was[i..]
      && drain.Some? && drain.value.todo == was[i..] && drain.value.requeue == requeue
      && Runs(from, acts) && End(from, acts) == Value()
      && acts == [Start] + Tries(was[..i], fn, arrivals) && requeue == ToRetry(was[..i], fn, maxRetries)
      && items == Arrivals(from.next, Total(arrivals, i), maxItems) && next == from.next + Total(arrivals, i)
    }

    // One drain.  fn tells whether the i-th task of the batch succeeds, and arrivals(i) how many
    // tasks are enqueued while it runs.  Every task of the batch is executed once, in order; what
    // fails with attempts left stands in front of the arrivals that were not dropped.
    method DrainOnce(fn: (Item, nat) -> bool, arrivals: nat -> nat) returns (ghost acts: seq<Act>)
      requires maxItems > 0 && drain.None?
      modifies this
      ensures drain.None?
      ensures Runs(old(Value()), acts) && End(old(Value()), acts) == Value()
      ensures acts == if old(items) == [] then [] else [Start] + Tries(old(items), fn, arrivals) + [Merge]
      ensures var arrived := if old(items) == [] then 0 else Total(arrivals, |old(items)|);
              && items == ToRetry(old(items), fn, maxRetries) + Arrivals(old(next), arrived, maxItems)
              && next == old(next) + arrived
    {
      acts := [];
      if |items| == 0 {
        return;
      }
      ghost var from, was := Value(), items;
      var batch := new Item[|items|](i requires 0 <= i < |items| reads this => items[i]);
      items := [];
      drain := Some(Drain(batch[..], [], batch.Length, 0));
      acts := [Start];
      R.RunSnoc(Steps(), from, [], Start);
      assert batch[..] == batch[0..] == was && [] + [Start] == acts == [Start] + Tries(was[..0], fn, arrivals);
      var requeue: seq<Item> := [];
      var i := 0;
      while i < batch.Length
        invariant Draining(from, was, batch, i, requeue, acts, fn, arrivals)
      {
        requeue, acts := DrainTurn(from, was, batch, i, requeue, acts, fn, arrivals);
        i := i + 1;
      }
      assert was[..i] == was;
      R.RunSnoc(Steps(), from, acts, Merge);
      acts := acts + [Merge];
      if |requeue| > 0 {
        items := requeue + items;
      }
      drain := None;
    }

    // The execution of one task, and what is enqueued meanwhile
    method DrainTurn(ghost from: State, ghost was: seq<Item>, batch: array<Item>, i: nat, requeue: seq<Item>,
                     ghost acts: seq<Act>, fn: (Item, nat) -> bool, arrivals: nat -> nat)
      returns (after: seq<Item>, ghost more: seq<Act>)
      requires maxItems > 0 && i < batch.Length && Draining(from, was, batch, i, requeue, acts, fn, arrivals)
      modifies this`items, this`next, this`drain, this`gone, this`tried, batch
      ensures Draining(from, was, batch, i + 1, after, more, fn, arrivals)
    {
      assert batch[i] == batch[i..][0] == was[i];
      more := EnqueueWhileRunning(arrivals(i), from, acts, from.next, Total(arrivals, i));
      var ok := fn(batch[i], i);
      R.RunSnoc(Steps(), from, more, Try(ok));
      TriesNext(was, i, fn, arrivals, maxRetries);
      JoinTurn([Start], Tries(was[..i], fn, arrivals), Enqueues(arrivals(i)), Try(ok));
      more := more + [Try(ok)];
      assert batch[i + 1..] == batch[i..][1..] == was[i + 1..];
      after := Settle(batch, i, ok, requeue);
    }

    // The bookkeeping after a task has run: its retry count is raised inside the batch.
    method Settle(batch: array<Item>, i: nat, ok: bool, requeue: seq<Item>) returns (after: seq<Item>)
      requires i < batch.Length
      requires drain.Some? && drain.value.todo == batch[i..] && drain.value.requeue == requeue
      modifies this`drain, this`gone, this`tried, batch
      ensures Value() == Step(old(Value()), Try(ok))
      ensures drain.Some? && drain.value.todo == batch[i + 1..] == old(batch[i + 1..]) && drain.value.requeue == after
      ensures after == requeue + if !ok && old(batch[i]).retries + 1 < maxRetries
                                 then [old(batch[i]).(retries := old(batch[i]).retries + 1)] else []
    {
      after := requeue;
      tried := tried + [batch[i].id];
      if !ok {
        batch[i] := batch[i].(retries := batch[i].retries + 1);
        if batch[i].retries >= maxRetries {
          gone := gone + [Gone(batch[i], Exhausted)];
        } else {
          after := after + [batch[i]];
        }
      } else {
        gone := gone + [Gone(batch[i], Succeeded)];
      }
      assert batch[i + 1..] == old(batch[i..])[1..];
      drain := Some(drain.value.(todo := batch[i + 1..], requeue := after));
    }

    // Other goroutines enqueue n tasks.
    method EnqueueWhileRunning(n: nat, ghost from: State, ghost acts: seq<Act>, ghost first: nat, ghost before: nat)
      returns (ghost more: seq<Act>)
      requires maxItems > 0 && drain.Some?
      requires Runs(from, acts) && End(from, acts) == Value()
      requires items == Arrivals(first, before, maxItems) && next == first + before
      modifies this`items, this`next, this`drain, this`gone
      ensures more == acts + Enqueues(n) && Runs(from, more) && End(from, more) == Value()
      ensures drain.Some? && drain.value.todo == old(drain.value.todo) && drain.value.requeue == old(drain.value.requeue)
      ensures items == Arrivals(first, before + n, maxItems) && next == first + before + n
    {
      more := acts;
      var k := 0;
      assert acts + Enqueues(0) == acts;
      while k < n
        invariant 0 <= k <= n && more == acts + Enqueues(k)
        invariant Runs(from, more) && End(from, more) == Value()
        invariant drain.Some? && drain.value.todo == old(drain.value.todo) && drain.value.requeue == old(drain.value.requeue)
        invariant items == Arrivals(first, before + k, maxItems) && next == first + before + k
      {
        R.RunSnoc(Steps(), from, more, Act.Enqueue);
        ArrivalsNext(first, before + k, maxItems);
        ConcatAssoc(acts, Enqueues(k), [Act.Enqueue]);
        Enqueue();
        more := more + [Act.Enqueue];
        k := k + 1;
      }
    }
  }

  lemma JoinTurn(a: seq<Act>, b: seq<Act>, c: seq<Act>, x: Act)
    ensures a + b + c + [x] == a + (b + c + [x])
  {
  }
}
