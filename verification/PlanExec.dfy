/**
  worktracker/plan_execute.go: a plan is executed step by step, each step seeing a scratchpad
  of the earlier ones, and the remaining steps may be replaced once, in place, after failures.
  The model calls, the context and the planner are parameters.
 */
module PlanExecution {
  import opened Messages
  import opened Wrappers

  const SCRATCHPAD_BUDGET: nat := 1500
  const MAX_PLAN_STEPS: nat := 6
  const MAX_REPLAN_STEPS: nat := 4

  // ---------------------------------------------------------------------------
  // Scratchpad
  // ---------------------------------------------------------------------------

  datatype Entry = Entry(key: string, value: string)

  // The first entry with the key, or the end
  function Position(es: seq<Entry>, key: string): (i: nat)
    ensures i <= |es|
    decreases |es|
  {
    if es == [] || es[0].key == key then 0 else 1 + Position(es[1..], key)
  }

  function Lookup(es: seq<Entry>, key: string): string {
    var i := Position(es, key);
    if i < |es| then es[i].value else ""
  }

  function Stored(es: seq<Entry>, key: string, value: string): seq<Entry> {
    var i, e := Position(es, key), Entry(key, Truncated(value, SCRATCHPAD_BUDGET));
    if i < |es| then es[i := e] else es + [e]
  }

  predicate UniqueKeys(es: seq<Entry>) {
    forall i, j :: 0 <= i < j < |es| ==> es[i].key != es[j].key
  }

  lemma {:induction false} PositionExactly(es: seq<Entry>, key: string, i: nat)
    ensures i == Position(es, key) <==>
            i <= |es| && (i < |es| ==> es[i].key == key) && forall j :: 0 <= j < i ==> es[j].key != key
    decreases |es|
  {
    if es != [] && es[0].key != key {
      if i > 0 {
        PositionExactly(es[1..], key, i - 1);
      }
    }
  }

  // A stored value is what a later lookup returns, up to the budget; nothing else changes.
  lemma StoreThenLookup(es: seq<Entry>, key: string, value: string, other: string)
    ensures Lookup(Stored(es, key, value), other)
            == if other == key then Truncated(value, 1500) else Lookup(es, other)
  {
    var t := Stored(es, key, value);
    var i, k := Position(es, key), Position(es, other);
    PositionExactly(es, key, i);
    PositionExactly(es, other, k);
    PositionExactly(t, key, i);
    PositionExactly(t, other, if k < |es| then k else |t|);
  }

  lemma StoreKeepsUnique(es: seq<Entry>, key: string, value: string)
    requires UniqueKeys(es)
    ensures UniqueKeys(Stored(es, key, value))
  {
    PositionExactly(es, key, Position(es, key));
  }

  class Scratchpad {
    var entries: seq<Entry>

    constructor ()
      ensures entries == []
    {
      entries := [];
    }

    method Set(key: string, value: string)
      modifies this
      ensures entries == Stored(old(entries), key, value)
    {
      var truncated := Truncate(value, SCRATCHPAD_BUDGET);
      var i := 0;
      while i < |entries|
        invariant 0 <= i <= |entries| && entries == old(entries)
        invariant forall j :: 0 <= j < i ==> entries[j].key != key
      {
        if entries[i].key == key {
          PositionExactly(entries, key, i);
          entries := entries[i := Entry(key, truncated)];
          return;
        }
        i := i + 1;
      }
      PositionExactly(entries, key, i);
      entries := entries + [Entry(key, truncated)];
    }

    method Get(key: string) returns (value: string)
      ensures value == Lookup(entries, key)
    {
      var i := 0;
      while i < |entries|
        invariant 0 <= i <= |entries|
        invariant forall j :: 0 <= j < i ==> entries[j].key != key
      {
        if entries[i].key == key {
          PositionExactly(entries, key, i);
          return entries[i].value;
        }
        i := i + 1;
      }
      PositionExactly(entries, key, i);
      return "";
    }
  }

  // ---------------------------------------------------------------------------
  // Plans
  // ---------------------------------------------------------------------------

  datatype PlanStep = PlanStep(description: string, toolsNeeded: seq<string>)

  datatype StepResult = StepResult(step: nat, description: string, result: string, success: bool)

  // err is None when the step succeeded with `text`.
  datatype Outcome = Outcome(text: string, err: Option<string>)

  // How the texts are put together
  datatype Spelling = Spelling(
    key: nat -> string,                  // scratchpad key of step i
    failuresKey: string,
    failureLine: (nat, string) -> string,
    joined: (string, string) -> string,  // an earlier and a new failure line
    failed: string -> string,            // result of a failed step
    cancelled: string -> string)

  function AsWritten(): Spelling {
    Spelling((i: nat) => "step_" + Decimal(i + 1), "failures",
             (i: nat, e: string) => "Step " + Decimal(i + 1) + " failed: " + e,
             (a: string, b: string) => a + "; " + b,
             (e: string) => "step failed: " + e, (e: string) => "cancelled: " + e)
  }

  // No key is used for two purposes.
  ghost predicate KeysDistinct(sp: Spelling) {
    && (forall i: nat :: sp.key(i) != sp.failuresKey)
    && forall i: nat, j: nat :: i != j ==> sp.key(i) != sp.key(j)
  }

  datatype Env = Env(
    hasDTC: bool,
    sp: Spelling,
    cancelled: nat -> Option<string>,                        // ctx.Done() before step i
    exec: (nat, PlanStep, seq<Entry>) -> Outcome,
    replan: (nat, seq<Entry>, seq<PlanStep>) -> Option<seq<PlanStep>>)   // None: call or parse failed

  // A planner's answer: an empty plan is an error, a long one is cut.
  function Capped(raw: Option<seq<PlanStep>>, cap: nat): Option<seq<PlanStep>> {
    match raw
    case None => None
    case Some(steps) => if steps == [] then None else Some(if |steps| > cap then steps[..cap] else steps)
  }

  // The variables of executeSteps at the top of its loop, with i = |results|.  `kept` counts
  // the leading steps of the first plan that are still there; `attempts` logs replan calls.
  datatype Exec = Exec(
    steps: seq<PlanStep>,
    results: seq<StepResult>,
    pad: seq<Entry>,
    replanned: bool,
    failures: nat,
    kept: nat,
    attempts: seq<nat>)

  function Start(steps: seq<PlanStep>): Exec { Exec(steps, [], [], false, 0, |steps|, []) }

  function ResultOf(sp: Spelling, i: nat, step: PlanStep, o: Outcome): StepResult {
    StepResult(i + 1, step.description, if o.err.Some? then sp.failed(o.err.value) else o.text, o.err.None?)
  }

  // Failures are also collected under one key.
  function FailureNoted(sp: Spelling, pad: seq<Entry>, i: nat, error: string): seq<Entry> {
    var existing, line := Lookup(pad, sp.failuresKey), sp.failureLine(i, error);
    Stored(pad, sp.failuresKey, if existing != "" then sp.joined(existing, line) else line)
  }

  function PadAfter(sp: Spelling, pad: seq<Entry>, i: nat, o: Outcome, r: StepResult): seq<Entry> {
    Stored(if o.err.None? then pad else FailureNoted(sp, pad, i, o.err.value), sp.key(i), r.result)
  }

  predicate ShouldReplan(env: Env, replanned: bool, remaining: int, success: bool, failures: nat) {
    !replanned && env.hasDTC && remaining > 0 && !success && (failures >= 2 || remaining <= 2)
  }

  // The next step is executed and its outcome noted.
  function Executed(env: Env, x: Exec): Exec
    requires |x.results| < |x.steps|
  {
    var i := |x.results|;
    var o := env.exec(i, x.steps[i], x.pad);
    var r := ResultOf(env.sp, i, x.steps[i], o);
    x.(results := x.results + [r], pad := PadAfter(env.sp, x.pad, i, o, r), failures := if r.success then 0 else x.failures + 1)
  }

  // The planner's answer after the last executed step, if it is asked
  function Asked(env: Env, y: Exec): Option<seq<PlanStep>>
    requires 0 < |y.results| <= |y.steps|
  {
    Capped(env.replan(|y.results| - 1, y.pad, y.steps[|y.results|..]), MAX_REPLAN_STEPS)
  }

  predicate Replans(env: Env, y: Exec)
    requires 0 < |y.results| <= |y.steps|
  {
    ShouldReplan(env, y.replanned, |y.steps| - |y.results|, y.results[|y.results| - 1].success, y.failures)
  }

  function Revised(env: Env, y: Exec): Exec
    requires 0 < |y.results| <= |y.steps|
  {
    var k := |y.results|;
    if !Replans(env, y) then y
    else
      match Asked(env, y)
      case None => y.(attempts := y.attempts + [k - 1])
      case Some(revised) =>
        y.(attempts := y.attempts + [k - 1], steps := y.steps[..k] + revised, replanned := true, kept := k)
  }

  function OneStep(env: Env, x: Exec): Exec
    requires |x.results| < |x.steps|
  {
    Revised(env, Executed(env, x))
  }

  function Cancel(env: Env, x: Exec): Exec
    requires |x.results| < |x.steps| && env.cancelled(|x.results|).Some?
  {
    var i := |x.results|;
    x.(results := x.results + [StepResult(i + 1, x.steps[i].description, env.sp.cancelled(env.cancelled(i).value), false)])
  }

  function Run(env: Env, x: Exec): Exec
    decreases !x.replanned, |x.steps| - |x.results|
  {
    if |x.results| >= |x.steps| then x
    else if env.cancelled(|x.results|).Some? then Cancel(env, x)
    else Run(env, OneStep(env, x))
  }

  // ---------------------------------------------------------------------------
  // executeSteps, on a slice whose backing array it shares with its caller
  // ---------------------------------------------------------------------------

  // append(steps[:k], revised...): in place when the array is long enough, else a copy
  method AppendAt(a: array<PlanStep>, k: nat, revised: seq<PlanStep>) returns (b: array<PlanStep>)
    requires k <= a.Length
    modifies a
    ensures b == a || fresh(b)
    ensures b.Length >= k + |revised| && b[..k + |revised|] == old(a[..k]) + revised
    ensures a[..k] == old(a[..k])
    ensures b != a ==> a[..] == old(a[..])
  {
    if k + |revised| <= a.Length {
      b := a;
    } else {
      b := new PlanStep[k + |revised|](i requires 0 <= i < k + |revised| reads a => if i < k then a[i] else revised[i - k]);
      return;
    }
    var j := 0;
    while j < |revised|
      invariant 0 <= j <= |revised|
      invariant a[..k] == old(a[..k])
      invariant a[k..k + j] == revised[..j]
    {
      a[k + j] := revised[j];
      j := j + 1;
    }
    assert a[..k + |revised|] == a[..k] + a[k..k + |revised|];
  }

  // One step: executed with the pad as it is, then noted there.
  method ExecuteStep(env: Env, i: nat, step: PlanStep, pad: Scratchpad) returns (sr: StepResult)
    modifies pad
    ensures var o := env.exec(i, step, old(pad.entries));
            sr == ResultOf(env.sp, i, step, o) && pad.entries == PadAfter(env.sp, old(pad.entries), i, o, sr)
  {
    var o := env.exec(i, step, pad.entries);
    sr := ResultOf(env.sp, i, step, o);
    RecordOutcome(env.sp, pad, i, o, sr);
  }

  method RecordOutcome(sp: Spelling, pad: Scratchpad, i: nat, o: Outcome, r: StepResult)
    modifies pad
    ensures pad.entries == PadAfter(sp, old(pad.entries), i, o, r)
  {
    if o.err.Some? {
      var existing := pad.Get(sp.failuresKey);
      var line := sp.failureLine(i, o.err.value);
      if existing != "" {
        pad.Set(sp.failuresKey, sp.joined(existing, line));
      } else {
        pad.Set(sp.failuresKey, line);
      }
    }
    pad.Set(sp.key(i), r.result);
  }

  method ReplanRemaining(env: Env, i: nat, pad: Scratchpad, remaining: seq<PlanStep>) returns (r: Option<seq<PlanStep>>)
    ensures r == Capped(env.replan(i, pad.entries, remaining), MAX_REPLAN_STEPS)
  {
    r := env.replan(i, pad.entries, remaining);
    if r.Some? {
      if |r.value| == 0 {
        return None;
      }
      if |r.value| > MAX_REPLAN_STEPS {
        r := Some(r.value[..MAX_REPLAN_STEPS]);
      }
    }
  }

  // The rest of the first len steps, replaced by the planner's answer if it gives one
  method TryReplan(env: Env, i: nat, pad: Scratchpad, steps: array<PlanStep>, len: nat)
    returns (b: array<PlanStep>, newLen: nat, done: bool)
    requires i < len <= steps.Length
    modifies steps
    ensures i < newLen <= b.Length && (b == steps || fresh(b))
    ensures steps[..i + 1] == old(steps[..i + 1])
    ensures var r := Capped(env.replan(i, pad.entries, old(steps[..len])[i + 1..]), MAX_REPLAN_STEPS);
            && done == r.Some?
            && b[..newLen] == if done then old(steps[..len])[..i + 1] + r.value else old(steps[..len])
    ensures !done ==> b == steps && steps[..] == old(steps[..]) && newLen == len
  {
    assert steps[i + 1..len] == steps[..len][i + 1..] && steps[..len][..i + 1] == steps[..i + 1];
    var newSteps := ReplanRemaining(env, i, pad, steps[i + 1..len]);
    if newSteps.None? {
      return steps, len, false;
    }
    b := AppendAt(steps, i + 1, newSteps.value);
    return b, i + 1 + |newSteps.value|, true;
  }

  // The decision after step i - 1, on the slice
  method Replan(env: Env, i: nat, pad: Scratchpad, steps: array<PlanStep>, len: nat,
                replanned: bool, success: bool, failures: nat, ghost y: Exec)
    returns (b: array<PlanStep>, newLen: nat, done: bool)
    requires 0 < i <= len <= steps.Length
    requires y.steps == steps[..len] && y.pad == pad.entries && |y.results| == i
    requires y.results[i - 1].success == success && y.replanned == replanned && y.failures == failures
    modifies steps
    ensures i <= newLen <= b.Length && (b == steps || fresh(b))
    ensures steps[..i] == old(steps[..i])
    ensures b[..newLen] == Revised(env, y).steps && done == Revised(env, y).replanned
    ensures done == replanned ==> b == steps && steps[..] == old(steps[..]) && newLen == len && Revised(env, y).kept == y.kept
    ensures done != replanned ==> done && Revised(env, y).kept == i
  {
    b, newLen, done := steps, len, replanned;
    if ShouldReplan(env, replanned, len - i, success, failures) {
      b, newLen, done := TryReplan(env, i - 1, pad, steps, len);
    }
  }

  // The variables of the loop, as a value
  ghost predicate Holds(x: Exec, steps: array<PlanStep>, len: nat, results: seq<StepResult>, pad: Scratchpad,
                        replanned: bool, failures: nat)
    reads steps, pad
  {
    && |results| <= len <= steps.Length
    && x.steps == steps[..len] && x.results == results && x.pad == pad.entries
    && x.replanned == replanned && x.failures == failures
  }

  method Execute(env: Env, step: PlanStep, results: seq<StepResult>, pad: Scratchpad, failures: nat, ghost x: Exec)
    returns (more: seq<StepResult>, success: bool, failed: nat, ghost y: Exec)
    requires |results| < |x.steps| && x.steps[|results|] == step
    requires x.results == results && x.pad == pad.entries && x.failures == failures
    modifies pad
    ensures y == Executed(env, x)
    ensures y.results == more && y.pad == pad.entries && y.failures == failed
    ensures |more| == |results| + 1 && more[|results|].success == success
    ensures y.steps == x.steps && y.replanned == x.replanned && y.kept == x.kept
  {
    var sr := ExecuteStep(env, |results|, step, pad);
    success := sr.success;
    failed := if success then 0 else failures + 1;
    more := results + [sr];
    y := Executed(env, x);
  }

  // The first k steps agree.
  predicate Same(p: seq<PlanStep>, q: seq<PlanStep>, k: nat) {
    k <= |p| == |q| && forall j :: 0 <= j < k ==> p[j] == q[j]
  }

  lemma SameTrans(p: seq<PlanStep>, q: seq<PlanStep>, r: seq<PlanStep>, k: nat, n: nat)
    requires Same(p, q, k) && Same(q, r, n) && k <= n
    ensures Same(p, r, k)
  {
  }

  // One turn of the loop.  A replan keeps the executed steps in their places.
  method Turn(env: Env, steps: array<PlanStep>, len: nat, results: seq<StepResult>, pad: Scratchpad,
              replanned: bool, failures: nat, ghost x: Exec)
    returns (b: array<PlanStep>, newLen: nat, more: seq<StepResult>, done: bool, failed: nat, ghost y: Exec)
    requires |results| < len && Holds(x, steps, len, results, pad, replanned, failures)
    modifies steps, pad
    ensures y == OneStep(env, x)
    ensures Holds(y, b, newLen, more, pad, done, failed) && |more| == |results| + 1
    ensures b != steps ==> fresh(b)
    ensures done == replanned ==> b == steps && newLen == len && y.kept == x.kept
    ensures done == replanned ==> steps[..] == old(steps[..])
    ensures done != replanned ==> done && y.kept == |more|
    ensures Same(steps[..], old(steps[..]), |more|)
  {
    var i, success := |results|, false;
    assert x.steps[i] == steps[i];
    more, success, failed, y := Execute(env, steps[i], results, pad, failures, x);
    b, newLen, done := Replan(env, i + 1, pad, steps, len, replanned, success, failed, y);
    y := Revised(env, y);
  }

  // The state of the run between two turns: `was` is what the caller's array held at the start.
  ghost predicate Running(x: Exec, a: array<PlanStep>, n: nat, was: seq<PlanStep>, steps: array<PlanStep>, len: nat,
                          results: seq<StepResult>, pad: Scratchpad, replanned: bool, failures: nat)
    reads a, steps, pad
  {
    && Holds(x, steps, len, results, pad, replanned, failures)
    && (if replanned then x.kept <= |results| else steps == a && len == n && x.kept == n)
    && x.kept <= n && Same(a[..], was, x.kept)
  }

  // One turn, seen from the caller's array
  method Advance(env: Env, a: array<PlanStep>, n: nat, ghost was: seq<PlanStep>, steps: array<PlanStep>, len: nat,
                 results: seq<StepResult>, pad: Scratchpad, replanned: bool, failures: nat, ghost x: Exec)
    returns (b: array<PlanStep>, newLen: nat, more: seq<StepResult>, done: bool, failed: nat, ghost y: Exec)
    requires |results| < len && Running(x, a, n, was, steps, len, results, pad, replanned, failures)
    modifies steps, pad
    ensures y == OneStep(env, x) && Running(y, a, n, was, b, newLen, more, pad, done, failed)
    ensures |more| == |results| + 1 && (b != steps ==> fresh(b))
    ensures if done == replanned then newLen == len else done
  {
    ghost var before := a[..];
    b, newLen, more, done, failed, y := Turn(env, steps, len, results, pad, replanned, failures, x);
    if done != replanned {
      SameTrans(a[..], before, was, |more|, n);
    } else {
      assert a[..] == before;
    }
  }

  // The leading steps that were already executed keep their places in the caller's array.
  method ExecuteSteps(a: array<PlanStep>, n: nat, env: Env) returns (results: seq<StepResult>, ghost x: Exec)
    requires n <= a.Length
    modifies a
    ensures x == Run(env, Start(old(a[..n]))) && results == x.results
    ensures x.kept <= n && Same(a[..], old(a[..]), x.kept)
  {
    var steps: array<PlanStep>, len: nat := a, n;
    results := [];
    var pad := new Scratchpad();
    var replanned: bool, consecutiveFailures: nat := false, 0;
    x := Start(a[..n]);
    ghost var run, was := Run(env, x), a[..];
    while |results| < len
      invariant Running(x, a, n, was, steps, len, results, pad, replanned, consecutiveFailures)
      invariant steps != a ==> fresh(steps)
      invariant fresh(pad)
      invariant Run(env, x) == run
      decreases !replanned, len - |results|
    {
      var i := |results|;
      var done := env.cancelled(i);
      if done.Some? {
        results := results + [StepResult(i + 1, steps[i].description, env.sp.cancelled(done.value), false)];
        RunCancels(env, x);
        x := Cancel(env, x);
        return;
      }
      RunUnfolds(env, x);
      steps, len, results, replanned, consecutiveFailures, x :=
        Advance(env, a, n, was, steps, len, results, pad, replanned, consecutiveFailures, x);
    }
  }

  lemma RunCancels(env: Env, x: Exec)
    requires |x.results| < |x.steps| && env.cancelled(|x.results|).Some?
    ensures Run(env, x) == Cancel(env, x)
  {
  }

  lemma RunUnfolds(env: Env, x: Exec)
    requires |x.results| < |x.steps| && env.cancelled(|x.results|).None?
    ensures Run(env, x) == Run(env, OneStep(env, x))
  {
  }

  // ---------------------------------------------------------------------------
  // What a run guarantees
  // ---------------------------------------------------------------------------

  // Failures at the end of the results
  function Trailing(rs: seq<StepResult>): nat
    decreases |rs|
  {
    if rs == [] || rs[|rs| - 1].success then 0 else Trailing(rs[..|rs| - 1]) + 1
  }

  // When the planner is asked after step i: nothing was replanned yet, something remains, the
  // step failed, and it was the second failure in a row or near the end.
  predicate AskedAt(env: Env, plan: seq<PlanStep>, x: Exec, i: nat) {
    && i < |x.results| && env.hasDTC && !(x.replanned && i >= x.kept)
    && i + 1 < |plan| && !x.results[i].success
    && (Trailing(x.results[..i + 1]) >= 2 || |plan| - (i + 1) <= 2)
  }

  // Results are numbered in order and belong to the steps in their places; the steps are the
  // plan, or a proper part of it that was executed and at most four new ones.
  predicate Numbered(plan: seq<PlanStep>, x: Exec) {
    && |x.results| <= |x.steps| && x.kept <= |x.steps| && x.kept <= |plan|
    && (forall k :: 0 <= k < |x.results| ==>
          x.results[k].step == k + 1 && x.results[k].description == x.steps[k].description)
    && x.steps[..x.kept] == plan[..x.kept]
    && (if x.replanned then 0 < x.kept < |plan| && x.kept <= |x.results| && x.kept < |x.steps| <= x.kept + MAX_REPLAN_STEPS
        else x.kept == |plan| && x.steps == plan)
  }

  ghost predicate Exact(env: Env, plan: seq<PlanStep>, x: Exec) {
    && x.failures == Trailing(x.results)
    && (forall i: nat :: i in x.attempts <==> AskedAt(env, plan, x, i))
    && (x.replanned ==> x.kept - 1 in x.attempts)
  }

  predicate Noted(sp: Spelling, x: Exec) {
    forall k :: 0 <= k < |x.results| ==>
      Lookup(x.pad, sp.key(k)) == Truncated(x.results[k].result, SCRATCHPAD_BUDGET)
  }

  lemma WrittenKeysDistinct()
    ensures KeysDistinct(AsWritten())
  {
    var sp := AsWritten();
    forall i: nat ensures sp.key(i) != sp.failuresKey {
      assert sp.key(i)[0] == 's';
    }
    forall i: nat, j: nat | i != j ensures sp.key(i) != sp.key(j) {
      DecimalParses(i + 1);
      DecimalParses(j + 1);
      assert sp.key(i)[5..] == Decimal(i + 1) && sp.key(j)[5..] == Decimal(j + 1);
    }
  }

  lemma PadKeeps(sp: Spelling, pad: seq<Entry>, i: nat, o: Outcome, r: StepResult, k: nat)
    requires KeysDistinct(sp)
    ensures Lookup(PadAfter(sp, pad, i, o, r), sp.key(k))
            == if k == i then Truncated(r.result, SCRATCHPAD_BUDGET) else Lookup(pad, sp.key(k))
  {
    if o.err.Some? {
      var existing, line := Lookup(pad, sp.failuresKey), sp.failureLine(i, o.err.value);
      StoreThenLookup(pad, sp.failuresKey, if existing != "" then sp.joined(existing, line) else line, sp.key(k));
    }
    var noted := if o.err.None? then pad else FailureNoted(sp, pad, i, o.err.value);
    StoreThenLookup(noted, sp.key(i), r.result, sp.key(k));
  }

  lemma StepNumbered(env: Env, plan: seq<PlanStep>, x: Exec)
    requires |x.results| < |x.steps| && Numbered(plan, x)
    ensures Numbered(plan, OneStep(env, x)) && |OneStep(env, x).results| == |x.results| + 1
  {
  }

  lemma StepNoted(env: Env, x: Exec)
    requires |x.results| < |x.steps| && KeysDistinct(env.sp) && Noted(env.sp, x)
    ensures Noted(env.sp, OneStep(env, x))
  {
    var y := Executed(env, x);
    var i := |x.results|;
    var o := env.exec(i, x.steps[i], x.pad);
    forall k | 0 <= k <= i ensures Lookup(y.pad, env.sp.key(k)) == Truncated(y.results[k].result, SCRATCHPAD_BUDGET) {
      PadKeeps(env.sp, x.pad, i, o, ResultOf(env.sp, i, x.steps[i], o), k);
    }
  }

  // An attempt is added exactly when the planner is asked after the new result.
  lemma StepAttempts(env: Env, x: Exec)
    requires |x.results| < |x.steps|
    ensures var n, y, z := |x.results|, Executed(env, x), OneStep(env, x);
            && z.results == y.results && |y.results| == n + 1 && y.results[..n] == x.results
            && z.attempts == x.attempts + (if Replans(env, y) then [n] else [])
            && z.failures == y.failures
            && (z.replanned != x.replanned ==> z.kept == n + 1 && Replans(env, y))
            && (z.replanned == x.replanned ==> z.kept == x.kept)
            && (x.replanned ==> z.replanned)
  {
  }

  // What was asked before stays as it was.
  lemma AskedBefore(env: Env, plan: seq<PlanStep>, x: Exec, i: nat)
    requires |x.results| < |x.steps| && Numbered(plan, x) && i < |x.results|
    ensures AskedAt(env, plan, OneStep(env, x), i) <==> AskedAt(env, plan, x, i)
  {
    var z := OneStep(env, x);
    StepAttempts(env, x);
    assert z.results[..i + 1] == x.results[..i + 1] && z.results[i] == x.results[i];
  }

  lemma AskedNow(env: Env, plan: seq<PlanStep>, x: Exec)
    requires |x.results| < |x.steps| && Numbered(plan, x) && x.failures == Trailing(x.results)
    ensures AskedAt(env, plan, OneStep(env, x), |x.results|) <==> Replans(env, Executed(env, x))
    ensures OneStep(env, x).failures == Trailing(OneStep(env, x).results)
  {
    var y, z := Executed(env, x), OneStep(env, x);
    StepAttempts(env, x);
    assert z.results[..|x.results| + 1] == y.results;
    assert y.failures == Trailing(y.results);
  }

  lemma StepExact(env: Env, plan: seq<PlanStep>, x: Exec)
    requires |x.results| < |x.steps| && Numbered(plan, x) && Exact(env, plan, x)
    ensures Exact(env, plan, OneStep(env, x))
  {
    var n, z := |x.results|, OneStep(env, x);
    StepAttempts(env, x);
    AskedNow(env, plan, x);
    forall i: nat ensures i in z.attempts <==> AskedAt(env, plan, z, i) {
      if i < n {
        AskedBefore(env, plan, x, i);
      } else if i == n {
        assert !AskedAt(env, plan, x, n);
      }
    }
  }

  // pads[k] is the scratchpad before step k.
  function PadAt(x: Exec, pads: seq<seq<Entry>>, k: nat): seq<Entry> {
    if k < |pads| then pads[k] else x.pad
  }

  // Every result is what the execution of its step returned, on a scratchpad that holds the results
  // of the steps before.
  ghost predicate Told(env: Env, x: Exec, pads: seq<seq<Entry>>) {
    && |pads| == |x.results| <= |x.steps|
    && (forall k :: 0 <= k < |pads| ==> ToldAt(env, x, pads, k))
  }

  predicate ToldAt(env: Env, x: Exec, pads: seq<seq<Entry>>, k: nat)
    requires k < |x.results| == |pads| <= |x.steps|
  {
    var o, r := env.exec(k, x.steps[k], pads[k]), x.results[k];
    && (r.success <==> o.err == None)
    && r.result == (match o.err case None => o.text case Some(e) => env.sp.failed(e))
    && forall j :: 0 <= j < k ==> Lookup(pads[k], env.sp.key(j)) == Truncated(x.results[j].result, SCRATCHPAD_BUDGET)
  }

  // The planner's answer to a failure after step i: it is asked with the scratchpad of that moment
  // and the steps that were left of the plan.
  function Answer(env: Env, plan: seq<PlanStep>, x: Exec, pads: seq<seq<Entry>>, i: nat): Option<seq<PlanStep>>
    requires i < |plan|
  {
    env.replan(i, PadAt(x, pads, i + 1), plan[i + 1..])
  }

  // A replan puts the first four steps of the planner's answer behind the executed ones; before
  // it, every answer was an error or empty.
  predicate Planned(env: Env, plan: seq<PlanStep>, x: Exec, pads: seq<seq<Entry>>) {
    && (x.replanned ==>
          && 0 < x.kept <= |x.steps| && x.kept <= |plan|
          && var r := Answer(env, plan, x, pads, x.kept - 1);
             r.Some? && r.value != [] && x.steps[x.kept..] == if |r.value| > 4 then r.value[..4] else r.value)
    && forall i :: i in x.attempts ==>
         && i < |x.results| && i < |plan|
         && (!(x.replanned && i + 1 == x.kept) ==>
               var r := Answer(env, plan, x, pads, i); r.None? || r.value == [])
  }

  lemma StepTold(env: Env, plan: seq<PlanStep>, x: Exec, pads: seq<seq<Entry>>)
    requires |x.results| < |x.steps| && Numbered(plan, x) && Noted(env.sp, x) && Told(env, x, pads)
    ensures Told(env, OneStep(env, x), pads + [x.pad])
  {
    var z, more := OneStep(env, x), pads + [x.pad];
    StepAttempts(env, x);
    StepSteps(env, plan, x);
    forall k | 0 <= k < |more| ensures ToldAt(env, z, more, k) {
      if k < |pads| {
        assert ToldAt(env, x, pads, k);
      }
    }
  }

  // A replan keeps the steps up to the one just executed.
  lemma StepSteps(env: Env, plan: seq<PlanStep>, x: Exec)
    requires |x.results| < |x.steps| && Numbered(plan, x)
    ensures var z, n := OneStep(env, x), |x.results|;
            && |z.steps| > n && z.steps[..n + 1] == x.steps[..n + 1]
            && z.results[n] == ResultOf(env.sp, n, x.steps[n], env.exec(n, x.steps[n], x.pad))
            && z.pad == Executed(env, x).pad
  {
    StepNumbered(env, plan, x);
  }

  lemma PadStays(env: Env, x: Exec, pads: seq<seq<Entry>>, k: nat)
    requires |x.results| < |x.steps| && |pads| == |x.results| && k <= |pads|
    ensures PadAt(OneStep(env, x), pads + [x.pad], k) == PadAt(x, pads, k)
  {
  }

  lemma StepPlanned(env: Env, plan: seq<PlanStep>, x: Exec, pads: seq<seq<Entry>>)
    requires |x.results| < |x.steps| && Numbered(plan, x) && |pads| == |x.results| && Planned(env, plan, x, pads)
    requires x.replanned ==> x.kept - 1 in x.attempts
    ensures Planned(env, plan, OneStep(env, x), pads + [x.pad])
  {
    var z, more, n := OneStep(env, x), pads + [x.pad], |x.results|;
    var y := Executed(env, x);
    StepAttempts(env, x);
    StepSteps(env, plan, x);
    assert PadAt(z, more, n + 1) == z.pad == y.pad;
    if x.replanned {
      PadStays(env, x, pads, x.kept);
    }
    if Replans(env, y) {
      assert x.steps == plan && y.steps[n + 1..] == plan[n + 1..];
    }
    forall i | i in z.attempts
      ensures i < |z.results| && i < |plan|
      ensures !(z.replanned && i + 1 == z.kept) ==> var r := Answer(env, plan, z, more, i); r.None? || r.value == []
    {
      if i in x.attempts {
        PadStays(env, x, pads, i + 1);
      }
    }
  }

  // Failures are collected under one key, each behind the earlier ones.
  lemma FailuresCollected(env: Env, x: Exec)
    requires |x.results| < |x.steps| && KeysDistinct(env.sp)
    ensures var i := |x.results|;
            var before, after := Lookup(x.pad, env.sp.failuresKey), Lookup(OneStep(env, x).pad, env.sp.failuresKey);
            match env.exec(i, x.steps[i], x.pad).err
            case None => after == before
            case Some(e) =>
              var line := env.sp.failureLine(i, e);
              after == Truncated(if before == "" then line else env.sp.joined(before, line), SCRATCHPAD_BUDGET)
  {
    var i := |x.results|;
    var o := env.exec(i, x.steps[i], x.pad);
    var noted := if o.err.None? then x.pad else FailureNoted(env.sp, x.pad, i, o.err.value);
    StoreThenLookup(noted, env.sp.key(i), ResultOf(env.sp, i, x.steps[i], o).result, env.sp.failuresKey);
    if o.err.Some? {
      var existing, line := Lookup(x.pad, env.sp.failuresKey), env.sp.failureLine(i, o.err.value);
      StoreThenLookup(x.pad, env.sp.failuresKey, if existing != "" then env.sp.joined(existing, line) else line, env.sp.failuresKey);
    }
  }

  // A run ends after a state that satisfies everything above, complete or cancelled there.
  lemma {:induction false} RunShape(env: Env, plan: seq<PlanStep>, x: Exec, pads: seq<seq<Entry>>)
    returns (y: Exec, all: seq<seq<Entry>>)
    requires Numbered(plan, x) && KeysDistinct(env.sp) && Noted(env.sp, x) && Exact(env, plan, x)
    requires Told(env, x, pads) && Planned(env, plan, x, pads)
    ensures Numbered(plan, y) && Noted(env.sp, y) && Exact(env, plan, y) && Told(env, y, all) && Planned(env, plan, y, all)
    ensures if |y.results| == |y.steps| then Run(env, x) == y
            else env.cancelled(|y.results|).Some? && Run(env, x) == Cancel(env, y)
    decreases !x.replanned, |x.steps| - |x.results|
  {
    if |x.results| >= |x.steps| || env.cancelled(|x.results|).Some? {
      y, all := x, pads;
    } else {
      StepNumbered(env, plan, x);
      StepNoted(env, x);
      StepExact(env, plan, x);
      StepTold(env, plan, x, pads);
      StepPlanned(env, plan, x, pads);
      y, all := RunShape(env, plan, OneStep(env, x), pads + [x.pad]);
    }
  }

  lemma CancelNumbered(env: Env, plan: seq<PlanStep>, y: Exec)
    requires Numbered(plan, y) && |y.results| < |y.steps| && env.cancelled(|y.results|).Some?
    ensures Numbered(plan, Cancel(env, y))
  {
  }

  lemma NumberedBound(plan: seq<PlanStep>, x: Exec)
    requires Numbered(plan, x)
    ensures |x.results| <= |plan| + MAX_REPLAN_STEPS - 1
  {
  }

  // Numbering, descriptions and bounds hold for the returned results, a cancelled one included.
  // Every result but that one is what the execution of its step returned, and a replan is what the
  // planner answered.
  lemma RunGuarantees(env: Env, plan: seq<PlanStep>) returns (y: Exec, pads: seq<seq<Entry>>)
    requires KeysDistinct(env.sp)
    ensures Numbered(plan, y) && Noted(env.sp, y) && Exact(env, plan, y) && Told(env, y, pads) && Planned(env, plan, y, pads)
    ensures var x, n := Run(env, Start(plan)), |y.results|;
            && Numbered(plan, x) && |x.results| <= |plan| + MAX_REPLAN_STEPS - 1
            && (if n == |y.steps| then x == y
                else env.cancelled(n).Some? && x == Cancel(env, y) && |x.results| == n + 1 && x.results[..n] == y.results
                     && !x.results[n].success && x.results[n].result == env.sp.cancelled(env.cancelled(n).value))
  {
    y, pads := RunShape(env, plan, Start(plan), []);
    if |y.results| < |y.steps| {
      CancelNumbered(env, plan, y);
    }
    NumberedBound(plan, Run(env, Start(plan)));
  }

  lemma RunBound(env: Env, plan: seq<PlanStep>)
    requires KeysDistinct(env.sp)
    ensures |Run(env, Start(plan)).results| <= |plan| + MAX_REPLAN_STEPS - 1
  {
    var y, pads := RunGuarantees(env, plan);
  }

  // With the planner's two caps, at most nine results, and nine are possible.
  lemma NineResults(env: Env, raw: seq<PlanStep>)
    requires KeysDistinct(env.sp)
    ensures var plan := Capped(Some(raw), MAX_PLAN_STEPS);
            plan.Some? ==> |Run(env, Start(plan.value)).results| <= 9
  {
    var plan := Capped(Some(raw), MAX_PLAN_STEPS);
    if plan.Some? {
      RunBound(env, plan.value);
    }
  }

  // Once the plan is final and nothing cancels, every step gets a result.
  lemma {:induction false} RunsToEnd(env: Env, x: Exec)
    requires x.replanned && |x.results| <= |x.steps| && forall i: nat :: env.cancelled(i).None?
    ensures |Run(env, x).results| == |x.steps|
    decreases |x.steps| - |x.results|
  {
    if |x.results| < |x.steps| {
      RunsToEnd(env, OneStep(env, x));
    }
  }

  // Six steps of which only the fifth fails, and a planner that answers with four
  function FifthFails(step: PlanStep): Env {
    Env(true, AsWritten(), (i: nat) => None,
        (i: nat, p: PlanStep, pad: seq<Entry>) => Outcome("", if i == 4 then Some("e") else None),
        (i: nat, pad: seq<Entry>, rest: seq<PlanStep>) => Some([step, step, step, step]))
  }

  lemma {:induction false} FifthFailsRuns(step: PlanStep, x: Exec)
    requires x.steps == [step, step, step, step, step, step] && !x.replanned && |x.results| <= 4
    ensures |Run(FifthFails(step), x).results| == 9
    decreases 4 - |x.results|
  {
    var env := FifthFails(step);
    var y := OneStep(env, x);
    assert Run(env, x) == Run(env, y);
    if |x.results| < 4 {
      assert y.results[|x.results|].success;
      FifthFailsRuns(step, y);
    } else {
      var z := Executed(env, x);
      assert Replans(env, z) && Asked(env, z) == Some([step, step, step, step]);
      assert |y.steps| == 9;
      RunsToEnd(env, y);
    }
  }

  lemma NineReached(step: PlanStep)
    ensures |Run(FifthFails(step), Start([step, step, step, step, step, step])).results| == 9
  {
    FifthFailsRuns(step, Start([step, step, step, step, step, step]));
  }
}
