/**
  The writers of superseded_by as programs over one table, and the batching loop of
  ConsolidateCore (pipelines/consolidate_memory.go).
 */
module Consolidation {
  import R = Runs
  import opened Messages
  import opened Sums
  import opened Supersession
  import opened Wrappers

  // One entry of memory_merges.  `embedded` and `committed` say whether the calls around the
  // transaction succeed; `blank` whether the merged summary is.
  datatype MemoryMerge = MemoryMerge(sources: seq<nat>, blank: bool, embedded: bool, committed: bool)

  predicate Acceptable(m: MemoryMerge, batch: seq<nat>) {
    |m.sources| >= 2 && !m.blank && Subset(m.sources, batch)
  }

  // What one entry does to the table; a failed transaction uses up one id.
  function MergeAct(m: MemoryMerge, batch: seq<nat>): Option<Act> {
    if !Acceptable(m, batch) || !m.embedded then None
    else if m.committed then Some(Act.Merge(0, m.sources)) else Some(Rollback(1))
  }

  function MergeActs(merges: seq<MemoryMerge>, batch: seq<nat>): seq<Act>
    decreases |merges|
  {
    if merges == [] then []
    else
      var a := MergeAct(merges[|merges| - 1], batch);
      MergeActs(merges[..|merges| - 1], batch) + if a.Some? then [a.value] else []
  }

  function SourcesMerged(m: MemoryMerge, batch: seq<nat>): nat {
    if Acceptable(m, batch) && m.embedded && m.committed then |m.sources| else 0
  }

  function MergedCount(merges: seq<MemoryMerge>, batch: seq<nat>): nat
    decreases |merges|
  {
    if merges == [] then 0
    else MergedCount(merges[..|merges| - 1], batch) + SourcesMerged(merges[|merges| - 1], batch)
  }

  lemma OneMoreMerge(merges: seq<MemoryMerge>, i: nat, batch: seq<nat>)
    requires i < |merges|
    ensures var a := MergeAct(merges[i], batch);
            MergeActs(merges[..i + 1], batch)
            == if a.Some? then MergeActs(merges[..i], batch) + [a.value] else MergeActs(merges[..i], batch)
    ensures MergedCount(merges[..i + 1], batch) == MergedCount(merges[..i], batch) + SourcesMerged(merges[i], batch)
  {
    assert merges[..i + 1][..i] == merges[..i];
  }

  // One more entry, in front of which the run has reached `cur`
  lemma NextMerge(t: Table, cur: Table, merges: seq<MemoryMerge>, i: nat, batch: seq<nat>)
    requires i < |merges| && cur.jobs == [Batch(batch)]
    requires R.Run(Steps(), t, MergeActs(merges[..i], batch)) == Some(cur)
    ensures var a := MergeAct(merges[i], batch);
            && (a.Some? ==> Enabled(cur, a.value))
            && R.Run(Steps(), t, MergeActs(merges[..i + 1], batch)) == Some(if a.Some? then Step(cur, a.value) else cur)
  {
    OneMoreMerge(merges, i, batch);
    var a := MergeAct(merges[i], batch);
    if a.Some? {
      R.RunSnoc(Steps(), t, MergeActs(merges[..i], batch), a.value);
    }
  }

  // The entries that end in a merge: a text, two or more sources, all of the batch, and calls that succeed
  predicate GoesThrough(m: MemoryMerge, batch: seq<nat>) {
    && !m.blank && |m.sources| >= 2 && m.embedded && m.committed
    && forall s :: s in m.sources ==> s in batch
  }

  predicate NamedByOne(merges: seq<MemoryMerge>, batch: seq<nat>, i: nat) {
    exists k :: 0 <= k < |merges| && GoesThrough(merges[k], batch) && i in merges[k].sources
  }

  lemma NamedNext(merges: seq<MemoryMerge>, batch: seq<nat>, i: nat)
    requires merges != []
    ensures var n := |merges| - 1;
            NamedByOne(merges, batch, i)
            <==> NamedByOne(merges[..n], batch, i) || (GoesThrough(merges[n], batch) && i in merges[n].sources)
  {
    var n := |merges| - 1;
    if NamedByOne(merges[..n], batch, i) {
      var k :| 0 <= k < n && GoesThrough(merges[..n][k], batch) && i in merges[..n][k].sources;
      assert GoesThrough(merges[k], batch) && i in merges[k].sources;
    }
    if NamedByOne(merges, batch, i) {
      var k :| 0 <= k < |merges| && GoesThrough(merges[k], batch) && i in merges[k].sources;
      assert k < n ==> merges[..n][k] == merges[k];
    }
  }

  function Weight(batch: seq<nat>): MemoryMerge -> nat {
    (m: MemoryMerge) => if GoesThrough(m, batch) then |m.sources| else 0
  }

  // After a batch an active memory is superseded exactly when an entry that goes through names it;
  // the count is that of the sources of those entries.
  lemma {:induction false} MergedExactly(t: Table, merges: seq<MemoryMerge>, batch: seq<nat>, i: nat)
    requires Inv(t) && t.jobs == [Batch(batch)] && i in t.rows && t.rows[i].supersededBy == None
    ensures Runs(t, MergeActs(merges, batch)) && End(t, MergeActs(merges, batch)).jobs == t.jobs
    ensures i in End(t, MergeActs(merges, batch)).rows
    ensures End(t, MergeActs(merges, batch)).rows[i].supersededBy.Some? <==> NamedByOne(merges, batch, i)
    ensures MergedCount(merges, batch) == Sum(merges, Weight(batch))
    decreases |merges|
  {
    if merges != [] {
      var n := |merges| - 1;
      MergedExactly(t, merges[..n], batch, i);
      var cur := End(t, MergeActs(merges[..n], batch));
      RunKeeps(t, MergeActs(merges[..n], batch));
      NextMerge(t, cur, merges, n, batch);
      NamedNext(merges, batch, i);
      assert merges[..n + 1] == merges && merges == merges[..n] + [merges[n]];
      SumAppend(merges[..n], Weight(batch), merges[n]);
      MergeStep(cur, merges[n], batch, i);
    }
  }

  lemma MergeStep(cur: Table, m: MemoryMerge, batch: seq<nat>, i: nat)
    requires Inv(cur) && cur.jobs == [Batch(batch)] && i in cur.rows
    ensures var a := MergeAct(m, batch);
            && (a.Some? ==> Enabled(cur, a.value))
            && var u := if a.Some? then Step(cur, a.value) else cur;
               && u.jobs == cur.jobs && i in u.rows
               && (u.rows[i].supersededBy.Some? <==>
                     cur.rows[i].supersededBy.Some? || (GoesThrough(m, batch) && i in m.sources))
    ensures SourcesMerged(m, batch) == Weight(batch)(m)
  {
    var a := MergeAct(m, batch);
    if a.Some? {
      if cur.rows[i].supersededBy.None? {
        SupersededExactly(cur, a.value, i);
      } else {
        StepGrows(cur, a.value);
      }
    }
  }

  lemma UpdateOneMore(rows: map<nat, Row>, ids: seq<nat>, id: nat, to: nat, onlyActive: bool)
    ensures Update(Update(rows, ids, to, onlyActive), [id], to, onlyActive) == Update(rows, ids + [id], to, onlyActive)
  {
  }

  class MemoryTable {
    var rows: map<nat, Row>
    var next: nat

    constructor ()
      ensures rows == map[] && next == 1
    {
      rows, next := map[], 1;
    }

    ghost function Value(jobs: seq<Job>): Table
      reads this
    {
      Table(rows, next, jobs)
    }

    method InsertRow(kind: Kind) returns (id: nat)
      modifies this
      ensures id == old(next) && next == old(next) + 1 && rows == old(rows)[id := Row(kind, None)]
    {
      id := next;
      next := next + 1;
      rows := rows[id := Row(kind, None)];
    }

    method InsertChunks(kind: Kind, chunks: nat) returns (firstID: nat)
      requires chunks > 0
      modifies this
      ensures firstID == old(next) && next == old(next) + chunks
      ensures rows == Insert(old(rows), firstID, chunks, kind)
    {
      firstID := InsertRow(kind);
      assert rows == Insert(old(rows), firstID, 1, kind);
      var i := 1;
      while i < chunks
        invariant 1 <= i <= chunks
        invariant next == firstID + i && rows == Insert(old(rows), firstID, i, kind)
      {
        var id := InsertRow(kind);
        i := i + 1;
      }
    }

    method SupersedeEach(ids: seq<nat>, to: nat)
      modifies this`rows
      ensures rows == Update(old(rows), ids, to, false)
    {
      assert rows == Update(rows, [], to, false);
      var k := 0;
      while k < |ids|
        invariant 0 <= k <= |ids| && rows == Update(old(rows), ids[..k], to, false)
      {
        UpdateOneMore(old(rows), ids[..k], ids[k], to, false);
        assert ids[..k] + [ids[k]] == ids[..k + 1];
        rows := Update(rows, [ids[k]], to, false);
        k := k + 1;
      }
      assert ids[..k] == ids;
    }

    // The transaction of a contradiction-checked save: the old memories point to its first chunk.
    method SaveChecked(candidates: seq<nat>, kind: Kind, chunks: nat, contradicted: seq<nat>) returns (firstID: nat)
      requires chunks > 0 && Subset(contradicted, candidates)
      modifies this
      ensures firstID == old(next)
      ensures Value([Checked(candidates)]) == Step(old(Value([Checked(candidates)])), Save(0, kind, chunks, contradicted, false))
    {
      firstID := InsertChunks(kind, chunks);
      SupersedeEach(contradicted, firstID);
    }

    // A queued check reports which candidates contradict; the ones still active are superseded.
    method CompleteDeferred(newId: nat, candidates: seq<nat>, contradicts: nat -> bool) returns (ghost found: seq<nat>)
      modifies this`rows
      ensures forall i :: i in found <==> i in candidates && contradicts(i)
      ensures Subset(found, candidates)
      ensures Value([Deferred(newId, candidates)])
              == Step(old(Value([Deferred(newId, candidates)])), FinishDeferred(0, found))
    {
      found := [];
      assert Update(rows, [], newId, true) == rows;
      var k := 0;
      while k < |candidates|
        invariant 0 <= k <= |candidates|
        invariant forall i :: i in found <==> i in candidates[..k] && contradicts(i)
        invariant rows == Update(old(rows), found, newId, true)
      {
        if contradicts(candidates[k]) {
          UpdateOneMore(old(rows), found, candidates[k], newId, true);
          rows := Update(rows, [candidates[k]], newId, true);
          found := found + [candidates[k]];
        }
        k := k + 1;
      }
    }

    method ForgetTopic(ids: seq<nat>) returns (archiveID: Option<nat>)
      modifies this
      ensures ids == [] ==> archiveID.None? && rows == old(rows) && next == old(next)
      ensures ids != [] ==> archiveID == Some(old(next)) && Value([Topic(ids)]) == Step(old(Value([Topic(ids)])), Forget(0))
    {
      if |ids| == 0 {
        return None;
      }
      var id := InsertRow(Archive);
      assert rows == Insert(old(rows), id, 1, Archive);
      rows := Update(rows, ids, id, false);
      return Some(id);
    }

    method WriteIdentityProfile() returns (newID: nat)
      modifies this
      ensures newID == old(next) && Value([]) == Step(old(Value([])), WriteProfile)
    {
      newID := InsertRow(Identity);
      assert rows == Insert(old(rows), newID, 1, Identity);
      rows := ReplaceProfiles(rows, newID);
    }

    method AllIn(ids: seq<nat>, batch: seq<nat>) returns (valid: bool)
      ensures valid == Subset(ids, batch)
    {
      var k := 0;
      while k < |ids|
        invariant 0 <= k <= |ids| && Subset(ids[..k], batch)
      {
        if ids[k] !in batch {
          return false;
        }
        k := k + 1;
      }
      assert ids[..k] == ids;
      return true;
    }

    method MergeOne(m: MemoryMerge, batch: seq<nat>) returns (merged: nat)
      modifies this
      ensures var t, a := old(Value([Batch(batch)])), MergeAct(m, batch);
              Value([Batch(batch)]) == if a.Some? then Step(t, a.value) else t
      ensures merged == SourcesMerged(m, batch)
    {
      if |m.sources| < 2 || m.blank {
        return 0;
      }
      var valid := AllIn(m.sources, batch);
      if !valid || !m.embedded {
        return 0;
      }
      if !m.committed {
        next := next + 1;
        return 0;
      }
      var newID := InsertRow(General);
      assert rows == Insert(old(rows), newID, 1, General);
      rows := Update(rows, m.sources, newID, true);
      return |m.sources|;
    }

    // applyMemoryMerges on one batch: a run of merges, one per accepted entry, and the number
    // of sources merged.
    method ApplyMerges(merges: seq<MemoryMerge>, batch: seq<nat>) returns (merged: nat)
      modifies this
      ensures Runs(old(Value([Batch(batch)])), MergeActs(merges, batch))
      ensures Value([Batch(batch)]) == End(old(Value([Batch(batch)])), MergeActs(merges, batch))
      ensures merged == MergedCount(merges, batch)
    {
      merged := 0;
      ghost var t := Value([Batch(batch)]);
      var i := 0;
      while i < |merges|
        invariant 0 <= i <= |merges|
        invariant R.Run(Steps(), t, MergeActs(merges[..i], batch)) == Some(Value([Batch(batch)]))
        invariant merged == MergedCount(merges[..i], batch)
      {
        OneMoreMerge(merges, i, batch);
        NextMerge(t, Value([Batch(batch)]), merges, i, batch);
        var n := MergeOne(merges[i], batch);
        merged := merged + n;
        i := i + 1;
      }
      assert merges[..i] == merges;
    }
  }

  // ---------------------------------------------------------------------------
  // Batches
  // ---------------------------------------------------------------------------

  datatype Memory = Memory(id: nat, summary: string)

  // "[id=%d] %s\n"
  function LineLen(m: Memory): nat { |"[id="| + |Decimal(m.id)| + |"] "| + |m.summary| + 1 }

  function PromptLen(ms: seq<Memory>): nat
    decreases |ms|
  {
    if ms == [] then 0 else PromptLen(ms[..|ms| - 1]) + LineLen(ms[|ms| - 1])
  }

  function Ids(ms: seq<Memory>): (r: seq<nat>)
    ensures |r| == |ms| && forall i :: 0 <= i < |ms| ==> r[i] == ms[i].id
  {
    seq(|ms|, (i: nat) requires i < |ms| => ms[i].id)
  }

  // n memories fill a batch: as many as fit, and at least one.
  predicate Fills(remaining: seq<Memory>, budget: nat, n: nat) {
    && 0 < n <= |remaining|
    && (n == 1 || PromptLen(remaining[..n]) <= budget)
    && (n < |remaining| ==> PromptLen(remaining[..n + 1]) > budget)
  }

  lemma {:induction false} PromptLenMonotone(ms: seq<Memory>, a: nat, b: nat)
    requires a <= b <= |ms|
    ensures PromptLen(ms[..a]) <= PromptLen(ms[..b])
    decreases b
  {
    if a < b {
      assert ms[..b][..b - 1] == ms[..b - 1];
      PromptLenMonotone(ms, a, b - 1);
    }
  }

  // The filling is decided by the budget alone.
  lemma FillUnique(remaining: seq<Memory>, budget: nat, n: nat, m: nat)
    requires Fills(remaining, budget, n) && Fills(remaining, budget, m)
    ensures n == m
  {
    if n < m {
      PromptLenMonotone(remaining, n + 1, m);
    } else if m < n {
      PromptLenMonotone(remaining, m + 1, n);
    }
  }

  method FillBatch(remaining: seq<Memory>, budget: nat) returns (batchIDs: seq<nat>, included: nat)
    requires remaining != []
    ensures Fills(remaining, budget, included) && batchIDs == Ids(remaining[..included])
  {
    included, batchIDs := 0, [];
    var used := 0;
    while included < |remaining|
      invariant 0 <= included <= |remaining|
      invariant used == PromptLen(remaining[..included])
      invariant included <= 1 || used <= budget
      invariant batchIDs == Ids(remaining[..included])
    {
      var line := LineLen(remaining[included]);
      assert remaining[..included + 1][..included] == remaining[..included];
      if used + line > budget && included > 0 {
        break;
      }
      used := used + line;
      batchIDs := batchIDs + [remaining[included].id];
      included := included + 1;
    }
  }

  // The reply to one batch: a request error, an apply error, or the number it counts.
  datatype Reply = RequestFailed | ApplyFailed | Applied(counted: bool)

  function Flat(batches: seq<seq<nat>>): seq<nat>
    decreases |batches|
  {
    if batches == [] then [] else Flat(batches[..|batches| - 1]) + batches[|batches| - 1]
  }

  // The room a prompt leaves for memories: at least 500, whatever its fixed part takes of the limit.
  function Budget(maxPromptChars: int, fixedLen: nat): (room: nat)
    ensures room >= 500 && room + fixedLen >= (if maxPromptChars > 0 then maxPromptChars else 50000)
    ensures room > 500 ==> room + fixedLen == if maxPromptChars > 0 then maxPromptChars else 50000
  {
    var promptBudget := if maxPromptChars <= 0 then 50000 else maxPromptChars;
    if promptBudget - fixedLen < 500 then 500 else promptBudget - fixedLen
  }

  // Batch b takes as many of the memories after the earlier batches as its budget allows.
  predicate FilledAt(memories: seq<Memory>, batches: seq<seq<nat>>, b: nat, budget: nat)
    requires b < |batches|
  {
    var done := |Flat(batches[..b])|;
    done <= |memories| && Fills(memories[done..], budget, |batches[b]|)
  }

  predicate Filled(memories: seq<Memory>, batches: seq<seq<nat>>, maxPromptChars: int, fixedLen: nat -> nat) {
    forall b :: 0 <= b < |batches| ==> FilledAt(memories, batches, b, Budget(maxPromptChars, fixedLen(b)))
  }

  lemma FilledMore(
      memories: seq<Memory>, batches: seq<seq<nat>>, batch: seq<nat>, maxPromptChars: int, fixedLen: nat -> nat)
    requires Filled(memories, batches, maxPromptChars, fixedLen)
    requires |Flat(batches)| <= |memories|
    requires Fills(memories[|Flat(batches)|..], Budget(maxPromptChars, fixedLen(|batches|)), |batch|)
    ensures Filled(memories, batches + [batch], maxPromptChars, fixedLen)
    ensures Flat(batches + [batch]) == Flat(batches) + batch
  {
    var more := batches + [batch];
    assert more[..|batches|] == batches;
    forall b | 0 <= b < |batches|
      ensures FilledAt(memories, more, b, Budget(maxPromptChars, fixedLen(b)))
    {
      assert FilledAt(memories, batches, b, Budget(maxPromptChars, fixedLen(b)));
      assert more[..b] == batches[..b];
    }
  }

  // The batches so far cover the first `done` memories.
  predicate Covered(memories: seq<Memory>, batches: seq<seq<nat>>, done: nat, maxPromptChars: int, fixedLen: nat -> nat) {
    done <= |memories| && Flat(batches) == Ids(memories)[..done] && Filled(memories, batches, maxPromptChars, fixedLen)
  }

  lemma NextBatch(memories: seq<Memory>, batches: seq<seq<nat>>, done: nat, batch: seq<nat>, included: nat,
                  maxPromptChars: int, fixedLen: nat -> nat)
    requires Covered(memories, batches, done, maxPromptChars, fixedLen)
    requires done + included <= |memories| && batch == Ids(memories[done..][..included])
    requires Fills(memories[done..], Budget(maxPromptChars, fixedLen(|batches|)), included)
    ensures Covered(memories, batches + [batch], done + included, maxPromptChars, fixedLen)
  {
    FilledMore(memories, batches, batch, maxPromptChars, fixedLen);
    assert Ids(memories)[..done] + batch == Ids(memories)[..done + included];
  }

  // ConsolidateCore on the queried memories.  Every memory goes into exactly one batch, in
  // order, until a batch fails; a failing batch is not counted.
  method ConsolidateCore(memories: seq<Memory>, maxPromptChars: int, fixedLen: nat -> nat, reply: nat -> Reply)
    returns (processed: nat, batches: seq<seq<nat>>, failed: bool)
    ensures Flat(batches) <= Ids(memories)
    ensures Filled(memories, batches, maxPromptChars, fixedLen)
    ensures !failed ==> Flat(batches) == Ids(memories)
    ensures failed <==> exists b :: 0 <= b < |batches| && !reply(b).Applied?
    ensures failed ==> forall b :: 0 <= b < |batches| - 1 ==> reply(b).Applied?
    ensures processed <= |Flat(batches)|
    ensures (forall b :: 0 <= b < |batches| ==> reply(b) == Applied(true)) ==> processed == |memories|
  {
    processed, batches, failed := 0, [], false;
    var remaining := memories;
    ghost var done := 0;
    while |remaining| > 0
      invariant 0 <= done <= |memories| && remaining == memories[done..]
      invariant Covered(memories, batches, done, maxPromptChars, fixedLen)
      invariant !failed && forall b :: 0 <= b < |batches| ==> reply(b).Applied?
      invariant processed <= done
      invariant (forall b :: 0 <= b < |batches| ==> reply(b) == Applied(true)) ==> processed == done
      decreases |remaining|
    {
      var memBudget := Budget(maxPromptChars, fixedLen(|batches|));
      var batchIDs, included := FillBatch(remaining, memBudget);
      NextBatch(memories, batches, done, batchIDs, included, maxPromptChars, fixedLen);
      remaining := remaining[included..];
      done := done + included;
      batches := batches + [batchIDs];
      var r := reply(|batches| - 1);
      if !r.Applied? {
        return processed, batches, true;
      }
      processed := processed + if r.counted then included else 0;
    }
  }
}
