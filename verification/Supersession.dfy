/**
  The superseded_by relation of the memories table and its five writers: contradiction-checked
  saves and their deferred checks (memory/contradiction.go), merges
  (pipelines/consolidate_memory.go), forgotten topics (tools/forget_topic.go) and profile
  writes (memory/save.go).  Transactions run one after the other, but the ids a transaction
  works on were read earlier: any other transaction can come between.  Rows are not deleted.
 */
module Supersession {
  import R = Runs
  import opened Wrappers

  datatype Kind = General | Identity | Archive

  datatype Row = Row(kind: Kind, supersededBy: Option<nat>)

  predicate Active(r: Row) { r.supersededBy.None? }

  // Ids read by one writer: rows that exist, before it inserts its own.
  datatype Job =
    | Checked(candidates: seq<nat>)               // a save, between its search and its write
    | Deferred(newId: nat, candidates: seq<nat>)  // a queued contradiction check
    | Batch(ids: seq<nat>)                        // one consolidation batch
    | Topic(ids: seq<nat>)                        // the matches of a topic

  datatype Table = Table(rows: map<nat, Row>, next: nat, jobs: seq<Job>)

  const Empty := Table(map[], 1, [])

  datatype Act =
    | Search(ids: seq<nat>)
    | ReadBatch(ids: seq<nat>)
    | Match(ids: seq<nat>)
    | Save(job: nat, kind: Kind, chunks: nat, contradicted: seq<nat>, defer: bool)
    | FinishDeferred(job: nat, contradicted: seq<nat>)
    | Merge(job: nat, sources: seq<nat>)
    | Forget(job: nat)
    | WriteProfile
    | Rollback(used: nat)   // a failed transaction still uses up ids

  predicate Subset(xs: seq<nat>, ys: seq<nat>) { forall x :: x in xs ==> x in ys }

  // Searches see active rows; those of saves and consolidation skip the identity rows.
  predicate Sees(t: Table, ids: seq<nat>, identity: bool) {
    forall i :: i in ids ==> i in t.rows && Active(t.rows[i]) && (identity || !t.rows[i].kind.Identity?)
  }

  predicate Enabled(t: Table, a: Act) {
    match a
    case Search(ids) => Sees(t, ids, false)
    case ReadBatch(ids) => Sees(t, ids, false)
    case Match(ids) => Sees(t, ids, true)
    case Save(j, kind, chunks, contradicted, _) =>
      j < |t.jobs| && t.jobs[j].Checked? && chunks > 0 && Subset(contradicted, t.jobs[j].candidates)
    case FinishDeferred(j, contradicted) =>
      j < |t.jobs| && t.jobs[j].Deferred? && Subset(contradicted, t.jobs[j].candidates)
    case Merge(j, sources) =>
      j < |t.jobs| && t.jobs[j].Batch? && |sources| >= 2 && Subset(sources, t.jobs[j].ids)
    case Forget(j) => j < |t.jobs| && t.jobs[j].Topic? && t.jobs[j].ids != []
    case WriteProfile => true
    case Rollback(_) => true
  }

  // UPDATE memories SET superseded_by = to WHERE id in ids [AND superseded_by IS NULL]
  function Update(rows: map<nat, Row>, ids: seq<nat>, to: nat, onlyActive: bool): map<nat, Row> {
    map i | i in rows ::
      if i in ids && (onlyActive ==> Active(rows[i])) then rows[i].(supersededBy := Some(to)) else rows[i]
  }

  // ... WHERE memory_type = 'identity' AND superseded_by IS NULL AND id != to
  function ReplaceProfiles(rows: map<nat, Row>, to: nat): map<nat, Row> {
    map i | i in rows ::
      if rows[i].kind.Identity? && Active(rows[i]) && i != to then rows[i].(supersededBy := Some(to)) else rows[i]
  }

  function Insert(rows: map<nat, Row>, first: nat, count: nat, kind: Kind): (r: map<nat, Row>)
    ensures forall i :: i in r <==> i in rows || first <= i < first + count
    ensures forall i :: i in r ==> r[i] == if first <= i < first + count then Row(kind, None) else rows[i]
    decreases count
  {
    if count == 0 then rows else Insert(rows, first, count - 1, kind)[first + count - 1 := Row(kind, None)]
  }

  function Step(t: Table, a: Act): Table
    requires Enabled(t, a)
  {
    match a
    case Search(ids) => t.(jobs := t.jobs + [Checked(ids)])
    case ReadBatch(ids) => t.(jobs := t.jobs + [Batch(ids)])
    case Match(ids) => t.(jobs := t.jobs + [Topic(ids)])
    case Save(j, kind, chunks, contradicted, defer) =>
      Table(Update(Insert(t.rows, t.next, chunks, kind), contradicted, t.next, false), t.next + chunks,
            if defer then t.jobs + [Deferred(t.next, t.jobs[j].candidates)] else t.jobs)
    case FinishDeferred(j, contradicted) =>
      t.(rows := Update(t.rows, contradicted, t.jobs[j].newId, true))
    case Merge(j, sources) =>
      t.(rows := Update(Insert(t.rows, t.next, 1, General), sources, t.next, true), next := t.next + 1)
    case Forget(j) =>
      t.(rows := Update(Insert(t.rows, t.next, 1, Archive), t.jobs[j].ids, t.next, false), next := t.next + 1)
    case WriteProfile =>
      t.(rows := ReplaceProfiles(Insert(t.rows, t.next, 1, Identity), t.next), next := t.next + 1)
    case Rollback(used) => t.(next := t.next + used)
  }

  function Steps(): (Table, Act) -> Option<Table> {
    (t: Table, a: Act) => if Enabled(t, a) then Some(Step(t, a)) else None
  }

  predicate Runs(t: Table, acts: seq<Act>) { R.Run(Steps(), t, acts).Some? }

  function End(t: Table, acts: seq<Act>): Table
    requires Runs(t, acts)
  {
    R.Run(Steps(), t, acts).value
  }

  ghost predicate Reachable(t: Table) {
    exists acts: seq<Act> :: Runs(Empty, acts) && End(Empty, acts) == t
  }

  // ---------------------------------------------------------------------------
  // Pointers go up
  // ---------------------------------------------------------------------------

  // Every pointer leads to a row with a larger id.
  predicate Ascending(t: Table) {
    forall i :: i in t.rows && t.rows[i].supersededBy.Some? ==>
      i < t.rows[i].supersededBy.value && t.rows[i].supersededBy.value in t.rows
  }

  predicate Known(t: Table, ids: seq<nat>) { forall i :: i in ids ==> i in t.rows }

  predicate JobSound(t: Table, j: Job) {
    match j
    case Checked(ids) => Known(t, ids)
    case Batch(ids) => Known(t, ids)
    case Topic(ids) => Known(t, ids)
    case Deferred(newId, ids) => newId in t.rows && forall i :: i in ids ==> i in t.rows && i < newId
  }

  predicate Inv(t: Table) {
    && (forall i :: i in t.rows ==> i < t.next)
    && Ascending(t)
    && forall j :: j in t.jobs ==> JobSound(t, j)
  }

  lemma RowsKept(t: Table, a: Act)
    requires Enabled(t, a) && Inv(t)
    ensures var u := Step(t, a);
            && t.next <= u.next && (forall i :: i in u.rows ==> i < u.next)
            && (forall i :: i in t.rows ==> i in u.rows) && Ascending(u)
  {
    match a
    case Save(j, _, _, _, _) => assert t.jobs[j] in t.jobs;
    case FinishDeferred(j, _) => assert t.jobs[j] in t.jobs;
    case Merge(j, _) => assert t.jobs[j] in t.jobs;
    case Forget(j) => assert t.jobs[j] in t.jobs;
    case _ =>
  }

  lemma StepKeeps(t: Table, a: Act)
    requires Enabled(t, a) && Inv(t)
    ensures Inv(Step(t, a))
  {
    var u := Step(t, a);
    RowsKept(t, a);
    forall j | j in u.jobs ensures JobSound(u, j) {
      if j in t.jobs {
        assert JobSound(t, j);
      } else if a.Save? {
        assert t.jobs[a.job] in t.jobs && JobSound(t, t.jobs[a.job]);
      }
    }
  }

  // No row disappears or changes kind, no superseded row becomes active again, and a pointer
  // only ever moves to a newer row.
  predicate Grows(t: Table, u: Table) {
    forall i :: i in t.rows ==>
      && i in u.rows && u.rows[i].kind == t.rows[i].kind
      && (t.rows[i].supersededBy.Some? ==>
            u.rows[i].supersededBy.Some? && t.rows[i].supersededBy.value <= u.rows[i].supersededBy.value)
  }

  lemma StepGrows(t: Table, a: Act)
    requires Enabled(t, a) && Inv(t)
    ensures Grows(t, Step(t, a))
  {
  }

  lemma {:induction false} RunKeeps(t: Table, acts: seq<Act>)
    requires Runs(t, acts) && Inv(t)
    ensures Inv(End(t, acts)) && Grows(t, End(t, acts))
    decreases |acts|
  {
    if acts != [] {
      StepKeeps(t, acts[0]);
      StepGrows(t, acts[0]);
      RunKeeps(Step(t, acts[0]), acts[1..]);
    }
  }

  lemma PointersAscend(t: Table)
    requires Reachable(t)
    ensures Inv(t)
  {
    var acts: seq<Act> :| Runs(Empty, acts) && End(Empty, acts) == t;
    RunKeeps(Empty, acts);
  }

  // The relation over one or more steps
  ghost predicate LeadsTo(t: Table, i: nat, k: nat, steps: nat)
    decreases steps
  {
    i in t.rows &&
    if steps == 0 then i == k
    else t.rows[i].supersededBy.Some? && LeadsTo(t, t.rows[i].supersededBy.value, k, steps - 1)
  }

  lemma {:induction false} LeadsUp(t: Table, i: nat, k: nat, steps: nat)
    requires Inv(t) && LeadsTo(t, i, k, steps)
    ensures i + steps <= k < t.next
    decreases steps
  {
    if steps > 0 {
      LeadsUp(t, t.rows[i].supersededBy.value, k, steps - 1);
    }
  }

  // Where a memory's content now lives
  function Survivor(t: Table, i: nat): (k: nat)
    requires Inv(t) && i in t.rows
    ensures k in t.rows && Active(t.rows[k]) && i <= k
    decreases t.next - i
  {
    match t.rows[i].supersededBy
    case None => i
    case Some(j) => Survivor(t, j)
  }

  // Every chain of supersessions is finite and ends in an active memory, and none comes back
  // to where it started.
  lemma ChainsEnd(t: Table, i: nat)
    requires Reachable(t) && i in t.rows
    ensures Inv(t) && exists steps: nat :: LeadsTo(t, i, Survivor(t, i), steps) && i + steps < t.next
    ensures Active(t.rows[Survivor(t, i)])
    ensures forall steps: nat :: LeadsTo(t, i, i, steps) ==> steps == 0
  {
    PointersAscend(t);
    var n := SurvivorSteps(t, i);
    LeadsUp(t, i, Survivor(t, i), n);
    forall steps: nat | LeadsTo(t, i, i, steps) ensures steps == 0 {
      LeadsUp(t, i, i, steps);
    }
  }

  lemma {:induction false} SurvivorSteps(t: Table, i: nat) returns (steps: nat)
    requires Inv(t) && i in t.rows
    ensures LeadsTo(t, i, Survivor(t, i), steps)
    decreases t.next - i
  {
    match t.rows[i].supersededBy
    case None =>
      steps := 0;
    case Some(j) =>
      var n := SurvivorSteps(t, j);
      steps := n + 1;
  }

  // ---------------------------------------------------------------------------
  // Profiles
  // ---------------------------------------------------------------------------

  predicate ActiveProfile(t: Table, i: nat) { i in t.rows && t.rows[i].kind.Identity? && Active(t.rows[i]) }

  ghost predicate AtMostOneProfile(t: Table) {
    forall i, j :: ActiveProfile(t, i) && ActiveProfile(t, j) ==> i == j
  }

  // The saves of a run insert rows of these kinds only.
  predicate Saves(acts: seq<Act>, kinds: set<Kind>) {
    forall a :: a in acts && a.Save? ==> a.kind in kinds
  }

  ghost predicate ReachableWith(kinds: set<Kind>, t: Table) {
    exists acts: seq<Act> :: Runs(Empty, acts) && Saves(acts, kinds) && End(Empty, acts) == t
  }

  // A profile write leaves exactly one active profile, whatever was there before.
  lemma ProfileWriteLeavesOne(t: Table, i: nat)
    requires Inv(t)
    ensures ActiveProfile(Step(t, WriteProfile), i) <==> i == t.next
  {
  }

  lemma StepOneProfile(t: Table, a: Act)
    requires Enabled(t, a) && Inv(t) && AtMostOneProfile(t) && (a.Save? ==> !a.kind.Identity?)
    ensures AtMostOneProfile(Step(t, a))
  {
    var u := Step(t, a);
    if !a.WriteProfile? {
      forall i | ActiveProfile(u, i) ensures ActiveProfile(t, i) {
        StepGrows(t, a);
      }
    }
  }

  lemma {:induction false} RunOneProfile(t: Table, acts: seq<Act>, kinds: set<Kind>)
    requires Runs(t, acts) && Saves(acts, kinds) && Identity !in kinds && Inv(t) && AtMostOneProfile(t)
    ensures AtMostOneProfile(End(t, acts))
    decreases |acts|
  {
    if acts != [] {
      assert acts[0] in acts;
      StepKeeps(t, acts[0]);
      StepOneProfile(t, acts[0]);
      RunOneProfile(Step(t, acts[0]), acts[1..], kinds);
    }
  }

  // At most one profile is active in every run exactly when saves never insert one.
  lemma OneProfileExactly(kinds: set<Kind>)
    ensures (forall t :: ReachableWith(kinds, t) ==> AtMostOneProfile(t)) <==> Identity !in kinds
  {
    if Identity in kinds {
      var save := Save(0, Identity, 2, [], false);
      R.RunSnoc(Steps(), Empty, [], Search([]));
      assert [] + [Search([])] == [Search([])];
      R.RunSnoc(Steps(), Empty, [Search([])], save);
      var t := End(Empty, [Search([])] + [save]);
      assert Saves([Search([])] + [save], kinds);
      assert ReachableWith(kinds, t);
      var rows := Insert(map[], 1, 2, Identity);
      assert 1 in rows && 2 in rows;
      assert ActiveProfile(t, 1) && ActiveProfile(t, 2);
    } else {
      forall t | ReachableWith(kinds, t) ensures AtMostOneProfile(t) {
        var acts: seq<Act> :| Runs(Empty, acts) && Saves(acts, kinds) && End(Empty, acts) == t;
        RunOneProfile(Empty, acts, kinds);
      }
    }
  }

  // The ids of saves, deferred checks and merges are never those of profiles.
  predicate NotProfiles(t: Table, ids: seq<nat>) {
    forall i :: i in ids && i in t.rows ==> !t.rows[i].kind.Identity?
  }

  predicate JobsSpareProfiles(t: Table) {
    forall j :: j in t.jobs ==>
      match j
      case Checked(ids) => NotProfiles(t, ids)
      case Deferred(_, ids) => NotProfiles(t, ids)
      case Batch(ids) => NotProfiles(t, ids)
      case Topic(_) => true
  }

  lemma StepSparesProfiles(t: Table, a: Act)
    requires Enabled(t, a) && Inv(t) && JobsSpareProfiles(t)
    ensures JobsSpareProfiles(Step(t, a))
  {
    var u := Step(t, a);
    StepGrows(t, a);
    forall j | j in u.jobs
      ensures match j
              case Checked(ids) => NotProfiles(u, ids)
              case Deferred(_, ids) => NotProfiles(u, ids)
              case Batch(ids) => NotProfiles(u, ids)
              case Topic(_) => true
    {
      if j in t.jobs {
        assert JobSound(t, j);
      } else if a.Save? {
        assert t.jobs[a.job] in t.jobs && JobSound(t, t.jobs[a.job]);
      }
    }
  }

  lemma {:induction false} RunSparesProfiles(t: Table, acts: seq<Act>)
    requires Runs(t, acts) && Inv(t) && JobsSpareProfiles(t)
    ensures JobsSpareProfiles(End(t, acts))
    decreases |acts|
  {
    if acts != [] {
      StepKeeps(t, acts[0]);
      StepSparesProfiles(t, acts[0]);
      RunSparesProfiles(Step(t, acts[0]), acts[1..]);
    }
  }

  // An active profile is retired by the next profile write, or by a topic that matched it, and
  // by nothing else.
  lemma ProfileRetiredExactly(t: Table, a: Act, i: nat)
    requires Reachable(t) && Enabled(t, a) && ActiveProfile(t, i)
    ensures ActiveProfile(Step(t, a), i) <==> !(a.WriteProfile? || (a.Forget? && i in t.jobs[a.job].ids))
  {
    var acts: seq<Act> :| Runs(Empty, acts) && End(Empty, acts) == t;
    RunKeeps(Empty, acts);
    RunSparesProfiles(Empty, acts);
    if a.Save? || a.FinishDeferred? || a.Merge? {
      assert t.jobs[a.job] in t.jobs;
    }
  }

  // Redirection: only a save or a topic moves a pointer that is already set.
  lemma RedirectedExactly(t: Table, a: Act, i: nat)
    requires Reachable(t) && Enabled(t, a) && i in t.rows && !Active(t.rows[i])
    ensures Step(t, a).rows[i].supersededBy != t.rows[i].supersededBy
            <==> (a.Save? && i in a.contradicted) || (a.Forget? && i in t.jobs[a.job].ids)
  {
    PointersAscend(t);
  }

  // ---------------------------------------------------------------------------
  // What each writer does, row by row
  // ---------------------------------------------------------------------------

  // The rows the writer is about
  predicate Named(t: Table, a: Act, i: nat) {
    match a
    case Save(_, _, _, contradicted, _) => i in contradicted
    case FinishDeferred(_, contradicted) => i in contradicted
    case Merge(_, sources) => i in sources
    case Forget(j) => j < |t.jobs| && t.jobs[j].Topic? && i in t.jobs[j].ids
    case WriteProfile => i in t.rows && t.rows[i].kind == Identity
    case _ => false
  }

  // An active memory is superseded by a step exactly when the writer names it, and then by the row
  // the writer inserts, or by the earlier save's for a deferred check.
  lemma SupersededExactly(t: Table, a: Act, i: nat)
    requires Inv(t) && Enabled(t, a) && i in t.rows && t.rows[i].supersededBy == None
    ensures var u := Step(t, a);
            && i in u.rows && u.rows[i].kind == t.rows[i].kind
            && (u.rows[i].supersededBy.Some? <==> Named(t, a, i))
            && (Named(t, a, i) ==>
                  u.rows[i].supersededBy == Some(if a.FinishDeferred? then t.jobs[a.job].newId else t.next))
  {
    if a.Save? || a.FinishDeferred? || a.Merge? || a.Forget? {
      assert t.jobs[a.job] in t.jobs;
    }
  }

  // The rows a step adds: the chunks of a save, the summary of a merge, the archive of a topic, the
  // new profile.  They are active, and their ids are the next ones.
  lemma AddedExactly(t: Table, a: Act, i: nat)
    requires Inv(t) && Enabled(t, a) && i !in t.rows
    ensures var u := Step(t, a);
            match a
            case Save(_, kind, chunks, _, _) =>
              u.next == t.next + chunks
              && if t.next <= i < t.next + chunks then i in u.rows && u.rows[i] == Row(kind, None) else i !in u.rows
            case Merge(_, _) => u.next == t.next + 1 && if i == t.next then i in u.rows && u.rows[i] == Row(General, None) else i !in u.rows
            case Forget(_) => u.next == t.next + 1 && if i == t.next then i in u.rows && u.rows[i] == Row(Archive, None) else i !in u.rows
            case WriteProfile => u.next == t.next + 1 && if i == t.next then i in u.rows && u.rows[i] == Row(Identity, None) else i !in u.rows
            case Rollback(used) => u.next == t.next + used && i !in u.rows
            case _ => u.next == t.next && i !in u.rows
  {
    if a.Save? || a.Merge? || a.Forget? {
      assert t.jobs[a.job] in t.jobs;
    }
  }

  lemma TwoSteps(t: Table, a: Act, b: Act)
    requires Enabled(t, a) && Enabled(Step(t, a), b)
    ensures Runs(t, [a] + [b]) && End(t, [a] + [b]) == Step(Step(t, a), b)
  {
    R.RunSnoc(Steps(), t, [], a);
    assert [] + [a] == [a];
    R.RunSnoc(Steps(), t, [a], b);
  }

  // From the search to the end of the deferred check: a save supersedes exactly the memories that
  // one of the two checks finds contradicted, and all of them by its first chunk.
  lemma SavePath(t: Table, ids: seq<nat>, kind: Kind, chunks: nat, contradicted: seq<nat>, later: seq<nat>, i: nat)
    requires Inv(t) && Sees(t, ids, false) && Subset(contradicted, ids) && Subset(later, ids) && chunks > 0
    requires i in t.rows && t.rows[i].supersededBy == None
    ensures var n := |t.jobs|;
            var acts := [Search(ids)] + [Save(n, kind, chunks, contradicted, true)] + [FinishDeferred(n + 1, later)];
            && Runs(t, acts) && i in End(t, acts).rows
            && End(t, acts).rows[i].supersededBy == if i in contradicted || i in later then Some(t.next) else None
  {
    var n := |t.jobs|;
    var search, save, finish := Search(ids), Save(n, kind, chunks, contradicted, true), FinishDeferred(n + 1, later);
    var t1 := Step(t, search);
    StepKeeps(t, search);
    TwoSteps(t, search, save);
    var t2 := Step(t1, save);
    StepKeeps(t1, save);
    R.RunSnoc(Steps(), t, [search] + [save], finish);
    SupersededExactly(t1, save, i);
    if i !in contradicted {
      SupersededExactly(t2, finish, i);
    }
  }

  // A consolidation supersedes exactly the sources of its entry, by the summary.
  lemma MergePath(t: Table, ids: seq<nat>, sources: seq<nat>, i: nat)
    requires Inv(t) && Sees(t, ids, false) && Subset(sources, ids) && |sources| >= 2
    requires i in t.rows && t.rows[i].supersededBy == None
    ensures var acts := [ReadBatch(ids)] + [Merge(|t.jobs|, sources)];
            && Runs(t, acts) && i in End(t, acts).rows
            && End(t, acts).rows[i].supersededBy == if i in sources then Some(t.next) else None
  {
    var read, merge := ReadBatch(ids), Merge(|t.jobs|, sources);
    StepKeeps(t, read);
    TwoSteps(t, read, merge);
    SupersededExactly(Step(t, read), merge, i);
  }

  // Forgetting a topic supersedes exactly its matches, by the archive row.
  lemma ForgetPath(t: Table, ids: seq<nat>, i: nat)
    requires Inv(t) && Sees(t, ids, true) && ids != [] && i in t.rows && t.rows[i].supersededBy == None
    ensures var acts := [Match(ids)] + [Forget(|t.jobs|)];
            && Runs(t, acts) && i in End(t, acts).rows
            && End(t, acts).rows[i].supersededBy == if i in ids then Some(t.next) else None
  {
    var found, forget := Match(ids), Forget(|t.jobs|);
    StepKeeps(t, found);
    TwoSteps(t, found, forget);
    SupersededExactly(Step(t, found), forget, i);
  }
}
