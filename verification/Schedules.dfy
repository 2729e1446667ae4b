/**
  When routines fire: schedule parsing and the due test (routines/schedule.go,
  timefmt/timefmt.go), the due query and the timer (routines/sync.go), and the polling loop
  (engine/routines.go).  Times are integers; a calendar gives the local day of a time and the
  time of an hour and minute of a day.
 */
module Schedules {
  import opened Wrappers
  import opened TextSplit

  // ---------------------------------------------------------------------------
  // Parsing
  // ---------------------------------------------------------------------------

  datatype HourMinute = HourMinute(hour: nat, minute: nat)

  // Subtraction of bytes wraps around.
  function DigitValue(c: char): nat { (c as int - '0' as int) % 256 }

  // timefmt.ParseSchedule
  function ParseSchedule(s: string): Option<HourMinute> {
    if |s| != 5 || s[2] != ':' then None
    else
      var h := DigitValue(s[0]) * 10 + DigitValue(s[1]);
      var m := DigitValue(s[3]) * 10 + DigitValue(s[4]);
      if h > 23 || m > 59 then None else Some(HourMinute(h, m))
  }

  predicate IsDigit(c: char) { '0' <= c <= '9' }

  predicate Bytes(s: string) { forall c :: c in s ==> c as int < 256 }

  // Two digits each: the documented form
  predicate IsHHMM(s: string) {
    |s| == 5 && s[2] == ':' && IsDigit(s[0]) && IsDigit(s[1]) && IsDigit(s[3]) && IsDigit(s[4])
  }

  function TwoDigits(n: nat): string
    requires n < 100
  {
    [('0' as int + n / 10) as char, ('0' as int + n % 10) as char]
  }

  // Every time of day in the documented form parses to itself.
  lemma HHMMParses(h: nat, m: nat)
    requires h < 24 && m < 60
    ensures ParseSchedule(TwoDigits(h) + ":" + TwoDigits(m)) == Some(HourMinute(h, m))
  {
    var s := TwoDigits(h) + ":" + TwoDigits(m);
    assert s[0] == TwoDigits(h)[0] && s[1] == TwoDigits(h)[1] && s[3] == TwoDigits(m)[0] && s[4] == TwoDigits(m)[1];
  }

  // What is accepted has the documented form exactly when its unit characters do not lie above
  // '9': "0::00" is read as ten o'clock.
  lemma AcceptedExactly(s: string)
    requires Bytes(s) && ParseSchedule(s).Some?
    ensures IsHHMM(s) <==> s[1] <= '9' && s[4] <= '9'
  {
    assert s[0] in s && s[1] in s && s[3] in s && s[4] in s;
  }

  lemma ColonIsTen()
    ensures ParseSchedule("0::00") == Some(HourMinute(10, 0))
  {
    assert "0::00"[1] == ':' && "0::00"[3] == '0';
  }

  // ---------------------------------------------------------------------------
  // Lists of schedules
  // ---------------------------------------------------------------------------

  // strings.Split(s, ",")
  function Split(s: string): (r: seq<string>)
    ensures r != []
    decreases |s|
  {
    if s == "" then [""]
    else
      var front := Split(s[..|s| - 1]);
      var c := s[|s| - 1];
      if c == ',' then front + [""] else Grown(front, c)
  }

  // One more byte of the last part
  function Grown(parts: seq<string>, c: char): (r: seq<string>)
    requires parts != []
    ensures r != []
  {
    parts[..|parts| - 1] + [parts[|parts| - 1] + [c]]
  }

  // strings.Join(ss, ",")
  function Join(ss: seq<string>): string
    decreases |ss|
  {
    if ss == [] then "" else if |ss| == 1 then ss[0] else Join(ss[..|ss| - 1]) + "," + ss[|ss| - 1]
  }

  function Entry(): string -> Option<string> {
    (p: string) => if TrimSpace(p) != "" then Some(TrimSpace(p)) else None
  }

  function Entries(parts: seq<string>): seq<string> { KeepSome(Entry(), parts) }

  method ParseSchedules(s: string) returns (result: seq<string>)
    ensures result == Entries(Split(s))
  {
    result := [];
    if s == "" {
      assert [""][..0] == [] && Entries([""]) == [];
      return;
    }
    var parts := Split(s);
    var i := 0;
    while i < |parts|
      invariant 0 <= i <= |parts|
      invariant result == Entries(parts[..i])
    {
      assert parts[..i + 1][..i] == parts[..i];
      var p := TrimSpace(parts[i]);
      if p != "" {
        result := result + [p];
      }
      i := i + 1;
    }
    assert parts[..i] == parts;
  }

  lemma GrownConcat(a: seq<string>, b: seq<string>, c: char)
    requires b != []
    ensures Grown(a + b, c) == a + Grown(b, c)
    ensures (a + b) + [""] == a + (b + [""])
  {
    assert (a + b)[..|a + b| - 1] == a + b[..|b| - 1];
  }

  lemma SplitSnoc(s: string, c: char)
    ensures Split(s + [c]) == if c == ',' then Split(s) + [""] else Grown(Split(s), c)
  {
    assert (s + [c])[..|s|] == s;
  }

  lemma SplitStep(t: string, parts: seq<string>, front: string, c: char)
    requires Split(t + front) == parts + Split(front)
    ensures Split(t + front + [c]) == parts + Split(front + [c])
  {
    SplitSnoc(t + front, c);
    SplitSnoc(front, c);
    GrownConcat(parts, Split(front), c);
  }

  // Text after a comma splits on its own.
  lemma {:induction false} SplitAfter(t: string, parts: seq<string>, b: string)
    requires Split(t) == parts + [""]
    ensures Split(t + b) == parts + Split(b)
    decreases |b|
  {
    if b == "" {
      assert t + b == t;
    } else {
      var front, c := b[..|b| - 1], b[|b| - 1];
      SplitAfter(t, parts, front);
      SplitStep(t, parts, front, c);
      assert front + [c] == b;
      assert t + front + [c] == t + b;
    }
  }

  lemma SplitConcat(a: string, b: string)
    ensures Split(a + "," + b) == Split(a) + Split(b)
  {
    SplitSnoc(a, ',');
    assert a + "," == a + [','];
    SplitAfter(a + ",", Split(a), b);
  }

  lemma {:induction false} SplitPlain(s: string)
    requires ',' !in s
    ensures Split(s) == [s]
    decreases |s|
  {
    if s != "" {
      var front, c := s[..|s| - 1], s[|s| - 1];
      assert s == front + [c];
      SplitPlain(front);
      SplitSnoc(front, c);
      assert Grown([front], c) == [front + [c]];
    }
  }

  lemma JoinSnoc(front: seq<string>, p: string)
    ensures Join(front + [p]) == if front == [] then p else Join(front) + "," + p
  {
    assert (front + [p])[..|front|] == front;
  }

  lemma {:induction false} SplitJoin(ss: seq<string>)
    requires ss != [] && forall p :: p in ss ==> ',' !in p
    ensures Split(Join(ss)) == ss
    decreases |ss|
  {
    var front, p := ss[..|ss| - 1], ss[|ss| - 1];
    assert p in ss && forall q :: q in front ==> q in ss;
    JoinSnoc(front, p);
    assert ss == front + [p];
    SplitPlain(p);
    if front != [] {
      SplitJoin(front);
      SplitConcat(Join(front), p);
    }
  }

  // What the parts of a list come to: each one trimmed, in order, the empty ones left out
  lemma EntriesExactly(a: seq<string>, p: string, b: seq<string>)
    ensures Entries(a + [p] + b) == Entries(a) + (if TrimSpace(p) == "" then [] else [TrimSpace(p)]) + Entries(b)
  {
    KeepConcat(Entry(), a + [p], b);
    KeepSnoc(Entry(), a, p);
  }

  predicate Clean(p: string) { p != "" && TrimSpace(p) == p && ',' !in p }

  // A list stored by NormalizeSchedule comes back as its trimmed, non-empty entries.
  lemma StoredSchedulesReturn(ss: seq<string>)
    requires forall p :: p in ss ==> ',' !in p
    ensures Entries(Split(Join(ss))) == Entries(ss)
  {
    if ss == [] {
      assert [""][..0] == [] && Entries([""]) == [];
    } else {
      SplitJoin(ss);
    }
  }

  // A list of clean schedules comes back as it was.
  lemma CleanSchedulesReturn(ss: seq<string>)
    requires forall p :: p in ss ==> Clean(p)
    ensures Entries(Split(Join(ss))) == ss
  {
    StoredSchedulesReturn(ss);
    KeepAll(Entry(), ss);
  }

  // ---------------------------------------------------------------------------
  // Due
  // ---------------------------------------------------------------------------

  datatype Calendar = Calendar(day: int -> int, at: (int, HourMinute) -> int)

  // The target of schedule s on the day of `now`
  function Target(c: Calendar, s: string, day: int): Option<int> {
    var p := ParseSchedule(s);
    if p.Some? then Some(c.at(day, p.value)) else None
  }

  predicate Between(t: Option<int>, last: int, now: int) { t.Some? && now > t.value && last < t.value }

  predicate ScheduleDue(c: Calendar, schedules: seq<string>, now: int, last: int) {
    exists i :: 0 <= i < |schedules| && Between(Target(c, schedules[i], c.day(now)), last, now)
  }

  method IsScheduleDue(c: Calendar, schedules: seq<string>, now: int, lastExecuted: int) returns (due: bool)
    ensures due == ScheduleDue(c, schedules, now, lastExecuted)
    ensures due <==> exists i :: 0 <= i < |schedules| && ParseSchedule(schedules[i]).Some?
                       && lastExecuted < c.at(c.day(now), ParseSchedule(schedules[i]).value) < now
  {
    var i := 0;
    while i < |schedules|
      invariant 0 <= i <= |schedules|
      invariant forall k :: 0 <= k < i ==> !Between(Target(c, schedules[k], c.day(now)), lastExecuted, now)
    {
      var hm := ParseSchedule(schedules[i]);
      if hm.None? {
        i := i + 1;
        continue;
      }
      var todayTarget := c.at(c.day(now), hm.value);
      if now > todayTarget && lastExecuted < todayTarget {
        return true;
      }
      i := i + 1;
    }
    return false;
  }

  // ---------------------------------------------------------------------------
  // Polling
  // ---------------------------------------------------------------------------

  // One poll as one routine sees it: whether its interval has elapsed, and the time its timer
  // is advanced to if it is due (None when the update fails, and then it is not executed).
  datatype Poll = Poll(now: int, intervalDue: bool, advance: Option<int>)

  predicate Executes(c: Calendar, schedules: seq<string>, last: int, p: Poll) {
    (p.intervalDue || ScheduleDue(c, schedules, p.now, last)) && p.advance.Some?
  }

  function NextLast(c: Calendar, schedules: seq<string>, last: int, p: Poll): int {
    if Executes(c, schedules, last, p) then p.advance.value else last
  }

  // last_executed after the polls
  function Last(c: Calendar, schedules: seq<string>, last: int, polls: seq<Poll>): int
    decreases |polls|
  {
    if polls == [] then last
    else NextLast(c, schedules, Last(c, schedules, last, polls[..|polls| - 1]), polls[|polls| - 1])
  }

  predicate ExecutedAt(c: Calendar, schedules: seq<string>, last: int, polls: seq<Poll>, k: nat)
    requires k < |polls|
  {
    Executes(c, schedules, Last(c, schedules, last, polls[..k]), polls[k])
  }

  // Polls happen one after the other; a timer is advanced after its poll and before the next.
  predicate Timeline(last: int, polls: seq<Poll>) {
    && (forall k :: 0 <= k < |polls| ==> last <= polls[k].now)
    && (forall k :: 0 <= k < |polls| && polls[k].advance.Some? ==> polls[k].now <= polls[k].advance.value)
    && (forall j, k :: 0 <= j < k < |polls| ==>
          polls[j].now < polls[k].now && (polls[j].advance.Some? ==> polls[j].advance.value <= polls[k].now))
  }

  // last_executed is the advance of the last execution, or what it was at first.
  lemma {:induction false} LastIsExecution(c: Calendar, schedules: seq<string>, last: int, polls: seq<Poll>)
    returns (j: int)
    requires Timeline(last, polls)
    ensures last <= Last(c, schedules, last, polls) && -1 <= j < |polls|
    ensures j >= 0 ==> ExecutedAt(c, schedules, last, polls, j)
    ensures Last(c, schedules, last, polls) == if j < 0 then last else polls[j].advance.value
    decreases |polls|
  {
    if polls == [] {
      j := -1;
    } else {
      var n := |polls| - 1;
      var front := polls[..n];
      if Executes(c, schedules, Last(c, schedules, last, front), polls[n]) {
        j := n;
      } else {
        j := LastIsExecution(c, schedules, last, front);
        assert j >= 0 ==> polls[..j] == front[..j];
      }
    }
  }

  // When a poll comes after a target of its day and the timer can be advanced, then by the end
  // of that poll the routine has been executed at or after the target, unless last_executed
  // was past the target to begin with.
  lemma FiresAfterTarget(c: Calendar, schedules: seq<string>, last: int, polls: seq<Poll>, k: nat, i: nat)
    requires Timeline(last, polls) && k < |polls| && i < |schedules| && polls[k].advance.Some?
    requires var t := Target(c, schedules[i], c.day(polls[k].now)); t.Some? && last < t.value < polls[k].now
    ensures exists j :: 0 <= j <= k && ExecutedAt(c, schedules, last, polls, j)
              && Target(c, schedules[i], c.day(polls[k].now)).value <= polls[j].advance.value
  {
    var t := Target(c, schedules[i], c.day(polls[k].now)).value;
    var before := polls[..k];
    var j := LastIsExecution(c, schedules, last, before);
    var l := Last(c, schedules, last, before);
    if l < t {
      assert Between(Target(c, schedules[i], c.day(polls[k].now)), l, polls[k].now);
      assert ExecutedAt(c, schedules, last, polls, k);
    } else {
      assert polls[..j] == before[..j];
      assert ExecutedAt(c, schedules, last, polls, j);
    }
  }

  // The distinct targets of a day
  function Targets(c: Calendar, schedules: seq<string>, day: int): set<int> {
    set i | 0 <= i < |schedules| && Target(c, schedules[i], day).Some? :: Target(c, schedules[i], day).value
  }

  function PassedTargets(c: Calendar, schedules: seq<string>, day: int, l: int): set<int> {
    set t | t in Targets(c, schedules, day) && t < l
  }

  // Executions at polls of a day that no interval asked for
  function ScheduleFires(c: Calendar, schedules: seq<string>, last: int, polls: seq<Poll>, day: int): nat
    decreases |polls|
  {
    if polls == [] then 0
    else
      var front, p := polls[..|polls| - 1], polls[|polls| - 1];
      ScheduleFires(c, schedules, last, front, day)
      + if c.day(p.now) == day && !p.intervalDue && Executes(c, schedules, Last(c, schedules, last, front), p) then 1 else 0
  }

  lemma {:induction false} FiresUseTargets(c: Calendar, schedules: seq<string>, last: int, polls: seq<Poll>, day: int)
    requires Timeline(last, polls)
    ensures ScheduleFires(c, schedules, last, polls, day)
            <= |PassedTargets(c, schedules, day, Last(c, schedules, last, polls))|
    decreases |polls|
  {
    if polls != [] {
      var front, p := polls[..|polls| - 1], polls[|polls| - 1];
      FiresUseTargets(c, schedules, last, front, day);
      var j := LastIsExecution(c, schedules, last, front);
      var l, l' := Last(c, schedules, last, front), Last(c, schedules, last, polls);
      var before, after := PassedTargets(c, schedules, day, l), PassedTargets(c, schedules, day, l');
      assert l <= p.now;
      assert before <= after;
      Smaller(before, after);
      if c.day(p.now) == day && !p.intervalDue && Executes(c, schedules, l, p) {
        var i :| 0 <= i < |schedules| && Between(Target(c, schedules[i], day), l, p.now);
        var t := Target(c, schedules[i], day).value;
        assert t in Targets(c, schedules, day) && t in after && t !in before;
        Smaller(before + {t}, after);
      }
    }
  }

  lemma Smaller(a: set<int>, b: set<int>)
    requires a <= b
    ensures |a| <= |b|
  {
    assert b == a + (b - a);
  }

  // On any day the schedules alone cause at most one execution for each distinct target.
  lemma FiresBounded(c: Calendar, schedules: seq<string>, last: int, polls: seq<Poll>, day: int)
    requires Timeline(last, polls)
    ensures ScheduleFires(c, schedules, last, polls, day) <= |Targets(c, schedules, day)|
  {
    FiresUseTargets(c, schedules, last, polls, day);
    Smaller(PassedTargets(c, schedules, day, Last(c, schedules, last, polls)), Targets(c, schedules, day));
  }

  // ---------------------------------------------------------------------------
  // The routine table
  // ---------------------------------------------------------------------------

  datatype Routine = Routine(id: nat, interval: Option<nat>, schedules: seq<string>, last: int)

  predicate IntervalDue(r: Routine, now: int) { r.interval.Some? && r.last + r.interval.value <= now }

  predicate Due(c: Calendar, r: Routine, now: int) { IntervalDue(r, now) || ScheduleDue(c, r.schedules, now, r.last) }

  class RoutineTable {
    const rows: array<Routine>

    constructor (rows: array<Routine>)
      ensures this.rows == rows
    {
      this.rows := rows;
    }

    // executeDueRoutines: the due rows are found first, then each has its timer advanced and is
    // executed; advance says when, or None if the update fails.
    method ExecuteDue(c: Calendar, now: int, advance: nat -> Option<int>) returns (executed: seq<nat>)
      modifies rows
      ensures forall i: nat :: i < rows.Length ==>
                rows[i] == old(rows[i]).(last := NextLast(c, old(rows[i]).schedules, old(rows[i]).last,
                                                          Poll(now, IntervalDue(old(rows[i]), now), advance(i))))
      ensures forall i: nat :: i in executed <==> i < rows.Length && Due(c, old(rows[i]), now) && advance(i).Some?
    {
      var due: seq<nat> := QueryDue(c, now);
      executed := [];
      var k := 0;
      while k < |due|
        invariant 0 <= k <= |due|
        invariant forall i: nat :: i in executed <==> i in due[..k] && advance(i).Some?
        invariant forall i: nat :: i < rows.Length ==>
                    rows[i] == if i in due[..k] && advance(i).Some? then old(rows[i]).(last := advance(i).value) else old(rows[i])
      {
        var i := due[k];
        assert i in due && i !in due[..k];
        assert due[..k + 1] == due[..k] + [i];
        var a := advance(i);
        if a.Some? {
          rows[i] := rows[i].(last := a.value);
          executed := executed + [i];
        }
        k := k + 1;
      }
      assert due[..k] == due;
    }

    method QueryDue(c: Calendar, now: int) returns (due: seq<nat>)
      ensures forall i: nat :: i in due <==> i < rows.Length && Due(c, rows[i], now)
      ensures forall j, k :: 0 <= j < k < |due| ==> due[j] < due[k]
    {
      due := [];
      var i := 0;
      while i < rows.Length
        invariant 0 <= i <= rows.Length
        invariant forall j: nat :: j in due <==> j < i && Due(c, rows[j], now)
        invariant forall j, k :: 0 <= j < k < |due| ==> due[j] < due[k]
      {
        var scheduleDue := false;
        if |rows[i].schedules| > 0 {
          scheduleDue := IsScheduleDue(c, rows[i].schedules, now, rows[i].last);
        }
        if IntervalDue(rows[i], now) || scheduleDue {
          assert forall j :: 0 <= j < |due| ==> due[j] in due;
          due := due + [i];
        }
        i := i + 1;
      }
    }
  }

  // ---------------------------------------------------------------------------
  // Intervals
  // ---------------------------------------------------------------------------

  // One poll of one row: the time, and what its timer is advanced to
  datatype Tick = Tick(now: int, advance: Option<int>)

  function PollOf(r: Routine, tick: Tick): Poll { Poll(tick.now, IntervalDue(r, tick.now), tick.advance) }

  predicate Fires(c: Calendar, r: Routine, tick: Tick) { Executes(c, r.schedules, r.last, PollOf(r, tick)) }

  function RowAfter(c: Calendar, r: Routine, ticks: seq<Tick>): Routine
    decreases |ticks|
  {
    if ticks == [] then r
    else
      var before := RowAfter(c, r, ticks[..|ticks| - 1]);
      before.(last := NextLast(c, before.schedules, before.last, PollOf(before, ticks[|ticks| - 1])))
  }

  // What decides a poll of a row: its interval, counted from the last execution, or a schedule.
  lemma FiresExactly(c: Calendar, r: Routine, tick: Tick)
    ensures var over := r.interval.Some? && tick.now >= r.last + r.interval.value;
            Fires(c, r, tick) <==> tick.advance.Some? && (over || ScheduleDue(c, r.schedules, tick.now, r.last))
  {
  }

  // While no schedule is due, a routine with an interval is executed by the first poll at or after
  // the end of its interval and by none before, and its timer then stands where that poll put it.
  lemma {:induction false} FirstPollAfterInterval(c: Calendar, r: Routine, ticks: seq<Tick>, tick: Tick)
    requires r.interval.Some? && tick.now >= r.last + r.interval.value && tick.advance.Some?
    requires forall t :: t in ticks ==> t.now < r.last + r.interval.value && !ScheduleDue(c, r.schedules, t.now, r.last)
    ensures RowAfter(c, r, ticks) == r && forall t :: t in ticks ==> !Fires(c, r, t)
    ensures Fires(c, r, tick) && RowAfter(c, r, ticks + [tick]) == r.(last := tick.advance.value)
    decreases |ticks|
  {
    if ticks != [] {
      var front, t := ticks[..|ticks| - 1], ticks[|ticks| - 1];
      assert forall u :: u in front ==> u in ticks;
      FirstPollAfterInterval(c, r, front, tick);
    }
    assert (ticks + [tick])[..|ticks|] == ticks;
  }

  // One pass over the table is one such poll of every row.
  lemma TableTicks(c: Calendar, r: Routine, tick: Tick)
    ensures RowAfter(c, r, [tick]) == r.(last := NextLast(c, r.schedules, r.last, Poll(tick.now, IntervalDue(r, tick.now), tick.advance)))
  {
    assert [tick][..0] == [];
  }
}
