/**
  The shared conversation window: trimming for one request (engine/trim.go), sliding with
  archival (engine/slide.go, engine/state.go) and condensing (condense.go).

  Whether an assistant text is a JSON tool call, and the tool name in it, are parameters; the
  fingerprint is the sequence of roles and contents.
 */
module Conversation {
  import opened Wrappers
  import opened Messages

  predicate IsToolMessage(m: Message) { IsToolText(m.role, m.content) }

  predicate IsCall(m: Message, isCall: string -> bool) { m.role == "assistant" && isCall(m.content) }

  // Every recognised tool result directly follows its call.
  predicate Paired(ms: seq<Message>, isCall: string -> bool) {
    forall i :: 0 <= i < |ms| && IsToolMessage(ms[i]) ==> i > 0 && IsCall(ms[i - 1], isCall)
  }

  // The list with positions 1 to cut - 1 removed: what trimming and sliding both do.
  function CutAt(ms: seq<Message>, cut: nat): seq<Message>
    requires 1 <= cut <= |ms|
  {
    [ms[0]] + ms[cut..]
  }

  // Cutting keeps pairs together exactly when the first kept message is not a result.
  lemma CutPairedExactly(ms: seq<Message>, cut: nat, isCall: string -> bool)
    requires Paired(ms, isCall) && 2 <= cut < |ms| && !IsCall(ms[0], isCall)
    ensures Paired(CutAt(ms, cut), isCall) <==> !IsToolMessage(ms[cut])
  {
    var r := CutAt(ms, cut);
    if IsToolMessage(ms[cut]) {
      assert r[1] == ms[cut] && r[0] == ms[0];
    } else {
      forall i | 0 <= i < |r| && IsToolMessage(r[i]) ensures i > 0 && IsCall(r[i - 1], isCall) {
        if i >= 2 {
          assert r[i] == ms[cut + i - 1] && r[i - 1] == ms[cut + i - 2];
        }
      }
    }
  }

  // ---------------------------------------------------------------------------
  // TrimMessages
  // ---------------------------------------------------------------------------

  // The last position at or before k, but not before 1, that does not hold a tool result.
  function BackUp(ms: seq<Message>, k: nat): (c: nat)
    requires 1 <= k < |ms|
    ensures 1 <= c <= k && (c == 1 || !IsToolMessage(ms[c]))
    ensures forall j :: c < j <= k ==> IsToolMessage(ms[j])
  {
    if k > 1 && IsToolMessage(ms[k]) then BackUp(ms, k - 1) else k
  }

  function Trimmed(ms: seq<Message>, maxTail: nat): seq<Message>
    requires maxTail >= 1 || |ms| <= 1
  {
    if |ms| <= maxTail + 1 then ms else CutAt(ms, BackUp(ms, |ms| - maxTail))
  }

  // With a tail of zero the source indexes past the end of any list of two or more.
  method TrimMessages(messages: seq<Message>, maxTail: nat) returns (trimmed: seq<Message>)
    requires maxTail >= 1 || |messages| <= 1
    ensures trimmed == Trimmed(messages, maxTail)
  {
    if |messages| <= maxTail + 1 {
      return messages;
    }
    var cutoff := if 1 < |messages| - maxTail then |messages| - maxTail else 1;
    while cutoff > 1 && IsToolMessage(messages[cutoff])
      invariant 1 <= cutoff < |messages|
      invariant BackUp(messages, cutoff) == BackUp(messages, |messages| - maxTail)
    {
      cutoff := cutoff - 1;
    }
    return [messages[0]] + messages[cutoff..];
  }

  // The window keeps the head and at least the last maxTail messages, never splits a pair, and
  // trimming again changes nothing.
  lemma TrimKeepsPairs(ms: seq<Message>, maxTail: nat, isCall: string -> bool)
    requires maxTail >= 1 && Paired(ms, isCall)
    ensures Paired(Trimmed(ms, maxTail), isCall)
    ensures |ms| > maxTail ==> (|Trimmed(ms, maxTail)| >= maxTail
              && Trimmed(ms, maxTail)[|Trimmed(ms, maxTail)| - maxTail..] == ms[|ms| - maxTail..])
  {
    if |ms| > maxTail + 1 {
      var c := BackUp(ms, |ms| - maxTail);
      var r := CutAt(ms, c);
      forall i | 0 <= i < |r| && IsToolMessage(r[i]) ensures i > 0 && IsCall(r[i - 1], isCall) {
        if i >= 2 {
          assert r[i] == ms[c + i - 1] && r[i - 1] == ms[c + i - 2];
        } else if i == 1 {
          assert r[1] == ms[c] && c == 1;
        }
      }
    }
  }

  lemma {:induction false} BackUpShift(ms: seq<Message>, r: seq<Message>, c: nat, k: nat)
    requires 1 <= c <= k < |ms| && r == CutAt(ms, c)
    requires forall j :: c < j <= k ==> IsToolMessage(ms[j])
    ensures BackUp(r, k - c + 1) == 1
    decreases k
  {
    if k > c {
      assert r[k - c + 1] == ms[k];
      BackUpShift(ms, r, c, k - 1);
    }
  }

  lemma TrimIdempotent(ms: seq<Message>, maxTail: nat)
    requires maxTail >= 1
    ensures Trimmed(Trimmed(ms, maxTail), maxTail) == Trimmed(ms, maxTail)
  {
    if |ms| > maxTail + 1 {
      var k := |ms| - maxTail;
      var c := BackUp(ms, k);
      var r := CutAt(ms, c);
      if |r| > maxTail + 1 {
        BackUpShift(ms, r, c, k);
        assert CutAt(r, 1) == r;
      }
    }
  }

  // Trimming to this tail keeps message i as the first one behind the head, without the call
  // before it.
  predicate Splits(ms: seq<Message>, maxTail: nat, i: nat) {
    maxTail >= 1 && |ms| > maxTail + 1 && 2 <= i < |ms| && Trimmed(ms, maxTail) == CutAt(ms, i)
  }

  predicate ReadsAsResult(m: Message) {
    m.role == "tool" || (m.role == "user" && ("Tool result:" <= m.content || "Tool error:" <= m.content))
  }

  // In any window, a message behind the first one is cut off from its predecessor by some tail
  // exactly when it is not recognised as a tool message.
  lemma SplitExactly(ms: seq<Message>, i: nat)
    requires 2 <= i < |ms|
    ensures (exists maxTail :: Splits(ms, maxTail, i)) <==> !ReadsAsResult(ms[i])
  {
    if IsToolMessage(ms[i]) {
      forall maxTail: nat ensures !Splits(ms, maxTail, i) {
        if maxTail >= 1 && |ms| > maxTail + 1 {
          var c := BackUp(ms, |ms| - maxTail);
          assert c != i && |CutAt(ms, c)| != |CutAt(ms, i)|;
        }
      }
    } else {
      assert BackUp(ms, i) == i;
      assert Splits(ms, |ms| - i, i);
    }
  }

  // A result is never separated from its call, in any window and by any tail, exactly when it is
  // recognised.
  lemma NeverSplitExactly(r: Message)
    ensures (forall ms: seq<Message>, maxTail: nat, i: nat :: Splits(ms, maxTail, i) ==> ms[i] != r) <==> ReadsAsResult(r)
  {
    if IsToolMessage(r) {
      forall ms: seq<Message>, maxTail: nat, i: nat | Splits(ms, maxTail, i) ensures ms[i] != r {
        SplitExactly(ms, i);
      }
    } else {
      var ms := [r, r, r];
      SplitExactly(ms, 2);
      var maxTail :| Splits(ms, maxTail, 2);
      assert ms[2] == r;
    }
  }

  // ---------------------------------------------------------------------------
  // The slide cutoff
  // ---------------------------------------------------------------------------

  predicate SafeBoundary(m: Message, isCall: string -> bool) {
    if m.role == "user" then !IsToolMessage(m)
    else m.role == "assistant" && !isCall(m.content)
  }

  // Panic: an index or slice bound is out of range.
  datatype Cutoff = Safe(i: nat) | Forced(i: nat) | Panic

  // The last safe position in 2..k.
  function LastSafe(ms: seq<Message>, isCall: string -> bool, k: int): (r: Option<nat>)
    requires k < |ms|
    ensures r.Some? ==> 2 <= r.value <= k && SafeBoundary(ms[r.value], isCall)
    ensures r.Some? ==> forall j :: r.value < j <= k ==> !SafeBoundary(ms[j], isCall)
    ensures r.None? ==> forall j :: 2 <= j <= k ==> !SafeBoundary(ms[j], isCall)
    decreases k
  {
    if k < 2 then None
    else if SafeBoundary(ms[k], isCall) then Some(k)
    else LastSafe(ms, isCall, k - 1)
  }

  // The first safe position in k..|ms| - 2.
  function FirstSafe(ms: seq<Message>, isCall: string -> bool, k: nat): (r: Option<nat>)
    ensures r.Some? ==> k <= r.value < |ms| - 1 && SafeBoundary(ms[r.value], isCall)
    ensures r.Some? ==> forall j :: k <= j < r.value ==> !SafeBoundary(ms[j], isCall)
    ensures r.None? ==> forall j :: k <= j < |ms| - 1 ==> !SafeBoundary(ms[j], isCall)
    decreases |ms| - k
  {
    if k >= |ms| - 1 then None
    else if SafeBoundary(ms[k], isCall) then Some(k)
    else FirstSafe(ms, isCall, k + 1)
  }

  function FindCut(ms: seq<Message>, isCall: string -> bool, maxMessages: nat): Cutoff
    requires maxMessages >= 1
  {
    var naive := |ms| - maxMessages;
    var back := LastSafe(ms, isCall, naive);
    if back.Some? then Safe(back.value)
    else if naive < -1 then Panic
    else
      var ahead := FirstSafe(ms, isCall, naive + 1);
      if ahead.Some? && ahead.value > 1 then Safe(ahead.value)
      else if naive >= 1 then Forced(naive)
      else Panic
  }

  // The cutoff search of SlideAndArchiveContext, on a snapshot.
  method FindCutoff(msgs: seq<Message>, isCall: string -> bool, maxMessages: nat) returns (r: Cutoff)
    requires maxMessages >= 1
    ensures r == FindCut(msgs, isCall, maxMessages)
  {
    var naiveCutoff := |msgs| - maxMessages;
    var safeIndex := -1;

    var i := naiveCutoff;
    while i > 1
      invariant i <= naiveCutoff
      invariant safeIndex == -1
      invariant i >= 1 || i == naiveCutoff
      invariant LastSafe(msgs, isCall, naiveCutoff) == LastSafe(msgs, isCall, i)
    {
      if SafeBoundary(msgs[i], isCall) {
        safeIndex := i;
        break;
      }
      i := i - 1;
    }
    assert safeIndex <= 1 ==> LastSafe(msgs, isCall, naiveCutoff).None?;

    if safeIndex <= 1 {
      i := naiveCutoff + 1;
      while i < |msgs| - 1
        invariant i >= naiveCutoff + 1 && safeIndex == -1
        invariant naiveCutoff >= -1 ==> FirstSafe(msgs, isCall, naiveCutoff + 1) == FirstSafe(msgs, isCall, i)
        invariant naiveCutoff < -1 ==> i == naiveCutoff + 1
      {
        if i < 0 {
          return Panic;
        }
        if SafeBoundary(msgs[i], isCall) {
          safeIndex := i;
          break;
        }
        i := i + 1;
      }
    }

    if safeIndex <= 1 {
      safeIndex := naiveCutoff;
      if safeIndex < 1 {
        return Panic;
      }
      return Forced(safeIndex);
    }
    return Safe(safeIndex);
  }

  // On a snapshot above the limit the search never fails; it forces a cut only when there is no
  // safe position at all between the head and the last message.
  lemma CutoffSound(ms: seq<Message>, isCall: string -> bool, maxMessages: nat)
    requires maxMessages >= 1 && |ms| > maxMessages
    ensures match FindCut(ms, isCall, maxMessages)
            case Panic => false
            case Safe(i) => 2 <= i < |ms| && SafeBoundary(ms[i], isCall)
            case Forced(i) =>
              1 <= i == |ms| - maxMessages
              && forall j :: 2 <= j < |ms| - 1 ==> !SafeBoundary(ms[j], isCall)
  {
    var naive := |ms| - maxMessages;
    if LastSafe(ms, isCall, naive).None? && FirstSafe(ms, isCall, naive + 1).None? {
      forall j | 2 <= j < |ms| - 1 ensures !SafeBoundary(ms[j], isCall) {
        assert j <= naive || j >= naive + 1;
      }
    }
  }

  // A turn of the conversation begins at the message: a user's text, or an assistant's that is no call.
  predicate BeginsTurn(m: Message, isCall: string -> bool) {
    (m.role == "user" && !ReadsAsResult(m)) || (m.role == "assistant" && !isCall(m.content))
  }

  // The cut is at the last beginning of a turn up to the naive cutoff, if there is one behind the
  // second message, otherwise at the first one after it that is not the last message.
  lemma CutoffExactly(ms: seq<Message>, isCall: string -> bool, maxMessages: nat)
    requires maxMessages >= 1 && |ms| > maxMessages
    ensures var naive, c := |ms| - maxMessages, FindCut(ms, isCall, maxMessages);
            && (c.Safe? ==> 2 <= c.i < |ms| && BeginsTurn(ms[c.i], isCall))
            && (c.Safe? && c.i <= naive ==> forall j :: c.i < j <= naive ==> !BeginsTurn(ms[j], isCall))
            && (c.Safe? && c.i > naive ==> c.i < |ms| - 1 && forall j :: 2 <= j < c.i ==> !BeginsTurn(ms[j], isCall))
            && (!c.Safe? ==> c == Forced(naive) && forall j :: 2 <= j < |ms| - 1 ==> !BeginsTurn(ms[j], isCall))
  {
    CutoffSound(ms, isCall, maxMessages);
    assert forall m :: SafeBoundary(m, isCall) <==> BeginsTurn(m, isCall);
  }

  // An unforced slide never separates a result from its call; a forced one does exactly when the
  // naive cutoff hits a result.
  lemma SlideKeepsPairsExactly(ms: seq<Message>, isCall: string -> bool, maxMessages: nat)
    requires maxMessages >= 1 && |ms| > maxMessages && Paired(ms, isCall) && !IsCall(ms[0], isCall)
    ensures match FindCut(ms, isCall, maxMessages)
            case Panic => false
            case Safe(i) => 1 <= i <= |ms| && Paired(CutAt(ms, i), isCall)
            case Forced(i) =>
              1 <= i <= |ms|
              && (2 <= i ==> (Paired(CutAt(ms, i), isCall) <==> !IsToolMessage(ms[i])))
  {
    CutoffSound(ms, isCall, maxMessages);
    match FindCut(ms, isCall, maxMessages)
    case Panic =>
    case Safe(i) => CutPairedExactly(ms, i, isCall);
    case Forced(i) =>
      if 2 <= i {
        CutPairedExactly(ms, i, isCall);
      }
  }

  // The search leaves the list exactly when the list is within the limit and either too short for
  // the forward search to start inside it, or the first safe position from there is the head, the
  // message behind it, or missing.
  lemma PanicsExactly(ms: seq<Message>, isCall: string -> bool, maxMessages: nat)
    requires maxMessages >= 1
    ensures FindCut(ms, isCall, maxMessages).Panic?
       <==> && |ms| <= maxMessages
            && (|ms| < maxMessages - 1
                || (forall j :: 2 <= j < |ms| - 1 ==> !SafeBoundary(ms[j], isCall))
                || (|ms| > 2 && SafeBoundary(ms[1], isCall))
                || (|ms| == maxMessages - 1 && |ms| > 1 && SafeBoundary(ms[0], isCall)))
  {
    var from := |ms| - maxMessages + 1;
    if 0 <= from <= 1 {
      var ahead := FirstSafe(ms, isCall, from);
      assert ahead.None? ==> forall j :: 2 <= j < |ms| - 1 ==> !SafeBoundary(ms[j], isCall);
    }
  }

  // The limit is checked before the snapshot is taken.  When another caller's slide, and any
  // appends, come in between, the search then fails exactly when the list is still within the
  // limit: the message behind the head is a safe boundary, so the forward search ends there.
  lemma SlideRacePanicsExactly(ms: seq<Message>, isCall: string -> bool, maxMessages: nat, more: seq<Message>)
    requires maxMessages >= 1 && |ms| > maxMessages
    ensures var c := FindCut(ms, isCall, maxMessages);
            && !c.Panic? && 1 <= c.i <= |ms|
            && (FindCut(CutAt(ms, c.i) + more, isCall, maxMessages).Panic? <==> |CutAt(ms, c.i) + more| <= maxMessages)
            && (more == [] ==> (|CutAt(ms, c.i)| <= maxMessages <==> c.i > |ms| - maxMessages))
  {
    CutoffSound(ms, isCall, maxMessages);
    var c := FindCut(ms, isCall, maxMessages);
    var w := CutAt(ms, c.i) + more;
    PanicsExactly(w, isCall, maxMessages);
    if |w| <= maxMessages {
      assert c.Safe? && w[1] == ms[c.i];
    }
  }

  // ---------------------------------------------------------------------------
  // The shared list under concurrent appends and slides
  // ---------------------------------------------------------------------------

  // SlideMessages: applied when the list is longer than the cutoff and the fingerprint matches.
  function SlideResult(cur: seq<Message>, cutoff: nat, expectedFP: seq<ChatMessage>): Option<seq<Message>>
    requires cutoff >= 1
  {
    if |cur| <= cutoff then None
    else if StripAll(cur[1..cutoff]) != expectedFP then None
    else Some(CutAt(cur, cutoff))
  }

  class StateManager {
    var messages: seq<Message>

    constructor ()
      ensures messages == []
    {
      messages := [];
    }

    method ReadMessages() returns (r: seq<Message>)
      ensures r == messages
    {
      return messages;
    }

    method AppendMessage(msg: Message, now: int)
      modifies this
      ensures messages == old(messages) + [if msg.time == 0 then msg.(time := now) else msg]
    {
      var m := msg;
      if m.time == 0 {
        m := m.(time := now);
      }
      messages := messages + [m];
    }

    method SlideMessages(cutoff: nat, expectedFP: seq<ChatMessage>) returns (applied: bool)
      requires cutoff >= 1
      modifies this
      ensures match SlideResult(old(messages), cutoff, expectedFP)
              case Some(kept) => applied && messages == kept
              case None => !applied && messages == old(messages)
    {
      if |messages| <= cutoff {
        return false;
      }
      if StripAll(messages[1..cutoff]) != expectedFP {
        return false;
      }
      messages := [messages[0]] + messages[cutoff..];
      return true;
    }

    // SlideAndArchiveContext run without interference: `archived` is what goes to the archiver.
    // Either nothing happens, or exactly the archived messages leave the window.
    method SlideAndArchiveContext(isCall: string -> bool, maxMessages: nat) returns (archived: seq<Message>)
      requires maxMessages >= 1
      modifies this
      ensures |old(messages)| <= maxMessages ==> archived == [] && messages == old(messages)
      ensures |old(messages)| > maxMessages ==>
                messages != [] && messages[0] == old(messages)[0]
                && old(messages) == [messages[0]] + archived + messages[1..]
      ensures |old(messages)| > maxMessages && !FindCut(old(messages), isCall, maxMessages).Forced?
                && Paired(old(messages), isCall) && !IsCall(old(messages)[0], isCall)
              ==> Paired(messages, isCall) && |messages| < |old(messages)|
    {
      archived := [];
      if |messages| <= maxMessages {
        return;
      }
      var msgs := ReadMessages();
      var cut := FindCutoff(msgs, isCall, maxMessages);
      CutoffSound(msgs, isCall, maxMessages);
      if Paired(msgs, isCall) && !IsCall(msgs[0], isCall) {
        SlideKeepsPairsExactly(msgs, isCall, maxMessages);
      }
      archived := msgs[1..cut.i];
      assert msgs == [msgs[0]] + msgs[1..cut.i] + msgs[cut.i..];
      var applied := SlideMessages(cut.i, StripAll(archived));
      assert applied;
    }
  }

  // What other callers do to the list between a snapshot and its slide.
  datatype Op = Append(m: Message) | Slide(cutoff: nat, fp: seq<ChatMessage>)

  function ApplyOp(cur: seq<Message>, op: Op): seq<Message> {
    match op
    case Append(m) => cur + [m]
    case Slide(cutoff, fp) =>
      if cutoff >= 1 && SlideResult(cur, cutoff, fp).Some? then SlideResult(cur, cutoff, fp).value else cur
  }

  function ApplyOps(cur: seq<Message>, ops: seq<Op>): seq<Message>
    decreases |ops|
  {
    if ops == [] then cur else ApplyOps(ApplyOp(cur, ops[0]), ops[1..])
  }

  function AppendedBy(op: Op): seq<Message> {
    if op.Append? then [op.m] else []
  }

  function RemovedBy(cur: seq<Message>, op: Op): nat {
    var next := ApplyOp(cur, op);
    if |next| < |cur| then |cur| - |next| else 0
  }

  function Appended(ops: seq<Op>): seq<Message> {
    if ops == [] then [] else AppendedBy(ops[0]) + Appended(ops[1..])
  }

  // Messages removed by the slides that were applied.
  function Removed(cur: seq<Message>, ops: seq<Op>): nat
    decreases |ops|
  {
    if ops == [] then 0 else RemovedBy(cur, ops[0]) + Removed(ApplyOp(cur, ops[0]), ops[1..])
  }

  // w is the head followed by `all` without its first r messages behind the head.
  predicate WindowIs(h: Message, all: seq<Message>, r: nat, w: seq<Message>) {
    1 + r <= |all| && w == [h] + all[1 + r..]
  }

  lemma WindowStep(h: Message, all: seq<Message>, r: nat, cur: seq<Message>, op: Op)
    requires WindowIs(h, all, r, cur)
    ensures WindowIs(h, all + AppendedBy(op), r + RemovedBy(cur, op), ApplyOp(cur, op))
  {
    if op.Append? {
      assert (all + [op.m])[1 + r..] == all[1 + r..] + [op.m];
    } else {
      assert all + [] == all;
      var next := ApplyOp(cur, op);
      if next != cur {
        assert next == [h] + all[1 + r + (op.cutoff - 1)..];
      }
    }
  }

  // The list after any interleaving: the head, and everything that was there or was appended
  // except the first `Removed` messages behind the head.
  lemma {:induction false} WindowAfter(h: Message, all: seq<Message>, r: nat, cur: seq<Message>, ops: seq<Op>)
    requires WindowIs(h, all, r, cur)
    ensures WindowIs(h, all + Appended(ops), r + Removed(cur, ops), ApplyOps(cur, ops))
    decreases |ops|
  {
    if ops == [] {
      assert all + [] == all;
    } else {
      var op, rest := ops[0], ops[1..];
      var next, all', r' := ApplyOp(cur, op), all + AppendedBy(op), r + RemovedBy(cur, op);
      WindowStep(h, all, r, cur, op);
      WindowAfter(h, all', r', next, rest);
      ConcatAssoc(all, AppendedBy(op), Appended(rest));
      assert r' + Removed(next, rest) == r + Removed(cur, ops);
      assert ApplyOps(cur, ops) == ApplyOps(next, rest);
    }
  }

  // The window of a snapshot after other callers' operations
  lemma WindowOf(snap: seq<Message>, ops: seq<Op>)
    requires snap != []
    ensures WindowIs(snap[0], snap + Appended(ops), Removed(snap, ops), ApplyOps(snap, ops))
  {
    assert WindowIs(snap[0], snap, 0, snap);
    WindowAfter(snap[0], snap, 0, snap, ops);
  }

  lemma CutOfWindow(h: Message, snap: seq<Message>, more: seq<Message>, r: nat, w: seq<Message>, cutoff: nat)
    requires snap != [] && snap[0] == h && WindowIs(h, snap + more, r, w) && 1 <= cutoff <= |snap| && cutoff < |w|
    ensures CutAt(w, cutoff) == [h] + snap[cutoff..] + more <==> r == 0
  {
    assert |CutAt(w, cutoff)| == |[h] + snap[cutoff..] + more| - r;
    if r == 0 {
      assert w[cutoff..] == snap[cutoff..] + more;
    }
  }

  // A slide planned on snapshot `snap` and applied after `ops`: it yields the head, the snapshot
  // from the cutoff on and everything appended since, exactly when no other slide removed
  // anything in between.  Every applied slide with a cutoff of at least 2 shrinks the list.
  lemma AppliedSlideExactly(snap: seq<Message>, cutoff: nat, ops: seq<Op>)
    requires 1 <= cutoff <= |snap|
    requires SlideResult(ApplyOps(snap, ops), cutoff, StripAll(snap[1..cutoff])).Some?
    ensures var cur := ApplyOps(snap, ops);
            var result := SlideResult(cur, cutoff, StripAll(snap[1..cutoff])).value;
            && (result == [snap[0]] + snap[cutoff..] + Appended(ops) <==> Removed(snap, ops) == 0)
            && (cutoff >= 2 ==> |result| < |cur|)
  {
    WindowOf(snap, ops);
    CutOfWindow(snap[0], snap, Appended(ops), Removed(snap, ops), ApplyOps(snap, ops), cutoff);
  }

  // Behind the head, the first cutoff - 1 messages of `all` after the r removed ones have the
  // texts of the snapshot's.
  predicate ReadsLike(snap: seq<Message>, all: seq<Message>, r: nat, cutoff: nat)
    requires cutoff <= |snap|
  {
    forall k :: 1 <= k < cutoff ==> k + r < |all| && Strip(all[k + r]) == Strip(snap[k])
  }

  lemma SameTexts(snap: seq<Message>, all: seq<Message>, r: nat, cur: seq<Message>, cutoff: nat)
    requires 1 <= cutoff <= |snap| && WindowIs(snap[0], all, r, cur) && |cur| > cutoff
    ensures StripAll(cur[1..cutoff]) == StripAll(snap[1..cutoff]) <==> ReadsLike(snap, all, r, cutoff)
  {
    var now, kept := StripAll(cur[1..cutoff]), StripAll(snap[1..cutoff]);
    assert |now| == |kept| == cutoff - 1;
    assert forall k :: 1 <= k < cutoff ==> cur[k] == all[k + r];
    assert forall k :: 1 <= k < cutoff ==> now[k - 1] == Strip(all[k + r]) && kept[k - 1] == Strip(snap[k]);
    if ReadsLike(snap, all, r, cutoff) {
      forall j | 0 <= j < cutoff - 1 ensures now[j] == kept[j] {
        assert now[(j + 1) - 1] == Strip(all[(j + 1) + r]);
      }
    } else {
      var k :| 1 <= k < cutoff && !(k + r < |all| && Strip(all[k + r]) == Strip(snap[k]));
      assert now[k - 1] != kept[k - 1];
    }
  }

  // A slide planned on a snapshot is applied after other callers' operations exactly when the list
  // is still longer than the cutoff and the texts repeat at the distance the others removed.
  lemma SlideAppliedExactly(snap: seq<Message>, cutoff: nat, ops: seq<Op>)
    requires 1 <= cutoff <= |snap|
    ensures SlideResult(ApplyOps(snap, ops), cutoff, StripAll(snap[1..cutoff])).Some?
       <==> |ApplyOps(snap, ops)| > cutoff && ReadsLike(snap, snap + Appended(ops), Removed(snap, ops), cutoff)
  {
    WindowOf(snap, ops);
    if |ApplyOps(snap, ops)| > cutoff {
      SameTexts(snap, snap + Appended(ops), Removed(snap, ops), ApplyOps(snap, ops), cutoff);
    }
  }

  // The slide gave positions 1..cutoff of the snapshot to the archiver.
  predicate Archived(p: nat, cutoff: nat) { 1 <= p < cutoff }

  // Of everything that was ever in the list, it removes positions first..last.
  predicate DropsUnarchived(first: nat, last: nat, cutoff: nat) {
    exists p: nat :: first <= p < last && !Archived(p, cutoff)
  }

  lemma ShiftedDrops(r: nat, cutoff: nat)
    requires cutoff >= 1
    ensures DropsUnarchived(1 + r, cutoff + r, cutoff) <==> r > 0 && cutoff >= 2
  {
    if cutoff >= 2 && r > 0 {
      assert !Archived(cutoff + r - 1, cutoff);
    }
  }

  // In a window from which r messages were removed, a slide takes positions 1 + r up to cutoff + r
  // of everything there ever was (WindowOf says of which list and how many).
  lemma SlideTakesOut(h: Message, all: seq<Message>, r: nat, w: seq<Message>, cutoff: nat)
    requires WindowIs(h, all, r, w) && 1 <= cutoff < |w|
    ensures cutoff + r <= |all| && forall k :: 1 <= k < cutoff ==> w[k] == all[k + r]
    ensures WindowIs(h, all, r + cutoff - 1, CutAt(w, cutoff))
  {
  }

  predicate LosesMessage(snap: seq<Message>, cutoff: nat, ops: seq<Op>)
    requires 1 <= cutoff <= |snap|
  {
    && SlideResult(ApplyOps(snap, ops), cutoff, StripAll(snap[1..cutoff])).Some?
    && DropsUnarchived(1 + Removed(snap, ops), cutoff + Removed(snap, ops), cutoff)
  }

  // So a message is lost exactly when other slides removed something and the texts repeat.
  lemma LosesMessageExactly(snap: seq<Message>, cutoff: nat, ops: seq<Op>)
    requires 1 <= cutoff <= |snap|
    ensures LosesMessage(snap, cutoff, ops)
       <==> && |ApplyOps(snap, ops)| > cutoff && ReadsLike(snap, snap + Appended(ops), Removed(snap, ops), cutoff)
            && Removed(snap, ops) > 0 && cutoff >= 2
  {
    SlideAppliedExactly(snap, cutoff, ops);
    ShiftedDrops(Removed(snap, ops), cutoff);
  }

  // What an applied slide removes always reads like the range given to the archiver.  After
  // other slides that is only possible when the texts repeat at the distance they removed.
  lemma RemovedWasArchived(snap: seq<Message>, cutoff: nat, ops: seq<Op>)
    requires 1 <= cutoff <= |snap|
    requires SlideResult(ApplyOps(snap, ops), cutoff, StripAll(snap[1..cutoff])).Some?
    ensures |ApplyOps(snap, ops)| > cutoff
    ensures StripAll(ApplyOps(snap, ops)[1..cutoff]) == StripAll(snap[1..cutoff])
    ensures ReadsLike(snap, snap + Appended(ops), Removed(snap, ops), cutoff)
  {
    SlideAppliedExactly(snap, cutoff, ops);
  }

  // With repeated texts two slides of the same snapshot are both applied, and the second one
  // drops a message neither of them archived.
  lemma DoubleSlideLosesMessage(head: Message, text: string)
    requires head.role == "system"
    ensures var a, b, c := Message("user", text, 1), Message("user", text, 2), Message("user", text, 3);
            var snap := [head, a, b, c];
            var fp := StripAll(snap[1..2]);
            var after := ApplyOps(snap, [Slide(2, fp), Slide(2, fp)]);
            after == [head, c] && b !in after && b !in snap[1..2]
  {
    var a, b, c := Message("user", text, 1), Message("user", text, 2), Message("user", text, 3);
    var snap := [head, a, b, c];
    var fp := StripAll(snap[1..2]);
    var once := ApplyOp(snap, Slide(2, fp));
    assert CutAt(snap, 2) == [head, b, c] && CutAt([head, b, c], 2) == [head, c];
    assert StripAll(snap[1..2]) == [Strip(a)] && StripAll([head, b, c][1..2]) == [Strip(b)];
    assert once == [head, b, c];
    assert ApplyOp(once, Slide(2, fp)) == [head, c];
    var ops := [Slide(2, fp), Slide(2, fp)];
    assert ops[1..] == [Slide(2, fp)] && ops[1..][1..] == [];
    assert ApplyOps(once, ops[1..]) == ApplyOps([head, c], []);
    assert "user"[0] != "system"[0];
    assert b != head && b != c && b != a;
  }

  // ---------------------------------------------------------------------------
  // condenseToolResults
  // ---------------------------------------------------------------------------

  const MAX_CONDENSED_LEN: nat := 400

  predicate IsResult(m: Message) { m.role == "user" && HasPrefix(m.content, "Tool result: ") }

  // Long results before the last assistant message are the ones shortened.
  predicate Condensable(ms: seq<Message>, i: nat, lastAssistant: int)
    requires i < |ms|
  {
    i < lastAssistant && IsResult(ms[i]) && |ms[i].content| - 13 > MAX_CONDENSED_LEN
  }

  predicate IsLastAssistant(ms: seq<Message>, k: int) {
    -1 <= k < |ms|
    && (k >= 0 ==> ms[k].role == "assistant")
    && forall j :: k < j < |ms| ==> ms[j].role != "assistant"
  }

  function ToolNameAt(ms: seq<Message>, i: nat, toolName: string -> string): string
    requires i < |ms|
  {
    if i > 0 && ms[i - 1].role == "assistant" then toolName(ms[i - 1].content) else "unknown"
  }

  function CondensedText(content: string, name: string): string
    requires |content| > 13
  {
    "Tool result: [" + name + "] " + Truncated(content[13..], MAX_CONDENSED_LEN)
  }

  // Position i of the condensed list.
  predicate CondensedTo(ms: seq<Message>, i: nat, k: int, toolName: string -> string, m: Message)
    requires i < |ms|
  {
    if !Condensable(ms, i, k) then m == ms[i]
    else
      && m.role == ms[i].role && m.time == ms[i].time
      && m.content == CondensedText(ms[i].content, ToolNameAt(ms, i, toolName))
  }

  method CondenseToolResults(msgs: seq<Message>, toolName: string -> string) returns (out: seq<Message>)
    ensures |out| == |msgs|
    ensures exists k :: IsLastAssistant(msgs, k)
              && forall i :: 0 <= i < |msgs| ==> CondensedTo(msgs, i, k, toolName, out[i])
  {
    var lastAssistant := -1;
    var i := |msgs| - 1;
    while i >= 0
      invariant -1 <= i < |msgs| && lastAssistant == -1
      invariant forall j :: i < j < |msgs| ==> msgs[j].role != "assistant"
    {
      if msgs[i].role == "assistant" {
        lastAssistant := i;
        break;
      }
      i := i - 1;
    }
    assert IsLastAssistant(msgs, lastAssistant);
    out := msgs;
    if lastAssistant < 0 {
      return;
    }

    i := 0;
    while i < lastAssistant
      invariant 0 <= i <= lastAssistant && |out| == |msgs|
      invariant forall j :: 0 <= j < i ==> CondensedTo(msgs, j, lastAssistant, toolName, out[j])
      invariant i > 0 ==> out[i - 1].role == msgs[i - 1].role && (out[i - 1].role == "assistant" ==> out[i - 1] == msgs[i - 1])
      invariant forall j :: i <= j < |msgs| ==> out[j] == msgs[j]
    {
      var m := out[i];
      if IsResult(m) {
        var name := "unknown";
        if i > 0 && out[i - 1].role == "assistant" {
          name := toolName(out[i - 1].content);
        }
        var r := CondenseOne(m, name);
        assert CondensedTo(msgs, i, lastAssistant, toolName, r);
        out := out[i := r];
      }
      i := i + 1;
    }
  }

  method CondenseOne(m: Message, name: string) returns (r: Message)
    requires IsResult(m)
    ensures r.role == m.role && r.time == m.time
    ensures r.content == if |m.content| - 13 > MAX_CONDENSED_LEN then CondensedText(m.content, name) else m.content
  {
    r := m;
    var body := m.content[13..];
    if |body| > MAX_CONDENSED_LEN {
      var condensed := Truncate(body, MAX_CONDENSED_LEN);
      r := Message(m.role, "Tool result: [" + name + "] " + condensed, m.time);
    }
  }

  // Condensing keeps the length, every role and time, which positions are tool results and which
  // are calls, hence the pairing.
  lemma CondenseKeepsStatus(ms: seq<Message>, out: seq<Message>, k: int, toolName: string -> string, isCall: string -> bool)
    requires |out| == |ms| && IsLastAssistant(ms, k)
    requires forall i :: 0 <= i < |ms| ==> CondensedTo(ms, i, k, toolName, out[i])
    ensures forall i :: 0 <= i < |ms| ==>
              out[i].role == ms[i].role && out[i].time == ms[i].time
              && IsToolMessage(out[i]) == IsToolMessage(ms[i]) && IsCall(out[i], isCall) == IsCall(ms[i], isCall)
    ensures Paired(out, isCall) <==> Paired(ms, isCall)
  {
    forall i | 0 <= i < |ms|
      ensures out[i].role == ms[i].role && out[i].time == ms[i].time
              && IsToolMessage(out[i]) == IsToolMessage(ms[i]) && IsCall(out[i], isCall) == IsCall(ms[i], isCall)
    {
      assert CondensedTo(ms, i, k, toolName, out[i]);
      if Condensable(ms, i, k) {
        assert ms[i].content[..12] == "Tool result:";
        assert out[i].content[..12] == "Tool result:";
      }
    }
  }

  // A long result before the last assistant message keeps its text up to the last character boundary
  // within 400 bytes, behind the name of the tool that was called; every other message stays.
  lemma CondensedExactly(ms: seq<Message>, i: nat, k: int, toolName: string -> string, m: Message)
    requires i < |ms| && CondensedTo(ms, i, k, toolName, m)
    ensures var content := ms[i].content;
            if i < k && ms[i].role == "user" && "Tool result: " <= content && |content| > 413 then
              var name := if i > 0 && ms[i - 1].role == "assistant" then toolName(ms[i - 1].content) else "unknown";
              var head := "Tool result: [" + name + "] ";
              && m.role == "user" && m.time == ms[i].time
              && head <= m.content && TruncatedAt(content[13..], 400, m.content[|head|..])
            else m == ms[i]
  {
    var content := ms[i].content;
    if Condensable(ms, i, k) {
      var head := "Tool result: [" + ToolNameAt(ms, i, toolName) + "] ";
      TruncatedWhole(content[13..], 400);
      assert m.content == head + Truncated(content[13..], 400);
      assert m.content[|head|..] == Truncated(content[13..], 400);
    }
  }
}
