/**
  What every run of the orchestrator loop guarantees to its callers: the shape of the
  transcript, the bounds, the callbacks of a round, and the slice the adapter returns.
 */
module OrchestrateProperties {
  import opened Wrappers
  import opened Messages
  import opened Orchestrate
  import C = Conversation

  // ---------------------------------------------------------------------------
  // Transcript
  // ---------------------------------------------------------------------------

  // (assistant, user)*
  predicate Pairs(ms: seq<ChatMessage>) {
    |ms| % 2 == 0 && forall i :: 0 <= i < |ms| ==> ms[i].role == (if i % 2 == 0 then "assistant" else "user")
  }

  // A run that answers or hands over to a background job ends with its assistant message.
  predicate Shape(ms: seq<ChatMessage>, outcome: Outcome) {
    if outcome.Answer? || outcome.Job? then
      ms != [] && Pairs(ms[..|ms| - 1]) && ms[|ms| - 1].role == "assistant"
    else Pairs(ms)
  }

  // One round appends nothing, a pair, or a last assistant message.
  lemma RoundAppends(cfg: LoopConfig, env: Env, st: LoopState, round: nat)
    ensures match Round(cfg, env, st, round)
            case Again(st') =>
              st'.messages == st.messages
              || (exists a, u :: st'.messages == st.messages + [Assistant(a), User(u)])
            case Return(outcome, st') =>
              if outcome.Answer? || outcome.Job? then exists a :: st'.messages == st.messages + [Assistant(a)]
              else st'.messages == st.messages && !outcome.TooManyRounds?
  {
    match Round(cfg, env, st, round)
    case Return(_, _) =>
    case Again(st') =>
      if st'.messages != st.messages {
        var n := |st.messages|;
        assert st'.messages == st.messages + [Assistant(st'.messages[n].content), User(st'.messages[n + 1].content)];
      }
  }

  lemma PairsExtend(ms: seq<ChatMessage>, a: string, u: string)
    requires Pairs(ms)
    ensures Pairs(ms + [Assistant(a), User(u)]) && Shape(ms + [Assistant(a)], Answer(""))
  {
    assert (ms + [Assistant(a)])[..|ms|] == ms;
  }

  // The input is a prefix of the transcript, and the new part has the shape of the outcome.
  lemma {:induction false} TranscriptShape(cfg: LoopConfig, env: Env, base: seq<ChatMessage>, st: LoopState, round: nat)
    requires round <= cfg.Rounds() && base <= st.messages && Pairs(st.messages[|base|..])
    ensures var (outcome, last) := Loop(cfg, env, st, round);
            base <= last.messages && Shape(last.messages[|base|..], outcome)
    decreases cfg.Rounds() - round
  {
    if round < cfg.Rounds() {
      var added := st.messages[|base|..];
      RoundAppends(cfg, env, st, round);
      match Round(cfg, env, st, round)
      case Return(outcome, last) =>
        if outcome.Answer? || outcome.Job? {
          var a :| last.messages == st.messages + [Assistant(a)];
          PairsExtend(added, a, "");
          assert last.messages[|base|..] == added + [Assistant(a)];
        }
      case Again(next) =>
        if next.messages != st.messages {
          var a, u :| next.messages == st.messages + [Assistant(a), User(u)];
          PairsExtend(added, a, u);
          assert next.messages[|base|..] == added + [Assistant(a), User(u)];
        }
        TranscriptShape(cfg, env, base, next, round + 1);
    }
  }

  // ---------------------------------------------------------------------------
  // Bounds
  // ---------------------------------------------------------------------------

  function Chats(trace: seq<Event>): nat {
    if trace == [] then 0
    else Chats(trace[..|trace| - 1]) + (if trace[|trace| - 1].Chatted? then 1 else 0)
  }

  lemma ChatsOne(trace: seq<Event>, e: Event)
    ensures Chats(trace + [e]) == Chats(trace) + (if e.Chatted? then 1 else 0)
  {
    assert (trace + [e])[..|trace|] == trace;
  }

  function After(r: RoundResult): LoopState { r.st }

  // Pairs of start and end
  predicate CallPairs(calls: seq<Event>) {
    |calls| % 2 == 0
    && forall k :: 0 <= k < |calls| ==> (if k % 2 == 0 then calls[k].ToolStarted? else calls[k].ToolFinished?)
  }

  function CallEvents(env: Env, n: nat, name: string): seq<Event> {
    [ToolStarted(name), ToolFinished(env.reacquire(n))]
  }

  predicate FallsBack(cfg: LoopConfig, r: ToolResult, name: string) {
    !r.JobRequest? && IsFailed(cfg, r) && cfg.fallback(name, FailureMessage(r)).Some?
  }

  lemma OneCallTrace(cfg: LoopConfig, env: Env, st: LoopState, stored: string, name: string)
    requires cfg.hasToolExec && name !in cfg.mandated && !FallsBack(cfg, env.tool(st.calls), name)
    ensures After(ToolRound(cfg, env, st, stored, name)).trace == st.trace + CallEvents(env, st.calls, name)
  {
  }

  lemma FallbackTrace(cfg: LoopConfig, env: Env, st: LoopState, stored: string, name: string)
    requires cfg.hasToolExec && name !in cfg.mandated && FallsBack(cfg, env.tool(st.calls), name)
    ensures var fb := cfg.fallback(name, FailureMessage(env.tool(st.calls))).value;
            After(ToolRound(cfg, env, st, stored, name)).trace
            == st.trace + CallEvents(env, st.calls, name) + CallEvents(env, st.calls + 1, fb)
  {
  }

  lemma ToolRoundTrace(cfg: LoopConfig, env: Env, st: LoopState, stored: string, name: string)
    returns (calls: seq<Event>)
    ensures After(ToolRound(cfg, env, st, stored, name)).trace == st.trace + calls
    ensures |calls| <= 4 && CallPairs(calls) && (|calls| == 4 ==> exists a, b :: cfg.fallback(a, b).Some?)
  {
    var r := env.tool(st.calls);
    if !cfg.hasToolExec || name in cfg.mandated {
      calls := [];
    } else if FallsBack(cfg, r, name) {
      FallbackTrace(cfg, env, st, stored, name);
      var fb := cfg.fallback(name, FailureMessage(r)).value;
      calls := CallEvents(env, st.calls, name) + CallEvents(env, st.calls + 1, fb);
      assert st.trace + CallEvents(env, st.calls, name) + CallEvents(env, st.calls + 1, fb) == st.trace + calls;
    } else {
      OneCallTrace(cfg, env, st, stored, name);
      calls := CallEvents(env, st.calls, name);
    }
  }

  // What a round adds to the trace: the chat, then at most two tool calls, the second only as a
  // fallback.
  lemma RoundTrace(cfg: LoopConfig, env: Env, st: LoopState, round: nat) returns (ok: bool, calls: seq<Event>)
    ensures After(Round(cfg, env, st, round)).trace == st.trace + [Chatted(ok)] + calls
    ensures |calls| <= 4 && CallPairs(calls) && (calls != [] ==> ok)
    ensures |calls| == 4 ==> exists a, b :: cfg.fallback(a, b).Some?
  {
    var chat := env.chat(round, cfg.trim(st.messages));
    ok, calls := chat.Reply?, [];
    if chat.Reply? && chat.decision.Some? && chat.decision.value.UseTool? {
      var st1 := st.(trace := st.trace + [Chatted(true)], parseRetries := 0);
      calls := ToolRoundTrace(cfg, env, st1, chat.stored, chat.decision.value.name);
    }
  }

  lemma {:induction false} ChatsInCalls(trace: seq<Event>, calls: seq<Event>)
    requires CallPairs(calls)
    ensures Chats(trace + calls) == Chats(trace)
    decreases |calls|
  {
    if calls == [] {
      assert trace + calls == trace;
    } else {
      var front, e, f := calls[..|calls| - 2], calls[|calls| - 2], calls[|calls| - 1];
      ChatsInCalls(trace, front);
      ChatsOne(trace + front, e);
      ChatsOne(trace + front + [e], f);
      assert trace + calls == trace + front + [e] + [f];
    }
  }

  // Each round makes exactly one LLM call.
  lemma RoundCalls(cfg: LoopConfig, env: Env, st: LoopState, round: nat)
    ensures var t := After(Round(cfg, env, st, round));
            Chats(t.trace) == Chats(st.trace) + 1
  {
    var ok, calls := RoundTrace(cfg, env, st, round);
    ChatsOne(st.trace, Chatted(ok));
    ChatsInCalls(st.trace + [Chatted(ok)], calls);
  }

  // At most maxRounds LLM calls, all of them when the loop runs out of rounds.
  lemma {:induction false} CallBounds(cfg: LoopConfig, env: Env, st: LoopState, round: nat)
    requires round <= cfg.Rounds()
    ensures var (outcome, last) := Loop(cfg, env, st, round);
            var bound := Chats(st.trace) + (cfg.Rounds() - round);
            if outcome.TooManyRounds? then Chats(last.trace) == bound else Chats(last.trace) <= bound
    decreases cfg.Rounds() - round
  {
    if round < cfg.Rounds() {
      RoundCalls(cfg, env, st, round);
      match Round(cfg, env, st, round)
      case Return(_, _) =>
      case Again(next) => CallBounds(cfg, env, next, round + 1);
    }
  }

  // ---------------------------------------------------------------------------
  // Parse retries
  // ---------------------------------------------------------------------------

  predicate Unparsable(cfg: LoopConfig, env: Env, ms: seq<ChatMessage>, round: nat) {
    var c := env.chat(round, cfg.trim(ms));
    c.Reply? && c.decision.None?
  }

  // parseRetries is the length of the current streak of unparsable replies, none of which left
  // a trace in the transcript.
  predicate Streak(cfg: LoopConfig, env: Env, st: LoopState, round: nat) {
    && st.parseRetries <= round && st.parseRetries <= MAX_PARSE_RETRIES
    && forall k: nat :: round - st.parseRetries <= k < round ==> Unparsable(cfg, env, st.messages, k)
  }

  lemma RoundStreak(cfg: LoopConfig, env: Env, st: LoopState, round: nat)
    requires Streak(cfg, env, st, round)
    ensures match Round(cfg, env, st, round)
            case Again(next) => Streak(cfg, env, next, round + 1)
            case Return(outcome, last) =>
              (outcome.ParseError? <==> Unparsable(cfg, env, st.messages, round) && st.parseRetries == MAX_PARSE_RETRIES)
              && (outcome.ParseError? ==> outcome.round == round && last.messages == st.messages)
  {
  }

  // A run fails to parse in round r only after four unparsable replies in a row to the very
  // same messages.
  lemma {:induction false} ParseErrorMeansStreak(cfg: LoopConfig, env: Env, st: LoopState, round: nat)
    requires round <= cfg.Rounds() && Streak(cfg, env, st, round)
    ensures var (outcome, last) := Loop(cfg, env, st, round);
            outcome.ParseError? ==>
              && outcome.round >= 3
              && forall k: nat :: outcome.round - 3 <= k <= outcome.round ==>
                   Unparsable(cfg, env, last.messages, k)
    decreases cfg.Rounds() - round
  {
    if round < cfg.Rounds() {
      RoundStreak(cfg, env, st, round);
      match Round(cfg, env, st, round)
      case Return(_, _) =>
      case Again(next) => ParseErrorMeansStreak(cfg, env, next, round + 1);
    }
  }

  // Conversely, four unparsable replies in a row end the run in the fourth, whatever happened
  // before the streak.
  lemma {:induction false} StreakMeansParseError(cfg: LoopConfig, env: Env, st: LoopState, round: nat)
    requires st.parseRetries <= 3 && round + (3 - st.parseRetries) < cfg.Rounds()
    requires forall k: nat :: round <= k <= round + (3 - st.parseRetries) ==>
               Unparsable(cfg, env, st.messages, k)
    ensures var (outcome, last) := Loop(cfg, env, st, round);
            outcome == ParseError(round + (3 - st.parseRetries)) && last.messages == st.messages
    decreases 3 - st.parseRetries
  {
    assert Unparsable(cfg, env, st.messages, round);
    if st.parseRetries < 3 {
      var next := st.(parseRetries := st.parseRetries + 1, trace := st.trace + [Chatted(true)]);
      StreakMeansParseError(cfg, env, next, round + 1);
    }
  }

  // ---------------------------------------------------------------------------
  // Which appended messages the conversation window recognises as tool messages
  // ---------------------------------------------------------------------------

  lemma ResultRecognised(rest: string)
    ensures IsToolText("user", ResultText(rest))
  {
    assert ResultText(rest)[..12] == "Tool result:";
  }

  lemma NotRecognised(rest: string)
    ensures !IsToolText("user", "Tool result [auto-fallback]: " + rest)
    ensures !IsToolText("user", "Tool error (attempt " + rest)
    ensures !IsToolText("user", "Tool error (retries exhausted): " + rest)
  {
    assert ("Tool result [auto-fallback]: " + rest)[11] == ' ' && "Tool result:"[11] == ':';
    assert ("Tool error (attempt " + rest)[10] == ' ' && "Tool error:"[10] == ':';
    assert ("Tool error (retries exhausted): " + rest)[10] == ' ';
    assert ("Tool result [auto-fallback]: " + rest)[5] == 'r' && "Tool error:"[5] == 'e';
    assert ("Tool error (attempt " + rest)[5] == 'e' && "Tool result:"[5] == 'r';
    assert ("Tool error (retries exhausted): " + rest)[5] == 'e';
  }

  lemma FallbackNotRecognised(cfg: LoopConfig, name: string, failure: string, fb: string, r: ToolResult)
    ensures !IsToolText("user", FallbackText(cfg, name, failure, fb, r))
  {
    var text := FallbackText(cfg, name, failure, fb, r);
    assert text == "Tool result [auto-fallback]: " + text[29..];
    NotRecognised(text[29..]);
  }

  lemma ErrorNotRecognised(attempt: nat, error: string, hint: string)
    ensures !IsToolText("user", ErrorText(attempt, error, hint))
  {
    var text := ErrorText(attempt, error, hint);
    if attempt <= MAX_TOOL_ERROR_RETRIES {
      assert text == "Tool error (attempt " + text[20..];
      NotRecognised(text[20..]);
    } else {
      assert text == "Tool error (retries exhausted): " + text[32..];
      NotRecognised(text[32..]);
    }
  }

  // The result message a tool round appends.
  function LastContent(r: RoundResult): string {
    if r.st.messages == [] then "" else r.st.messages[|r.st.messages| - 1].content
  }

  // The tool failed hard or a fallback ran.
  predicate Rough(cfg: LoopConfig, env: Env, st: LoopState, name: string) {
    var r := env.tool(st.calls);
    cfg.hasToolExec && IsFailed(cfg, r) && (r.Failure? || cfg.fallback(name, FailureMessage(r)).Some?)
  }

  // The text after "Tool result: " of a round that went smoothly.
  function SmoothText(cfg: LoopConfig, env: Env, st: LoopState, name: string): string {
    var r := env.tool(st.calls);
    if !cfg.hasToolExec || !r.Success? then "no tool executor configured"
    else if IsFailed(cfg, r) then TruncateToolResult(r.text, cfg.ResultLen(), "") + ToolHint(name)
    else TruncateToolResult(r.text, cfg.ResultLen(), cfg.Hint())
  }

  lemma SmoothMessage(cfg: LoopConfig, env: Env, st: LoopState, stored: string, name: string)
    requires ToolRound(cfg, env, st, stored, name).Again? && !Rough(cfg, env, st, name)
    ensures LastContent(ToolRound(cfg, env, st, stored, name)) == ResultText(SmoothText(cfg, env, st, name))
  {
  }

  lemma FallbackMessage(cfg: LoopConfig, env: Env, st: LoopState, stored: string, name: string, fb: string)
    requires cfg.hasToolExec && name !in cfg.mandated && !env.tool(st.calls).JobRequest? && IsFailed(cfg, env.tool(st.calls))
    requires cfg.fallback(name, FailureMessage(env.tool(st.calls))) == Some(fb)
    ensures LastContent(ToolRound(cfg, env, st, stored, name))
         == FallbackText(cfg, name, FailureMessage(env.tool(st.calls)), fb, env.tool(st.calls + 1))
  {
  }

  lemma ErrorMessage(cfg: LoopConfig, env: Env, st: LoopState, stored: string, name: string)
    requires cfg.hasToolExec && name !in cfg.mandated && env.tool(st.calls).Failure?
    requires cfg.fallback(name, FailureMessage(env.tool(st.calls))).None?
    ensures LastContent(ToolRound(cfg, env, st, stored, name))
         == ErrorText(st.errorRetries + 1, env.tool(st.calls).error, ToolHint(name))
  {
  }

  lemma RoughNotRecognised(cfg: LoopConfig, env: Env, st: LoopState, stored: string, name: string)
    requires cfg.hasToolExec && name !in cfg.mandated && !env.tool(st.calls).JobRequest? && Rough(cfg, env, st, name)
    ensures !IsToolText("user", LastContent(ToolRound(cfg, env, st, stored, name)))
  {
    var r := env.tool(st.calls);
    var failure := FailureMessage(r);
    var fb := cfg.fallback(name, failure);
    if fb.Some? {
      FallbackMessage(cfg, env, st, stored, name, fb.value);
      FallbackNotRecognised(cfg, name, failure, fb.value, env.tool(st.calls + 1));
    } else {
      ErrorMessage(cfg, env, st, stored, name);
      ErrorNotRecognised(st.errorRetries + 1, r.error, ToolHint(name));
    }
  }

  // The result message of a tool round is recognised exactly when the tool did not fail hard
  // and no fallback ran.
  lemma RecognisedExactly(cfg: LoopConfig, env: Env, st: LoopState, stored: string, name: string)
    requires ToolRound(cfg, env, st, stored, name).Again?
    ensures IsToolText("user", LastContent(ToolRound(cfg, env, st, stored, name))) <==> !Rough(cfg, env, st, name)
  {
    if Rough(cfg, env, st, name) {
      RoughNotRecognised(cfg, env, st, stored, name);
    } else {
      SmoothMessage(cfg, env, st, stored, name);
      ResultRecognised(SmoothText(cfg, env, st, name));
    }
  }

  // Wherever the result of a tool round stands in a window behind its call, some tail separates
  // the two exactly when the tool failed hard or a fallback ran.
  lemma RoundSplitExactly(cfg: LoopConfig, env: Env, st: LoopState, stored: string, name: string,
                          window: seq<Message>, i: nat)
    requires ToolRound(cfg, env, st, stored, name).Again? && 2 <= i < |window|
    requires Strip(window[i]) == User(LastContent(ToolRound(cfg, env, st, stored, name)))
    ensures (exists maxTail :: C.Splits(window, maxTail, i)) <==> Rough(cfg, env, st, name)
  {
    RecognisedExactly(cfg, env, st, stored, name);
    C.SplitExactly(window, i);
  }

  // ---------------------------------------------------------------------------
  // The adapter
  // ---------------------------------------------------------------------------

  function BuildMessages(sys: string, history: seq<Message>, prompt: string): seq<ChatMessage> {
    [ChatMessage("system", sys)] + StripAll(history) + [User(prompt)]
  }

  method AppendHistory(messages: seq<ChatMessage>, history: seq<Message>) returns (r: seq<ChatMessage>)
    ensures r == messages + StripAll(history)
  {
    r := messages;
    for i := 0 to |history|
      invariant r == messages + StripAll(history[..i])
    {
      assert StripAll(history[..i + 1]) == StripAll(history[..i]) + [Strip(history[i])];
      r := r + [ChatMessage(history[i].role, history[i].content)];
    }
    assert history[..|history|] == history;
  }

  // The messages from index `from` on, as fresh llm messages without a time.
  method NewMessages(all: seq<ChatMessage>, from: nat) returns (r: seq<Message>)
    requires from <= |all|
    ensures StripAll(r) == all[from..] && forall k :: 0 <= k < |r| ==> r[k].time == 0
  {
    r := [];
    for i := from to |all|
      invariant |r| == i - from
      invariant forall k :: 0 <= k < |r| ==> r[k] == Message(all[from + k].role, all[from + k].content, 0)
    {
      r := r + [Message(all[i].role, all[i].content, 0)];
    }
  }

  // runGrammarOrchestrator: what comes back is exactly the prompt followed by the messages of
  // this run, whatever the history.
  method RunGrammarOrchestrator(cfg: LoopConfig, env: Env, sys: string, history: seq<Message>, prompt: string)
    returns (outcome: Outcome, newMsgs: seq<Message>)
    ensures var (o, last) := Loop(cfg, env, Start(BuildMessages(sys, history, prompt)), 0);
            && outcome == o
            && last.messages == [ChatMessage("system", sys)] + StripAll(history) + StripAll(newMsgs)
            && newMsgs != [] && Strip(newMsgs[0]) == User(prompt)
            && Shape(StripAll(newMsgs)[1..], o)
    ensures forall i :: 0 <= i < |newMsgs| ==> newMsgs[i].time == 0
  {
    var messages := AppendHistory([ChatMessage("system", sys)], history);
    var historyLen := |messages|;
    ghost var head := messages;
    messages := messages + [User(prompt)];

    var all, trace;
    outcome, all, trace := RunLoop(cfg, env, messages);
    TranscriptShape(cfg, env, messages, Start(messages), 0);
    assert messages[|messages|..] == [];

    newMsgs := [];
    if |all| > historyLen {
      newMsgs := NewMessages(all, historyLen);
    }
    assert all == head + all[historyLen..];
    assert all[|messages|..] == StripAll(newMsgs)[1..];
  }
}
