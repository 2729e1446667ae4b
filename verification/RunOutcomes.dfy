/**
  Where the result of a run comes from: the reply, the tool or the error behind every outcome, and
  the text that a tool round hands back to the model.
 */
module RunOutcomes {
  import opened Wrappers
  import opened Messages
  import opened Orchestrate
  import opened OrchestrateProperties

  // The reply of round r to the transcript ms
  function ReplyTo(cfg: LoopConfig, env: Env, r: nat, ms: seq<ChatMessage>): ChatResult { env.chat(r, cfg.trim(ms)) }

  // The transcript before its last message
  function Before(ms: seq<ChatMessage>): seq<ChatMessage> {
    if ms == [] then [] else ms[..|ms| - 1]
  }

  predicate EndsWith(ms: seq<ChatMessage>, m: ChatMessage) { ms != [] && ms[|ms| - 1] == m }

  function MaxRounds(cfg: LoopConfig): nat { if cfg.maxRounds <= 0 then 15 else cfg.maxRounds }

  // The outcome and the last messages come from the reply of round r, or of the tool it calls.
  predicate ComesFrom(cfg: LoopConfig, env: Env, r: nat, outcome: Outcome, last: LoopState) {
    match outcome
    case Answer(text) =>
      var reply := ReplyTo(cfg, env, r, Before(last.messages));
      reply.Reply? && reply.decision == Some(Respond(text)) && EndsWith(last.messages, ChatMessage("assistant", reply.stored))
    case ChatError(error) => ReplyTo(cfg, env, r, last.messages) == ChatFailed(error)
    case ParseError(round) =>
      var reply := ReplyTo(cfg, env, r, last.messages);
      round == r && reply.Reply? && reply.decision.None?
    case UnknownAction(action) =>
      var reply := ReplyTo(cfg, env, r, last.messages);
      reply.Reply? && reply.decision == Some(Unknown(action))
    case Job(tool) =>
      var reply := ReplyTo(cfg, env, r, Before(last.messages));
      && reply.Reply? && reply.decision.Some? && reply.decision.value.UseTool? && cfg.hasToolExec
      && EndsWith(last.messages, ChatMessage("assistant", reply.stored))
      && (if reply.decision.value.name in cfg.mandated then tool == reply.decision.value.name
          else last.calls > 0 && env.tool(last.calls - 1) == JobRequest(tool))
    case TooManyRounds => r == MaxRounds(cfg)
  }

  lemma RoundOutcome(cfg: LoopConfig, env: Env, st: LoopState, round: nat)
    ensures match Round(cfg, env, st, round)
            case Return(outcome, last) => ComesFrom(cfg, env, round, outcome, last) && !outcome.TooManyRounds?
            case Again(_) => true
  {
    match Round(cfg, env, st, round)
    case Again(_) =>
    case Return(outcome, last) =>
      assert outcome.Answer? || outcome.Job? ==> Before(last.messages) == st.messages;
  }

  // Every run ends with what the client replied in its last LLM call, the r-th from the start.
  lemma {:induction false} OutcomeComesFrom(cfg: LoopConfig, env: Env, st: LoopState, round: nat) returns (r: nat)
    requires round <= cfg.Rounds()
    ensures var (outcome, last) := Loop(cfg, env, st, round);
            && round <= r <= MaxRounds(cfg) && ComesFrom(cfg, env, r, outcome, last)
            && (outcome.TooManyRounds? <==> r == MaxRounds(cfg))
            && Chats(last.trace) == Chats(st.trace) + (r - round) + (if outcome.TooManyRounds? then 0 else 1)
    decreases cfg.Rounds() - round
  {
    if round == cfg.Rounds() {
      r := round;
    } else {
      RoundCalls(cfg, env, st, round);
      RoundOutcome(cfg, env, st, round);
      match Round(cfg, env, st, round)
      case Return(_, _) => r := round;
      case Again(next) => r := OutcomeComesFrom(cfg, env, next, round + 1);
    }
  }

  // ---------------------------------------------------------------------------
  // What the model reads after a tool round
  // ---------------------------------------------------------------------------

  // The longest tool text that is passed on whole
  function Limit(cfg: LoopConfig): nat { if cfg.maxToolResultLen <= 0 then 8000 else cfg.maxToolResultLen }

  // The text is the head and then the body, or the first `limit` bytes of a longer body and a note.
  predicate Shows(text: string, head: string, body: string, limit: nat) {
    head + (if |body| <= limit then body else body[..limit] + "\n... (truncated: showing ") <= text
  }

  // The round goes on with the assistant's reply and one message for the model.
  predicate Hands(cfg: LoopConfig, env: Env, st: LoopState, stored: string, name: string, text: string, calls: nat, errors: nat) {
    match ToolRound(cfg, env, st, stored, name)
    case Return(_, _) => false
    case Again(next) =>
      && next.messages == st.messages + [ChatMessage("assistant", stored), ChatMessage("user", text)]
      && next.calls == st.calls + calls && next.errorRetries == errors && next.parseRetries == st.parseRetries
  }

  function ToolText(cfg: LoopConfig, env: Env, st: LoopState, stored: string, name: string): string {
    LastContent(ToolRound(cfg, env, st, stored, name))
  }

  lemma PrefixInside(head: string, p: string, body: string, rest: string)
    requires p <= body
    ensures head + p <= head + body + rest
  {
    assert body == p + body[|p|..];
    assert head + body + rest == head + p + (body[|p|..] + rest);
  }

  lemma CutShows(body: string, limit: nat, hint: string)
    requires |body| > limit
    ensures body[..limit] + "\n... (truncated: showing " <= TruncateToolResult(body, limit, hint)
  {
    var note := "\n... (truncated: showing ";
    var tail := Decimal(limit) + " of " + Decimal(|body|) + " chars" + (if hint != "" then ". " + hint else "") + ")";
    assert TruncateToolResult(body, limit, hint) == (body[..limit] + note) + tail;
  }

  lemma TruncatedShows(head: string, body: string, limit: nat, hint: string, rest: string)
    ensures Shows(head + TruncateToolResult(body, limit, hint) + rest, head, body, limit)
    ensures |body| <= limit ==> TruncateToolResult(body, limit, hint) == body
  {
    if |body| > limit {
      CutShows(body, limit, hint);
      PrefixInside(head, body[..limit] + "\n... (truncated: showing ", TruncateToolResult(body, limit, hint), rest);
    } else {
      PrefixInside(head, body, body, rest);
    }
  }

  // A tool that works: its text, and the count of errors starts anew.
  lemma SuccessText(cfg: LoopConfig, env: Env, st: LoopState, stored: string, name: string)
    requires cfg.hasToolExec && name !in cfg.mandated && env.tool(st.calls).Success?
    requires !(cfg.softErrorDetection && cfg.softError(env.tool(st.calls).text))
    ensures Hands(cfg, env, st, stored, name, ToolText(cfg, env, st, stored, name), 1, 0)
    ensures var body := env.tool(st.calls).text; var text := ToolText(cfg, env, st, stored, name);
            && Shows(text, "Tool result: ", body, Limit(cfg))
            && (|body| <= Limit(cfg) ==> text == "Tool result: " + body)
  {
    var body := env.tool(st.calls).text;
    TruncatedShows("Tool result: ", body, Limit(cfg), cfg.Hint(), "");
    var cut := TruncateToolResult(body, Limit(cfg), cfg.Hint());
    assert "Tool result: " + cut + "" == "Tool result: " + cut;
    assert ToolText(cfg, env, st, stored, name) == "Tool result: " + cut;
  }

  lemma NoExecutorText(cfg: LoopConfig, env: Env, st: LoopState, stored: string, name: string)
    requires !cfg.hasToolExec
    ensures Hands(cfg, env, st, stored, name, "Tool result: " + "no tool executor configured", 0, st.errorRetries)
  {
    var m := User(ResultText("no tool executor configured"));
    assert ToolRound(cfg, env, st, stored, name) == Again(Say(Say(st, Assistant(stored)), m));
    assert (st.messages + [Assistant(stored)]) + [m] == st.messages + [Assistant(stored), m];
  }

  // A tool whose text reads like an error, without a fallback: its text and a hint; errors are not counted.
  lemma SoftErrorText(cfg: LoopConfig, env: Env, st: LoopState, stored: string, name: string)
    requires cfg.hasToolExec && name !in cfg.mandated && env.tool(st.calls).Success?
    requires cfg.softErrorDetection && cfg.softError(env.tool(st.calls).text) && cfg.fallback(name, env.tool(st.calls).text).None?
    ensures Hands(cfg, env, st, stored, name, ToolText(cfg, env, st, stored, name), 1, st.errorRetries)
    ensures Shows(ToolText(cfg, env, st, stored, name), "Tool result: ", env.tool(st.calls).text, Limit(cfg))
  {
    var body, hint := env.tool(st.calls).text, ToolHint(name);
    var cut := TruncateToolResult(body, Limit(cfg), "");
    TruncatedShows("Tool result: ", body, Limit(cfg), "", hint);
    ConcatAssoc("Tool result: ", cut, hint);
    assert ToolText(cfg, env, st, stored, name) == "Tool result: " + (cut + hint);
  }

  function ErrorHead(attempt: nat): string {
    if attempt <= 3 then "Tool error (attempt " + Decimal(attempt) + "/3): " else "Tool error (retries exhausted): "
  }

  lemma ErrorShows(attempt: nat, error: string, hint: string)
    ensures ErrorHead(attempt) + error <= ErrorText(attempt, error, hint)
  {
    if attempt <= 3 {
      var front := "Tool error (attempt " + Decimal(attempt);
      assert Decimal(MAX_TOOL_ERROR_RETRIES) == "3";
      assert front + "/" + "3" + "): " == front + "/3): ";
    }
  }

  // A tool that fails, without a fallback: its error, with the number of the attempt.
  lemma HardErrorText(cfg: LoopConfig, env: Env, st: LoopState, stored: string, name: string)
    requires cfg.hasToolExec && name !in cfg.mandated && env.tool(st.calls).Failure?
    requires cfg.fallback(name, env.tool(st.calls).error).None?
    ensures Hands(cfg, env, st, stored, name, ToolText(cfg, env, st, stored, name), 1, st.errorRetries + 1)
    ensures ErrorHead(st.errorRetries + 1) + env.tool(st.calls).error <= ToolText(cfg, env, st, stored, name)
  {
    ErrorMessage(cfg, env, st, stored, name);
    ErrorShows(st.errorRetries + 1, env.tool(st.calls).error, ToolHint(name));
    HardErrorHands(cfg, env, st, stored, name);
  }

  lemma HardErrorHands(cfg: LoopConfig, env: Env, st: LoopState, stored: string, name: string)
    requires cfg.hasToolExec && name !in cfg.mandated && env.tool(st.calls).Failure?
    requires cfg.fallback(name, env.tool(st.calls).error).None?
    ensures Hands(cfg, env, st, stored, name, ToolText(cfg, env, st, stored, name), 1, st.errorRetries + 1)
  {
  }

  function FallbackHead(name: string, failure: string, fb: string): string {
    "Tool result [auto-fallback]: " + name + " failed (" + failure + "). Fallback to " + fb
  }

  // What failed: the error, or the text that reads like one
  predicate FailsWith(cfg: LoopConfig, r: ToolResult, failure: string) {
    (r.Failure? && r.error == failure) || (r.Success? && cfg.softErrorDetection && cfg.softError(r.text) && r.text == failure)
  }

  lemma FallbackShows(cfg: LoopConfig, name: string, failure: string, fb: string, r: ToolResult)
    ensures var text := FallbackText(cfg, name, failure, fb, r);
            match r
            case Success(body) => Shows(text, FallbackHead(name, failure, fb) + ":\n", body, Limit(cfg))
            case Failure(error) => text == FallbackHead(name, failure, fb) + " also failed: " + error
            case JobRequest(_) => FallbackHead(name, failure, fb) + " also failed: " <= text
  {
    var head := FallbackHead(name, failure, fb);
    match r
    case Success(body) =>
      var cut := TruncateToolResult(body, Limit(cfg), "");
      TruncatedShows(head + ":\n", body, Limit(cfg), "", "");
      ConcatAssoc(head, ":\n", cut);
      assert head + ":\n" + cut + "" == head + ":\n" + cut;
    case Failure(error) => ConcatAssoc(head, " also failed: ", error);
    case JobRequest(tool) => JobFails(head, tool);
  }

  lemma JobFails(head: string, tool: string)
    ensures head + " also failed: " <= head + (" also failed: background job requested for " + tool)
  {
    var whole := " also failed: background job requested for " + tool;
    assert whole[..14] == " also failed: ";
    PrefixInside(head, whole[..14], whole, "");
    assert head + whole + "" == head + whole;
  }

  // A fallback tool runs instead: what failed, and what the fallback returned; errors are not counted.
  lemma FallbackRan(cfg: LoopConfig, env: Env, st: LoopState, stored: string, name: string, failure: string, fb: string)
    requires cfg.hasToolExec && name !in cfg.mandated && FailsWith(cfg, env.tool(st.calls), failure)
    requires cfg.fallback(name, failure) == Some(fb)
    ensures Hands(cfg, env, st, stored, name, ToolText(cfg, env, st, stored, name), 2, st.errorRetries)
    ensures var text := ToolText(cfg, env, st, stored, name);
            match env.tool(st.calls + 1)
            case Success(body) => Shows(text, FallbackHead(name, failure, fb) + ":\n", body, Limit(cfg))
            case Failure(error) => text == FallbackHead(name, failure, fb) + " also failed: " + error
            case JobRequest(_) => FallbackHead(name, failure, fb) + " also failed: " <= text
  {
    FallbackMessage(cfg, env, st, stored, name, fb);
    FallbackShows(cfg, name, failure, fb, env.tool(st.calls + 1));
    FallbackHands(cfg, env, st, stored, name, failure, fb);
  }

  lemma FallbackHands(cfg: LoopConfig, env: Env, st: LoopState, stored: string, name: string, failure: string, fb: string)
    requires cfg.hasToolExec && name !in cfg.mandated && FailsWith(cfg, env.tool(st.calls), failure)
    requires cfg.fallback(name, failure) == Some(fb)
    ensures Hands(cfg, env, st, stored, name, ToolText(cfg, env, st, stored, name), 2, st.errorRetries)
  {
  }

  // A round that goes on either could not parse the reply, and left the transcript alone, or called
  // the tool the reply names.
  lemma RoundContinues(cfg: LoopConfig, env: Env, st: LoopState, round: nat)
    requires Round(cfg, env, st, round).Again?
    ensures var next, reply := After(Round(cfg, env, st, round)), ReplyTo(cfg, env, round, st.messages);
            && reply.Reply?
            && match reply.decision
               case None => next.messages == st.messages && next.calls == st.calls && next.errorRetries == st.errorRetries
               case Some(UseTool(name)) =>
                 var begun := st.(trace := st.trace + [Chatted(true)], parseRetries := 0);
                 Round(cfg, env, st, round) == ToolRound(cfg, env, begun, reply.stored, name)
               case _ => false
  {
  }
}
