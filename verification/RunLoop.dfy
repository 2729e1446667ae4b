/**
  The orchestrator loop (orchestrate/loop.go) and its adapter (llm/orchestrator.go).

  The LLM, the tools and the slot callbacks are an environment `Env` indexed by the number of
  the call; JSON parsing, soft-error detection and fallback matching are configuration functions.
 */
module Orchestrate {
  import opened Wrappers
  import opened Messages

  const MAX_PARSE_RETRIES := 3
  const MAX_TOOL_ERROR_RETRIES := 3

  datatype Decision = Respond(text: string) | UseTool(name: string) | Unknown(action: string)

  // One chatFn call: an error, or the content to store and what it parses to.
  datatype ChatResult = ChatFailed(error: string) | Reply(stored: string, decision: Option<Decision>)

  // One toolExec call; JobRequest is the BackgroundJobRequest sentinel error.
  datatype ToolResult = Success(text: string) | Failure(error: string) | JobRequest(tool: string)

  datatype Env = Env(chat: (nat, seq<ChatMessage>) -> ChatResult, tool: nat -> ToolResult, reacquire: nat -> bool)

  datatype LoopConfig = LoopConfig(
    maxRounds: int,
    maxToolResultLen: int,
    overflowHint: string,
    hasToolExec: bool,
    softErrorDetection: bool,
    softError: string -> bool,
    mandated: set<string>,
    fallback: (string, string) -> Option<string>,
    trim: seq<ChatMessage> -> seq<ChatMessage>)
  {
    function Rounds(): nat { if maxRounds <= 0 then 15 else maxRounds }
    function ResultLen(): nat { if maxToolResultLen <= 0 then 8000 else maxToolResultLen }
    function Hint(): string {
      if overflowHint == "" then "Use specific queries or filters to narrow results" else overflowHint
    }
  }

  // What the callbacks observe, in order.
  datatype Event = Chatted(ok: bool) | ToolStarted(tool: string) | ToolFinished(reacquired: bool)

  datatype Outcome =
    | Answer(text: string)
    | ChatError(error: string)
    | ParseError(round: nat)
    | UnknownAction(action: string)
    | Job(tool: string)
    | TooManyRounds

  datatype LoopState = LoopState(messages: seq<ChatMessage>, parseRetries: nat, errorRetries: nat,
                                 calls: nat, trace: seq<Event>)

  datatype RoundResult = Again(st: LoopState) | Return(outcome: Outcome, st: LoopState)

  function User(content: string): ChatMessage { ChatMessage("user", content) }

  function Assistant(content: string): ChatMessage { ChatMessage("assistant", content) }

  function ToolHint(name: string): string {
    if HasPrefix(name, "get-") || HasPrefix(name, "twitter-") then "\nHint: consider using search_web as a fallback."
    else if name == "search_email" || name == "search_calendar" then "\nHint: try broadening the query or adjusting time bounds."
    else if name == "search_memory" then "\nHint: try different keywords or broader terms."
    else ""
  }

  // callTool: start callback, execution, end callback.
  function CallTool(env: Env, st: LoopState, name: string): (ToolResult, LoopState) {
    (env.tool(st.calls),
     st.(calls := st.calls + 1,
         trace := st.trace + [ToolStarted(name), ToolFinished(env.reacquire(st.calls))]))
  }

  function Say(st: LoopState, m: ChatMessage): LoopState {
    st.(messages := st.messages + [m])
  }

  function ResultText(text: string): string { "Tool result: " + text }

  function ErrorText(attempt: nat, error: string, hint: string): string {
    if attempt <= MAX_TOOL_ERROR_RETRIES then
      "Tool error (attempt " + Decimal(attempt) + "/" + Decimal(MAX_TOOL_ERROR_RETRIES) + "): " + error + hint
      + "\nReformulate with corrected parameters or try a different tool."
    else "Tool error (retries exhausted): " + error + hint
  }

  function FallbackText(cfg: LoopConfig, name: string, failure: string, fb: string, r: ToolResult): string {
    "Tool result [auto-fallback]: " + name + " failed (" + failure + "). Fallback to " + fb +
    match r
    case Success(text) => ":\n" + TruncateToolResult(text, cfg.ResultLen(), "")
    case Failure(error) => " also failed: " + error
    case JobRequest(tool) => " also failed: background job requested for " + tool
  }

  function IsFailed(cfg: LoopConfig, r: ToolResult): bool {
    r.Failure? || (r.Success? && cfg.softErrorDetection && cfg.softError(r.text))
  }

  function FailureMessage(r: ToolResult): string {
    match r case Success(text) => text case Failure(error) => error case JobRequest(tool) => ""
  }

  // What a failed tool leads to: a fallback tool, an error text, or the text it returned with a hint.
  function FailedTool(cfg: LoopConfig, env: Env, st: LoopState, name: string, r: ToolResult): LoopState
    requires !r.JobRequest?
  {
    match cfg.fallback(name, FailureMessage(r))
    case Some(fb) =>
      var (r', st') := CallTool(env, st, fb);
      Say(st', User(FallbackText(cfg, name, FailureMessage(r), fb, r')))
    case None =>
      if r.Failure? then
        var attempt := st.errorRetries + 1;
        Say(st.(errorRetries := attempt), User(ErrorText(attempt, r.error, ToolHint(name))))
      else
        Say(st, User(ResultText(TruncateToolResult(r.text, cfg.ResultLen(), "") + ToolHint(name))))
  }

  // What a tool's result leads to
  function AfterTool(cfg: LoopConfig, env: Env, st: LoopState, name: string, r: ToolResult): RoundResult {
    if r.JobRequest? then Return(Job(r.tool), st)
    else if IsFailed(cfg, r) then Again(FailedTool(cfg, env, st, name, r))
    else
      Again(Say(st.(errorRetries := 0),
                User(ResultText(TruncateToolResult(r.text, cfg.ResultLen(), cfg.Hint())))))
  }

  // The tool-call half of a round.
  function ToolRound(cfg: LoopConfig, env: Env, st: LoopState, stored: string, name: string): RoundResult {
    var st1 := Say(st, Assistant(stored));
    if !cfg.hasToolExec then Again(Say(st1, User(ResultText("no tool executor configured"))))
    else if name in cfg.mandated then Return(Job(name), st1)
    else
      var (r, st2) := CallTool(env, st1, name);
      AfterTool(cfg, env, st2, name, r)
  }

  // One iteration of the loop.
  function Round(cfg: LoopConfig, env: Env, st: LoopState, round: nat): RoundResult {
    match env.chat(round, cfg.trim(st.messages))
    case ChatFailed(error) => Return(ChatError(error), st.(trace := st.trace + [Chatted(false)]))
    case Reply(stored, decision) =>
      var st1 := st.(trace := st.trace + [Chatted(true)]);
      match decision
      case None =>
        var st2 := st1.(parseRetries := st1.parseRetries + 1);
        if st2.parseRetries <= MAX_PARSE_RETRIES then Again(st2) else Return(ParseError(round), st2)
      case Some(Respond(text)) => Return(Answer(text), Say(st1.(parseRetries := 0), Assistant(stored)))
      case Some(Unknown(action)) => Return(UnknownAction(action), st1.(parseRetries := 0))
      case Some(UseTool(name)) => ToolRound(cfg, env, st1.(parseRetries := 0), stored, name)
  }

  // The loop from `round` on.
  function Loop(cfg: LoopConfig, env: Env, st: LoopState, round: nat): (Outcome, LoopState)
    requires round <= cfg.Rounds()
    decreases cfg.Rounds() - round
  {
    if round == cfg.Rounds() then (TooManyRounds, st)
    else
      match Round(cfg, env, st, round)
      case Return(outcome, st') => (outcome, st')
      case Again(st') => Loop(cfg, env, st', round + 1)
  }

  function Start(messages: seq<ChatMessage>): LoopState {
    LoopState(messages, 0, 0, 0, [])
  }

  // ---------------------------------------------------------------------------
  // The imperative loop
  // ---------------------------------------------------------------------------

  // The failure path of a tool call
  method FailedPath(cfg: LoopConfig, env: Env, name: string, result: ToolResult, maxToolResult: nat,
                    messages: seq<ChatMessage>, retries: nat, called: nat, events: seq<Event>)
    returns (msgs: seq<ChatMessage>, errorRetries: nat, calls: nat, trace: seq<Event>)
    requires maxToolResult == cfg.ResultLen() && !result.JobRequest?
    ensures LoopState(msgs, 0, errorRetries, calls, trace)
         == FailedTool(cfg, env, LoopState(messages, 0, retries, called, events), name, result)
  {
    msgs, errorRetries, calls, trace := messages, retries, called, events;
    var failure := if result.Failure? then result.error else result.text;
    var fb := cfg.fallback(name, failure);
    if fb.Some? {
      var fbResult := env.tool(calls);
      trace := trace + [ToolStarted(fb.value), ToolFinished(env.reacquire(calls))];
      calls := calls + 1;
      msgs := msgs + [User(FallbackText(cfg, name, failure, fb.value, fbResult))];
    } else if result.Failure? {
      errorRetries := errorRetries + 1;
      msgs := msgs + [User(ErrorText(errorRetries, result.error, ToolHint(name)))];
    } else {
      msgs := msgs + [User(ResultText(TruncateToolResult(result.text, maxToolResult, "") + ToolHint(name)))];
    }
  }

  // What follows the execution of a tool: `again` says the loop continues.
  method ResultPath(cfg: LoopConfig, env: Env, name: string, result: ToolResult, maxToolResult: nat, hint: string,
                    messages: seq<ChatMessage>, retries: nat, called: nat, events: seq<Event>)
    returns (again: bool, outcome: Outcome, msgs: seq<ChatMessage>, errorRetries: nat, calls: nat, trace: seq<Event>)
    requires maxToolResult == cfg.ResultLen() && hint == cfg.Hint()
    ensures var st := LoopState(msgs, 0, errorRetries, calls, trace);
            AfterTool(cfg, env, LoopState(messages, 0, retries, called, events), name, result)
            == if again then Again(st) else Return(outcome, st)
  {
    again, outcome, msgs, errorRetries, calls, trace := true, TooManyRounds, messages, retries, called, events;
    if result.JobRequest? {
      again, outcome := false, Job(result.tool);
      return;
    }
    var failed := result.Failure?;
    if result.Success? && cfg.softErrorDetection && cfg.softError(result.text) {
      failed := true;
    }
    if failed {
      msgs, errorRetries, calls, trace :=
        FailedPath(cfg, env, name, result, maxToolResult, msgs, errorRetries, calls, trace);
      return;
    }
    errorRetries := 0;
    msgs := msgs + [User(ResultText(TruncateToolResult(result.text, maxToolResult, hint)))];
  }

  // The tool-call path of one round
  method ToolPath(cfg: LoopConfig, env: Env, stored: string, name: string, maxToolResult: nat, hint: string,
                  messages: seq<ChatMessage>, retries: nat, called: nat, events: seq<Event>)
    returns (again: bool, outcome: Outcome, msgs: seq<ChatMessage>, errorRetries: nat, calls: nat, trace: seq<Event>)
    requires maxToolResult == cfg.ResultLen() && hint == cfg.Hint()
    ensures var st := LoopState(msgs, 0, errorRetries, calls, trace);
            ToolRound(cfg, env, LoopState(messages, 0, retries, called, events), stored, name)
            == if again then Again(st) else Return(outcome, st)
  {
    again, outcome, errorRetries, calls, trace := true, TooManyRounds, retries, called, events;
    msgs := messages + [Assistant(stored)];
    if !cfg.hasToolExec {
      msgs := msgs + [User(ResultText("no tool executor configured"))];
      return;
    }
    if name in cfg.mandated {
      again, outcome := false, Job(name);
      return;
    }
    var result := env.tool(calls);
    trace := trace + [ToolStarted(name), ToolFinished(env.reacquire(calls))];
    calls := calls + 1;
    again, outcome, msgs, errorRetries, calls, trace :=
      ResultPath(cfg, env, name, result, maxToolResult, hint, msgs, errorRetries, calls, trace);
  }

  // The body of one iteration; `again` stands for `continue`.
  method RoundBody(cfg: LoopConfig, env: Env, round: nat, maxToolResult: nat, hint: string,
                   messages: seq<ChatMessage>, parses: nat, retries: nat, called: nat, events: seq<Event>)
    returns (again: bool, outcome: Outcome, msgs: seq<ChatMessage>, parseRetries: nat, errorRetries: nat,
             calls: nat, trace: seq<Event>)
    requires maxToolResult == cfg.ResultLen() && hint == cfg.Hint()
    ensures var st := LoopState(msgs, parseRetries, errorRetries, calls, trace);
            Round(cfg, env, LoopState(messages, parses, retries, called, events), round)
            == if again then Again(st) else Return(outcome, st)
  {
    again, msgs, parseRetries, errorRetries, calls := false, messages, parses, retries, called;
    var chat := env.chat(round, cfg.trim(msgs));
    trace := events + [Chatted(chat.Reply?)];
    if chat.ChatFailed? {
      outcome := ChatError(chat.error);
      return;
    }
    if chat.decision.None? {
      parseRetries := parseRetries + 1;
      again, outcome := parseRetries <= MAX_PARSE_RETRIES, ParseError(round);
      return;
    }
    parseRetries := 0;
    var dec := chat.decision.value;
    if dec.Respond? {
      msgs := msgs + [Assistant(chat.stored)];
      outcome := Answer(dec.text);
      return;
    }
    if !dec.UseTool? {
      outcome := UnknownAction(dec.action);
      return;
    }
    again, outcome, msgs, errorRetries, calls, trace :=
      ToolPath(cfg, env, chat.stored, dec.name, maxToolResult, hint, msgs, errorRetries, calls, trace);
  }

  method RunLoop(cfg: LoopConfig, env: Env, messages: seq<ChatMessage>)
    returns (outcome: Outcome, msgs: seq<ChatMessage>, trace: seq<Event>)
    ensures var (o, st) := Loop(cfg, env, Start(messages), 0);
            outcome == o && msgs == st.messages && trace == st.trace
  {
    var maxRounds := cfg.maxRounds;
    if maxRounds <= 0 { maxRounds := 15; }
    var maxToolResult := cfg.maxToolResultLen;
    if maxToolResult <= 0 { maxToolResult := 8000; }
    var hint := cfg.overflowHint;
    if hint == "" { hint := "Use specific queries or filters to narrow results"; }

    msgs, trace := messages, [];
    var parseRetries: nat, errorRetries: nat, calls: nat := 0, 0, 0;
    for round := 0 to maxRounds
      invariant Loop(cfg, env, Start(messages), 0)
             == Loop(cfg, env, LoopState(msgs, parseRetries, errorRetries, calls, trace), round)
    {
      var again: bool;
      again, outcome, msgs, parseRetries, errorRetries, calls, trace :=
        RoundBody(cfg, env, round, maxToolResult, hint, msgs, parseRetries, errorRetries, calls, trace);
      if !again {
        return;
      }
    }
    return TooManyRounds, msgs, trace;
  }
}
