/** The orchestrator: one voice turn goes from transcript to parsed intent, then either to one
    browser command or to a multi-step workflow, with the conversation, the workflow record and
    memories written along the way and the outcome spoken back. The agent's own state is its turn
    counter, its running flag and the current workflow record; the components it owns are the
    browser driver, the session cache, the memory layer and the speech wrapper. */
module VoiceBrowserAgent {
  import opened Strings
  import opened Py
  import B = BrowserAutomation
  import P = IntentParser
  import T = TextToSpeech
  import R = RedisCache
  import M = MemoryLayer

  const WORKFLOW_KEYWORDS: seq<string> := ["and then", "after that", "next", "then", "also", "also do"]

  /** `_is_workflow_command`: the lower-cased `context` (default "") contains one of the keywords.
      A non-dict intent or a non-string context raises. */
  function IsWorkflowCommand(intent: Value): (r: Result<bool>)
    ensures r.Ok? <==> intent.Dict? && FieldOr(intent, "context", Str("")).Str?
    ensures r.Ok? ==> r.value == exists k :: k in WORKFLOW_KEYWORDS && Contains(Lower(FieldOr(intent, "context", Str("")).s), k)
  {
    var context :- Get(intent, "context", Str(""));
    var lowered :- LowerOf(context);
    Ok(exists k :: k in WORKFLOW_KEYWORDS && Contains(lowered, k))
  }

  /** The six keywords come down to four: "and then" holds "then" and "also do" holds "also", so
      any context mentioning "then" or "also" starts a workflow. */
  lemma WorkflowKeywordsReduce(context: string)
    ensures (exists k :: k in WORKFLOW_KEYWORDS && Contains(context, k))
            <==> Contains(context, "then") || Contains(context, "also") || Contains(context, "next") || Contains(context, "after that")
  {
    assert WORKFLOW_KEYWORDS[3] == "then" && WORKFLOW_KEYWORDS[4] == "also";
    assert WORKFLOW_KEYWORDS[2] == "next" && WORKFLOW_KEYWORDS[1] == "after that";
    if Contains(context, "and then") {
      assert Contains("and then", "then") by { assert StartsWith("and then"[4..], "then"); }
      ContainsTransitive(context, "and then", "then");
    }
    if Contains(context, "also do") {
      assert StartsWith("also do", "also");
      ContainsTransitive(context, "also do", "also");
    }
  }

  /** The fixed inputs: the agent's session id, the browser service and the memory backend. */
  datatype Env = Env(sessionId: string, net: B.Remote, backend: M.Mem0)

  /** The model's answers for one turn: to the single-intent prompt, to the multi-step prompt, and
      to the single-intent prompt the multi-step parser falls back on. */
  datatype Replies = Replies(intent: P.Completion, steps: P.Completion, single: P.Completion)

  /** Everything a turn can change: the agent's fields and its components' states. */
  datatype AgentState = AgentState(
    turn: nat, running: bool, workflow: Value,
    browser: B.BrowserState, cache: R.CacheState, memory: M.MemoryState, tts: T.SpeakerState)

  const NOT_UNDERSTOOD := "I didn't understand that command. Please try again."
  const NO_STEPS := "Could not parse workflow steps."

  function Say(a: AgentState, text: string): AgentState {
    a.(tts := T.SpeakSpec(a.tts, text).0)
  }

  /** `speak_error`. */
  function SayError(a: AgentState, message: string): AgentState {
    Say(a, "Error: " + message)
  }

  function TurnRecord(env: Env, n: nat, transcript: string, clock: R.Clock): Value {
    Dict([("turn_id", Str("turn_" + NatText(n))), ("transcript", Str(transcript)),
          ("timestamp", Str(clock.iso)), ("session_id", Str(env.sessionId))])
  }

  function ResultRecord(env: Env, n: nat, intent: Value, result: Value, clock: R.Clock): Value {
    Dict([("turn_id", Str("turn_" + NatText(n) + "_result")), ("intent", intent), ("result", result),
          ("timestamp", Str(clock.iso)), ("session_id", Str(env.sessionId))])
  }

  /** `_build_context`: recent history, the stored browser state, memory hits and the current page.
      Only reading the page sends requests. */
  function ContextSpec(env: Env, a: AgentState): (r: (AgentState, Value))
    ensures r.0 == a.(browser := B.PageContentSpec(env.net, a.browser).0)
  {
    var page := B.PageContentSpec(env.net, a.browser);
    (a.(browser := page.0),
     Dict([("conversation_history", List(R.HistorySpec(a.cache, 5))),
           ("browser_state", R.BrowserStateSpec(a.cache)),
           ("memory_context", List(M.SearchSpec(a.memory, env.backend, M.CONVERSATION_QUERY, 3))),
           ("current_page", page.1)]))
  }

  /** `_execute_single_command`: send the intent; a raise is spoken as a failure, anything else
      goes on to `CommandDoneSpec`. */
  function SingleSpec(env: Env, a: AgentState, transcript: string, intent: Value, clock: R.Clock): (r: AgentState)
    requires intent.Dict?
    ensures r.turn == a.turn && r.running == a.running && r.workflow == a.workflow
  {
    var c := B.CommandSpec(env.net, a.browser, intent);
    if c.out.Raise? then SayError(a.(browser := c.state), "Command execution failed: " + c.out.error)
    else CommandDoneSpec(env, a.(browser := c.state), transcript, intent, c.out.value, clock)
  }

  /** After a send that returned: record the result turn and the memory, speak the response,
      screenshot a success, and go on to `ExtractionSpec` for an EXTRACT intent. */
  function CommandDoneSpec(env: Env, a: AgentState, transcript: string, intent: Value, result: Value, clock: R.Clock): (r: AgentState)
    requires intent.Dict? && result.Dict?
    ensures r.turn == a.turn && r.running == a.running && r.workflow == a.workflow
  {
    var a1 := a.(cache := R.StoreTurnSpec(a.cache, ResultRecord(env, a.turn, intent, result, clock), clock),
                 memory := M.StoreConversationSpec(a.memory, env.backend, transcript, intent, result, clock.iso).0);
    match T.BuildCommandResponse(intent, result)
    case Raise(e) => SayError(a1, "Command execution failed: " + e)
    case Ok(response) =>
      var a2 := Say(a1, response);
      var a3 := if Truthy(FieldOr(result, "success", Bool(false))) then a2.(browser := B.ScreenshotSpec(env.net, a2.browser).0) else a2;
      if Field(intent, "intent") != Str("EXTRACT") then a3 else ExtractionSpec(env, a3, intent, result, clock)
  }

  /** The EXTRACT tail: `data_type` defaults to "text"; data that came back is stored in the
      cache, and the copy the cache stamped goes to memory with the page's url and title. */
  function ExtractionSpec(env: Env, a: AgentState, intent: Value, result: Value, clock: R.Clock): (r: AgentState)
    requires intent.Dict? && result.Dict?
    ensures r.turn == a.turn && r.running == a.running && r.workflow == a.workflow
  {
    match Get(FieldOr(intent, "parameters", EMPTY), "data_type", Str("text"))
    case Raise(e) => SayError(a, "Command execution failed: " + e)
    case Ok(dataType) =>
      var x := B.ExtractSpec(env.net, a.browser, ToStr(dataType));
      var a1 := a.(browser := x.0);
      if !Truthy(x.1) then a1
      else
        var stamped := R.Tagged(a1.cache, x.1, clock, "data_type", dataType);
        a1.(cache := R.StoreExtractedSpec(a1.cache, x.1, dataType, clock),
            memory := M.StoreBrowserSpec(a1.memory, env.backend, FieldOr(result, "url", Str("")),
                                         FieldOr(result, "title", Str("")), stamped, clock.iso).0)
  }

  function WorkflowId(n: nat): string {
    "workflow_" + NatText(n)
  }

  /** The record `_execute_workflow` starts from. */
  function RunningRecord(id: string, intents: Value): Value {
    Dict([("id", Str(id)), ("intents", intents), ("status", Str("running")), ("current_step", Int(0))])
  }

  /** The record after the run: status completed, results attached. */
  function CompletedRecord(record: Value, results: seq<Value>): Value
    requires record.Dict?
  {
    Assign(Assign(record, "status", Str("completed")), "results", List(results))
  }

  /** The memory `_execute_workflow` stores about a finished run. */
  function WorkflowOutcome(results: seq<Value>, count: nat): Value {
    Dict([("results", List(results)), ("success_count", Int(count))])
  }

  /** The multi-step parser only hands back values `len()` accepts, so its steps can always be
      iterated and measured. */
  lemma StepsIterable(replies: Replies, loads: string -> Result<Value>)
    ensures var intents := P.ParseMultiStepIntent(replies.steps, replies.single, loads);
      Len(intents).Ok? && Iter(intents).Ok?
  {
  }

  /** `_execute_workflow` from the steps the multi-step parser produced: no steps is an error; otherwise the running record is made, tagged by the
      cache store and kept as the current workflow, and the steps run in `RunWorkflowSpec`. */
  function WorkflowRunSpec(env: Env, a: AgentState, intents: Value, clock: R.Clock): (r: AgentState)
    requires Len(intents).Ok?
    ensures r.turn == a.turn && r.running == a.running
  {
    if !Truthy(intents) then SayError(a, NO_STEPS)
    else
      var id := WorkflowId(a.turn);
      RunWorkflowSpec(env, Recorded(a, id, RunningRecord(id, intents), clock), id, intents, Iter(intents).value, clock)
  }

  /** Storing the workflow record: the cache keeps it under `workflow:<id>`, and the agent keeps
      the dict the store tagged in place. */
  function Recorded(a: AgentState, id: string, record: Value, clock: R.Clock): (r: AgentState)
    ensures r.turn == a.turn && r.running == a.running && r.browser == a.browser && r.memory == a.memory && r.tts == a.tts
  {
    a.(workflow := R.Tagged(a.cache, record, clock, "workflow_id", Str(id)),
       cache := R.StoreWorkflowSpec(a.cache, id, record, clock))
  }

  /** Running the steps: a raise is spoken and leaves the record running; otherwise the record is
      completed and stored again, and the run reported by `ReportWorkflowSpec`. */
  function RunWorkflowSpec(env: Env, a: AgentState, id: string, intents: Value, steps: seq<Value>, clock: R.Clock): (r: AgentState)
    requires a.workflow.Dict?
    ensures r.turn == a.turn && r.running == a.running
  {
    var run := B.WorkflowSpec(env.net, a.browser, steps);
    var a1 := a.(browser := run.state);
    if run.out.Raise? then SayError(a1, "Workflow execution failed: " + run.out.error)
    else CompleteWorkflowSpec(env, a1, id, intents, run.out.value, clock)
  }

  /** A run that returned: the record is completed and stored again, then the results are
      counted and reported. */
  function CompleteWorkflowSpec(env: Env, a: AgentState, id: string, intents: Value, results: seq<Value>, clock: R.Clock): (r: AgentState)
    requires a.workflow.Dict?
    ensures r.turn == a.turn && r.running == a.running
  {
    var a1 := Recorded(a, id, CompletedRecord(a.workflow, results), clock);
    match T.SuccessCount(results)
    case Raise(e) => SayError(a1, "Workflow execution failed: " + e)
    case Ok(count) => ReportWorkflowSpec(env, a1, id, intents, results, count, clock)
  }

  /** The report on a finished run: a memory with the success count, the spoken summary, a
      screenshot. */
  function ReportWorkflowSpec(env: Env, a: AgentState, id: string, intents: Value, results: seq<Value>, count: nat, clock: R.Clock): (r: AgentState)
    requires T.SuccessCount(results) == Ok(count)
    ensures r.turn == a.turn && r.running == a.running && r.workflow == a.workflow && r.cache == a.cache
  {
    var a1 := a.(memory := M.StoreWorkflowSpec(a.memory, env.backend, "Workflow " + id, intents,
                                               WorkflowOutcome(results, count), clock.iso).0);
    var a2 := Say(a1, T.BuildWorkflowResponse(results).value);
    a2.(browser := B.ScreenshotSpec(env.net, a2.browser).0)
  }

  /** `process_voice_input`: count the turn, record it, read the context, parse, then reject the
      intent or run exactly one of the two paths. */
  function ProcessSpec(env: Env, a: AgentState, transcript: string, replies: Replies, clock: R.Clock): (r: AgentState)
    ensures r.turn == a.turn + 1 && r.running == a.running
  {
    RespondSpec(env, CountTurnSpec(env, a, transcript, clock), transcript, replies, clock)
  }

  /** The first step of `process_voice_input`: the turn counter goes up and the turn is stored
      in the cache under its new number. */
  function CountTurnSpec(env: Env, a: AgentState, transcript: string, clock: R.Clock): AgentState {
    a.(turn := a.turn + 1, cache := R.StoreTurnSpec(a.cache, TurnRecord(env, a.turn + 1, transcript, clock), clock))
  }

  /** The rest of `process_voice_input`: read the context, then route the transcript. */
  function RespondSpec(env: Env, a: AgentState, transcript: string, replies: Replies, clock: R.Clock): (r: AgentState)
    ensures r.turn == a.turn && r.running == a.running
  {
    RouteSpec(env, ContextSpec(env, a).0, transcript, replies, clock)
  }

  /** The rest of `process_voice_input`, once the context is read: parse, then answer an invalid
      intent with an error or run the path the intent calls for. */
  function RouteSpec(env: Env, a2: AgentState, transcript: string, replies: Replies, clock: R.Clock): (r: AgentState)
    ensures r.turn == a2.turn && r.running == a2.running
  {
    var intent := P.ParseIntent(replies.intent, env.net.loads);
    match P.ValidateIntent(intent)
    case Raise(e) => SayError(a2, "Error processing command: " + e)
    case Ok(valid) =>
      if !valid then SayError(a2, NOT_UNDERSTOOD)
      else
        match IsWorkflowCommand(intent)
        case Raise(e) => SayError(a2, "Error processing command: " + e)
        case Ok(multi) =>
          if multi then
            StepsIterable(replies, env.net.loads);
            WorkflowRunSpec(env, a2, P.ParseMultiStepIntent(replies.steps, replies.single, env.net.loads), clock)
          else SingleSpec(env, a2, transcript, intent, clock)
  }

  function StartRecord(env: Env, clock: R.Clock): Value {
    Dict([("session_id", Str(env.sessionId)), ("start_time", Str(clock.iso)), ("status", Str("initialized"))])
  }

  function EndRecord(env: Env, turns: nat, clock: R.Clock): Value {
    Dict([("session_id", Str(env.sessionId)), ("end_time", Str(clock.iso)), ("status", Str("ended")),
          ("total_turns", Int(turns))])
  }

  /** `initialize`: connect the cache (its error propagates), start a browser session, record the
      start; True only when all of it got through. */
  function InitializeSpec(env: Env, a: AgentState, reachable: bool, clock: R.Clock): (r: (AgentState, bool))
    ensures r.1 ==> r.0.cache.connected && B.StartSpec(env.net, a.browser, false).out.Ok?
    ensures r.0.turn == a.turn && r.0.running == a.running && r.0.workflow == a.workflow
  {
    var a1 := a.(cache := a.cache.(connected := reachable));
    if !reachable then (a1, false)
    else
      var started := B.StartSpec(env.net, a1.browser, false);
      var a2 := a1.(browser := started.state);
      if started.out.Raise? then (a2, false)
      else (a2.(cache := R.StoreBrowserSpec(a2.cache, StartRecord(env, clock), clock)), true)
  }

  /** `start_voice_session` up to listening: initialise when not running, then greet. */
  function StartVoiceSpec(env: Env, a: AgentState, reachable: bool, clock: R.Clock): AgentState {
    var a1 := if a.running then a else InitializeSpec(env, a, reachable, clock).0.(running := true);
    Say(a1, T.WELCOME)
  }

  /** `stop_voice_session`: `listenerError` is what stopping the microphone raised, if anything;
      it skips the rest. */
  function StopSpec(env: Env, a: AgentState, listenerError: Option<string>, clock: R.Clock): (r: AgentState)
    ensures !r.running && r.turn == a.turn && r.workflow == a.workflow
  {
    var a1 := a.(running := false);
    if listenerError.Some? then a1
    else a1.(browser := B.EndSpec(a1.browser),
             cache := R.StoreBrowserSpec(a1.cache, EndRecord(env, a.turn, clock), clock))
  }

  function CleanupSpec(env: Env, a: AgentState, listenerError: Option<string>, engineStopRaises: bool, clock: R.Clock): AgentState {
    var a1 := StopSpec(env, a, listenerError, clock);
    a1.(cache := a1.cache.(connected := false), tts := T.CleanupSpec(a1.tts, engineStopRaises))
  }

  function SessionStatsSpec(env: Env, a: AgentState): Value {
    Dict([("session_id", Str(env.sessionId)), ("conversation_turns", Int(a.turn)), ("is_running", Bool(a.running)),
          ("redis_stats", R.StatsSpec(a.cache)), ("memory_stats", M.StatsRecord(0, M.Counts(0, 0, 0, 0))),
          ("current_workflow", a.workflow)])
  }

  /* ---------- properties of a turn ---------- */

  /** An intent that fails validation is answered with an error, and no command, workflow or
      memory write follows: the browser has only served the context read. */
  lemma RejectedRunsNothing(env: Env, a: AgentState, transcript: string, replies: Replies, clock: R.Clock)
    requires P.ValidateIntent(P.ParseIntent(replies.intent, env.net.loads)) == Ok(false)
    ensures var n := a.turn + 1;
      var counted := a.(turn := n, cache := R.StoreTurnSpec(a.cache, TurnRecord(env, n, transcript, clock), clock));
      var r := ProcessSpec(env, a, transcript, replies, clock);
      && r.browser == ContextSpec(env, counted).0.browser
      && r.cache == counted.cache && r.workflow == a.workflow && r.memory == a.memory
      && r.tts == T.SpeakSpec(a.tts, "Error: " + NOT_UNDERSTOOD).0
  {
  }

  /** A valid intent that is not a workflow runs the single-command path: the workflow record is
      untouched and the parsed intent is the one sent to the browser. */
  lemma SinglePathLeavesWorkflow(env: Env, a: AgentState, transcript: string, replies: Replies, clock: R.Clock)
    requires var intent := P.ParseIntent(replies.intent, env.net.loads);
      P.ValidateIntent(intent) == Ok(true) && IsWorkflowCommand(intent) == Ok(false)
    ensures ProcessSpec(env, a, transcript, replies, clock).workflow == a.workflow
  {
  }

  /** An empty workflow is answered with an error, and no workflow record is made or stored. */
  lemma EmptyWorkflowLeavesNoState(env: Env, a: AgentState, intents: Value, clock: R.Clock)
    requires Len(intents).Ok? && !Truthy(intents)
    ensures var r := WorkflowRunSpec(env, a, intents, clock);
      r.workflow == a.workflow && r.cache == a.cache && r.browser == a.browser && r.memory == a.memory
      && r.tts == T.SpeakSpec(a.tts, "Error: " + NO_STEPS).0
  {
  }

  /** A single command that is not an extraction takes a screenshot exactly when it succeeded. */
  lemma ScreenshotOnlyOnSuccess(env: Env, a: AgentState, transcript: string, intent: Value, clock: R.Clock)
    requires intent.Dict? && Field(intent, "intent") != Str("EXTRACT")
    requires var c := B.CommandSpec(env.net, a.browser, intent);
      c.out.Ok? && T.BuildCommandResponse(intent, c.out.value).Ok?
    ensures var c := B.CommandSpec(env.net, a.browser, intent);
      SingleSpec(env, a, transcript, intent, clock).browser
        == if Truthy(FieldOr(c.out.value, "success", Bool(false))) then B.ScreenshotSpec(env.net, c.state).0 else c.state
  {
  }

  /** Tagging a dict changes only its time and its tag. */
  lemma TaggedKeeps(s: R.CacheState, data: Value, clock: R.Clock, tag: string, tagValue: Value, other: string)
    requires data.Dict? && other != "timestamp" && other != tag
    ensures Field(R.Tagged(s, data, clock, tag, tagValue), other) == Field(data, other)
  {
    var stamped := Assign(data, "timestamp", Str(clock.iso));
    PutLookup(data.fields, "timestamp", Str(clock.iso), other);
    PutLookup(stamped.fields, tag, tagValue, other);
  }

  /** The record a workflow starts with, as the cache store leaves it. */
  lemma RunningRecordFields(s: R.CacheState, id: string, intents: Value, clock: R.Clock)
    ensures var w := R.Tagged(s, RunningRecord(id, intents), clock, "workflow_id", Str(id));
      && w.Dict? && Field(w, "id") == Str(id) && Field(w, "intents") == intents
      && Field(w, "status") == Str("running") && Field(w, "current_step") == Int(0)
  {
    var record := RunningRecord(id, intents);
    LookupAt(record.fields, 0);
    LookupAt(record.fields, 1);
    LookupAt(record.fields, 2);
    LookupAt(record.fields, 3);
    TaggedKeeps(s, record, clock, "workflow_id", Str(id), "id");
    TaggedKeeps(s, record, clock, "workflow_id", Str(id), "intents");
    TaggedKeeps(s, record, clock, "workflow_id", Str(id), "current_step");
    TaggedKeeps(s, record, clock, "workflow_id", Str(id), "status");
  }

  /** Completing a record marks it completed and attaches the results; id, intents and step stay. */
  lemma CompletedRecordFields(s: R.CacheState, w: Value, results: seq<Value>, clock: R.Clock, id: string)
    requires w.Dict?
    ensures var d := R.Tagged(s, CompletedRecord(w, results), clock, "workflow_id", Str(id));
      && d.Dict? && Field(d, "id") == Field(w, "id") && Field(d, "intents") == Field(w, "intents")
      && Field(d, "current_step") == Field(w, "current_step")
      && Field(d, "status") == Str("completed") && Field(d, "results") == List(results)
  {
    var statused := Assign(w, "status", Str("completed"));
    var done := CompletedRecord(w, results);
    PutLookup(w.fields, "status", Str("completed"), "id");
    PutLookup(w.fields, "status", Str("completed"), "intents");
    PutLookup(w.fields, "status", Str("completed"), "current_step");
    PutLookup(w.fields, "status", Str("completed"), "status");
    PutLookup(statused.fields, "results", List(results), "id");
    PutLookup(statused.fields, "results", List(results), "intents");
    PutLookup(statused.fields, "results", List(results), "current_step");
    PutLookup(statused.fields, "results", List(results), "status");
    PutLookup(statused.fields, "results", List(results), "results");
    TaggedKeeps(s, done, clock, "workflow_id", Str(id), "id");
    TaggedKeeps(s, done, clock, "workflow_id", Str(id), "intents");
    TaggedKeeps(s, done, clock, "workflow_id", Str(id), "current_step");
    TaggedKeeps(s, done, clock, "workflow_id", Str(id), "status");
    TaggedKeeps(s, done, clock, "workflow_id", Str(id), "results");
  }

  /** The workflow record is `workflow_<turn>`, starts out running at step 0, and after a run that
      returns is marked completed with the results; if the run raises it stays running. */
  lemma WorkflowRecordLifecycle(env: Env, a: AgentState, intents: Value, clock: R.Clock)
    requires Len(intents).Ok? && Truthy(intents)
    ensures var r := WorkflowRunSpec(env, a, intents, clock);
      var run := B.WorkflowSpec(env.net, a.browser, Iter(intents).value);
      && r.workflow.Dict?
      && Field(r.workflow, "id") == Str(WorkflowId(a.turn))
      && Field(r.workflow, "intents") == intents
      && Field(r.workflow, "current_step") == Int(0)
      && Field(r.workflow, "status") == Str(if run.out.Ok? then "completed" else "running")
      && (run.out.Ok? ==> Field(r.workflow, "results") == List(run.out.value))
  {
    var id := WorkflowId(a.turn);
    RunningRecordFields(a.cache, id, intents, clock);
    var a1 := Recorded(a, id, RunningRecord(id, intents), clock);
    var steps := Iter(intents).value;
    assert WorkflowRunSpec(env, a, intents, clock) == RunWorkflowSpec(env, a1, id, intents, steps, clock);
    var run := B.WorkflowSpec(env.net, a1.browser, steps);
    if run.out.Ok? {
      var a2 := a1.(browser := run.state);
      CompletedRecordFields(a2.cache, a2.workflow, run.out.value, clock, id);
    }
  }

  /** A command that got through: its result says `success`. */
  predicate CommandSucceeded(entry: Value) {
    entry.Dict? && Field(entry, "result").Dict? && Truthy(Field(Field(entry, "result"), "success"))
  }

  /** The record of a run that returned holds one step record per intent, in order, and a step
      counts as succeeded exactly when its command got through. */
  lemma RunResultsAreSteps(env: Env, s: B.BrowserState, steps: seq<Value>)
    requires B.WorkflowSpec(env.net, s, steps).out.Ok?
    ensures var results := B.WorkflowSpec(env.net, s, steps).out.value;
      |results| == |steps|
      && forall i :: 0 <= i < |results| ==>
           results[i].Dict? && (T.Succeeded(results[i]) <==> CommandSucceeded(results[i]))
  {
    var results := B.WorkflowSpec(env.net, s, steps).out.value;
    B.WorkflowSteps(env.net, s, steps);
    forall i | 0 <= i < |results|
      ensures results[i].Dict? && (T.Succeeded(results[i]) <==> CommandSucceeded(results[i]))
    {
      assert B.IsStep(results[i], i + 1, steps[i]);
    }
  }

  /** A run that returns and can be counted ends in `ReportWorkflowSpec`, after the completed
      record is stored. */
  lemma RunReachesReport(env: Env, a: AgentState, id: string, intents: Value, steps: seq<Value>, clock: R.Clock)
    requires a.workflow.Dict?
    requires B.WorkflowSpec(env.net, a.browser, steps).out.Ok?
    requires T.SuccessCount(B.WorkflowSpec(env.net, a.browser, steps).out.value).Ok?
    ensures var run := B.WorkflowSpec(env.net, a.browser, steps);
      var results := run.out.value;
      RunWorkflowSpec(env, a, id, intents, steps, clock)
        == ReportWorkflowSpec(env, Recorded(a.(browser := run.state), id, CompletedRecord(a.workflow, results), clock),
                              id, intents, results, T.SuccessCount(results).value, clock)
  {
  }

  /** Every summary of a run starts with "Workflow", so it is never blank and always spoken. */
  lemma SummaryNotBlank(results: seq<Value>)
    requires T.SuccessCount(results).Ok?
    ensures !IsBlank(T.BuildWorkflowResponse(results).value)
  {
    var text := T.BuildWorkflowResponse(results).value;
    var k := T.SuccessCount(results).value;
    var n := |results|;
    if k == n {
      var rest := " All " + IntText(n) + " steps executed.";
      assert text == T.COMPLETED + rest;
      assert T.COMPLETED[0] == 'W';
      assert (T.COMPLETED + rest)[0] == 'W';
    } else if k > 0 {
      var rest := IntText(k) + " out of " + IntText(n) + " steps successful.";
      assert text == T.PARTIAL + rest;
      assert T.PARTIAL[0] == 'W';
      assert (T.PARTIAL + rest)[0] == 'W';
    } else {
      assert text == T.WORKFLOW_FAILED;
      assert T.WORKFLOW_FAILED[0] == 'W';
    }
    assert !IsSpace(text[0]);
  }

  /** The report speaks the summary sentence. */
  lemma ReportSpeaksSummary(env: Env, a: AgentState, id: string, intents: Value, results: seq<Value>, count: nat, clock: R.Clock)
    requires T.SuccessCount(results) == Ok(count) && a.tts.initialized
    ensures ReportWorkflowSpec(env, a, id, intents, results, count, clock).tts.spoken
            == a.tts.spoken + [T.BuildWorkflowResponse(results).value]
  {
    SummaryNotBlank(results);
    var text := T.BuildWorkflowResponse(results).value;
    assert T.SpeakSpec(a.tts, text).0.spoken == a.tts.spoken + [text];
  }

  /** The report adds one memory, whose metadata carries the results and the success count. */
  lemma ReportStoresOutcome(env: Env, a: AgentState, id: string, intents: Value, results: seq<Value>, count: nat, clock: R.Clock)
    requires T.SuccessCount(results) == Ok(count) && Len(intents).Ok?
    ensures var added := ReportWorkflowSpec(env, a, id, intents, results, count, clock).memory.added;
      |added| == |a.memory.added| + 1 && added[|added| - 1].metadata.Dict?
      && Field(added[|added| - 1].metadata, "result") == WorkflowOutcome(results, count)
  {
    var outcome := WorkflowOutcome(results, count);
    M.StoredWorkflowKeepsResult(a.memory, env.backend, "Workflow " + id, intents, outcome, clock.iso);
    assert ReportWorkflowSpec(env, a, id, intents, results, count, clock).memory
        == M.StoreWorkflowSpec(a.memory, env.backend, "Workflow " + id, intents, outcome, clock.iso).0;
  }

  /** A non-empty workflow whose run returns and can be counted is recorded as running, run,
      recorded again as completed and reported. */
  lemma WorkflowRunReachesReport(env: Env, a: AgentState, intents: Value, clock: R.Clock)
    requires Len(intents).Ok? && Truthy(intents)
    requires B.WorkflowSpec(env.net, a.browser, Iter(intents).value).out.Ok?
    requires T.SuccessCount(B.WorkflowSpec(env.net, a.browser, Iter(intents).value).out.value).Ok?
    ensures var id := WorkflowId(a.turn);
      var a1 := Recorded(a, id, RunningRecord(id, intents), clock);
      var run := B.WorkflowSpec(env.net, a.browser, Iter(intents).value);
      WorkflowRunSpec(env, a, intents, clock)
        == ReportWorkflowSpec(env, Recorded(a1.(browser := run.state), id, CompletedRecord(a1.workflow, run.out.value), clock),
                              id, intents, run.out.value, T.SuccessCount(run.out.value).value, clock)
  {
    var id := WorkflowId(a.turn);
    RunningRecordFields(a.cache, id, intents, clock);
    var a1 := Recorded(a, id, RunningRecord(id, intents), clock);
    assert WorkflowRunSpec(env, a, intents, clock) == RunWorkflowSpec(env, a1, id, intents, Iter(intents).value, clock);
    RunReachesReport(env, a1, id, intents, Iter(intents).value, clock);
  }

  /** A workflow whose every command got through is reported as completed, in full. */
  lemma AllSucceededReportsCompleted(env: Env, a: AgentState, intents: Value, clock: R.Clock)
    requires a.tts.initialized
    requires Len(intents).Ok? && Truthy(intents) && B.WorkflowSpec(env.net, a.browser, Iter(intents).value).out.Ok?
    requires var results := B.WorkflowSpec(env.net, a.browser, Iter(intents).value).out.value;
      forall i :: 0 <= i < |results| ==> CommandSucceeded(results[i])
    ensures var spoken := WorkflowRunSpec(env, a, intents, clock).tts.spoken;
      |spoken| == |a.tts.spoken| + 1 && StartsWith(spoken[|spoken| - 1], T.COMPLETED)
  {
    var id := WorkflowId(a.turn);
    var a1 := Recorded(a, id, RunningRecord(id, intents), clock);
    var run := B.WorkflowSpec(env.net, a.browser, Iter(intents).value);
    var results := run.out.value;
    RunResultsAreSteps(env, a.browser, Iter(intents).value);
    T.WorkflowResponseCases(results);
    T.SuccessCountExtremes(results);
    WorkflowRunReachesReport(env, a, intents, clock);
    ReportSpeaksSummary(env, Recorded(a1.(browser := run.state), id, CompletedRecord(a1.workflow, results), clock),
                        id, intents, results, T.SuccessCount(results).value, clock);
  }

  /** The stored `success_count` is the number of steps whose command got through: it equals the
      number of steps exactly when every one of them succeeded. */
  lemma WorkflowMemoryCountsSuccesses(env: Env, a: AgentState, intents: Value, clock: R.Clock)
    requires Len(intents).Ok? && Truthy(intents) && B.WorkflowSpec(env.net, a.browser, Iter(intents).value).out.Ok?
    ensures var results := B.WorkflowSpec(env.net, a.browser, Iter(intents).value).out.value;
      var added := WorkflowRunSpec(env, a, intents, clock).memory.added;
      && T.SuccessCount(results).Ok?
      && |added| == |a.memory.added| + 1
      && added[|added| - 1].metadata.Dict?
      && Field(added[|added| - 1].metadata, "result") == WorkflowOutcome(results, T.SuccessCount(results).value)
      && (T.SuccessCount(results).value == |results| <==> forall i :: 0 <= i < |results| ==> CommandSucceeded(results[i]))
  {
    var id := WorkflowId(a.turn);
    var a1 := Recorded(a, id, RunningRecord(id, intents), clock);
    var run := B.WorkflowSpec(env.net, a.browser, Iter(intents).value);
    var results := run.out.value;
    RunResultsAreSteps(env, a.browser, Iter(intents).value);
    T.SuccessCountExtremes(results);
    WorkflowRunReachesReport(env, a, intents, clock);
    ReportStoresOutcome(env, Recorded(a1.(browser := run.state), id, CompletedRecord(a1.workflow, results), clock),
                        id, intents, results, T.SuccessCount(results).value, clock);
  }

  /** The parser's ERROR record passes validation, goes down the single-command path unless its
      message happens to mention a workflow keyword, is sent to the browser as a no-op, and is
      reported as a success exactly when that send got through. */
  lemma ErrorRecordRunsAsNoop(env: Env, a: AgentState, context: string)
    ensures P.ValidateIntent(P.ErrorRecord(context)) == Ok(true)
    ensures IsWorkflowCommand(P.ErrorRecord(context)) == Ok(exists k :: k in WORKFLOW_KEYWORDS && Contains(Lower(context), k))
    ensures var c := B.CommandSpec(env.net, a.browser, P.ErrorRecord(context));
      var sent := B.SendSpec(env.net, a.browser, B.NOOP);
      c.out.Ok? && c.state == sent.state && Field(c.out.value, "action") == B.NOOP
      && Field(c.out.value, "success") == Bool(sent.out.Ok?)
  {
    var e := P.ErrorRecord(context);
    P.ErrorRecordValidates(context);
    assert e.Dict? && Field(e, "context") == Str(context);
    ErrorRecordTranslates(context);
  }

  lemma ErrorRecordTranslates(context: string)
    ensures B.IntentToStagehand(P.ErrorRecord(context)) == Ok(B.NOOP)
  {
    var e := P.ErrorRecord(context);
    assert Field(e, "intent") == Str("ERROR") && Field(e, "parameters") == EMPTY;
    assert Upper("ERROR") == "ERROR";
    assert "ERROR" !in B.KINDS;
    assert Field(EMPTY, "action") == Null;
  }

  /** Stopping records, under `browser_state`, that the session ended and how many turns it had. */
  lemma StopRecordsTotalTurns(env: Env, a: AgentState, clock: R.Clock)
    requires R.Active(a.cache)
    ensures var r := StopSpec(env, a, None, clock);
      var stored := R.BrowserStateSpec(r.cache);
      !r.running && stored.Dict?
      && Field(stored, "total_turns") == Int(a.turn) && Field(stored, "status") == Str("ended")
  {
    var record := EndRecord(env, a.turn, clock);
    R.BrowserStateRoundTrip(a.cache, record, clock);
    LookupAt(record.fields, 2);
    LookupAt(record.fields, 3);
    PutLookup(record.fields, "timestamp", Str(clock.iso), "total_turns");
    PutLookup(record.fields, "timestamp", Str(clock.iso), "status");
  }

  /** Every turn is counted before anything else and recorded as `turn_<n>` with its transcript:
      read back straight after that first store, the newest history entry is this record. */
  lemma TurnCountedAndRecorded(env: Env, a: AgentState, transcript: string, replies: Replies, clock: R.Clock)
    requires R.Active(a.cache)
    requires var listKey := R.Key(a.cache.sessionId.value, "conversation_list");
             !(listKey in a.cache.db && a.cache.db[listKey].Record?)
    ensures ProcessSpec(env, a, transcript, replies, clock).turn == a.turn + 1
    ensures var n := a.turn + 1;
      var h := R.HistorySpec(R.StoreTurnSpec(a.cache, TurnRecord(env, n, transcript, clock), clock), 1);
      |h| == 1 && h[0].Dict? && Field(h[0], "turn_id") == Str("turn_" + NatText(n))
      && Field(h[0], "transcript") == Str(transcript)
  {
    var n := a.turn + 1;
    var turn := TurnRecord(env, n, transcript, clock);
    R.StoreThenHistory(a.cache, turn, clock);
    LookupAt(turn.fields, 0);
    LookupAt(turn.fields, 1);
    PutLookup(turn.fields, "timestamp", Str(clock.iso), "turn_id");
    PutLookup(turn.fields, "timestamp", Str(clock.iso), "transcript");
  }

  /** Starting a voice session marks the agent running even when initialisation failed. */
  lemma StartRunsEvenIfInitFails(env: Env, a: AgentState, reachable: bool, clock: R.Clock)
    ensures StartVoiceSpec(env, a, reachable, clock).running
    ensures !a.running && !reachable ==> !InitializeSpec(env, a, reachable, clock).1
  {
  }

  /* ---------- the agent object ---------- */

  class Agent {
    const sessionId: string
    const browser: B.Browser
    const cache: R.Cache
    const memory: M.MemoryLayer
    const tts: T.Speaker
    var isRunning: bool
    var conversationTurn: nat
    var currentWorkflow: Value

    function Environment(): Env {
      Env(sessionId, browser.net, memory.backend)
    }

    function State(): AgentState
      reads this, browser, cache, memory, tts
    {
      AgentState(conversationTurn, isRunning, currentWorkflow, browser.State(), cache.State(), memory.State(), tts.State())
    }

    predicate Valid()
      reads this, tts
    {
      tts.Valid()
    }

    /** The agent builds its own components and gives the cache and the memory layer its session id. */
    constructor (sessionId: string, net: B.Remote, projectId: string, server: map<string, R.Entry>,
                 backend: M.Mem0, engine: T.EngineStart)
      ensures Valid() && Environment() == Env(sessionId, net, backend)
      ensures State() == AgentState(0, false, Null, B.BrowserState(projectId, false, Null, None, []),
                                    R.CacheState(false, Some(sessionId), server), M.MemoryState(Str(sessionId), [], []),
                                    T.InitSpec(engine))
    {
      this.sessionId := sessionId;
      browser := new B.Browser(net, projectId);
      var c := new R.Cache(server);
      c.SetSessionId(sessionId);
      cache := c;
      var m := new M.MemoryLayer(backend);
      m.SetSessionId(sessionId);
      memory := m;
      tts := new T.Speaker(engine);
      isRunning := false;
      conversationTurn := 0;
      currentWorkflow := Null;
    }

    method Initialize(reachable: bool, clock: R.Clock) returns (ok: bool)
      requires Valid()
      modifies this, browser, cache, memory, tts
      ensures Valid()
      ensures (State(), ok) == InitializeSpec(Environment(), old(State()), reachable, clock)
    {
      var connected := cache.Connect(reachable);
      if connected.Raise? {
        return false;
      }
      var started := browser.StartSession(false);
      if started.Raise? {
        return false;
      }
      cache.StoreBrowserState(StartRecord(Environment(), clock), clock);
      ok := true;
    }

    method StartVoiceSession(reachable: bool, clock: R.Clock)
      requires Valid()
      modifies this, browser, cache, memory, tts
      ensures Valid()
      ensures State() == StartVoiceSpec(Environment(), old(State()), reachable, clock)
    {
      if !isRunning {
        var _ := Initialize(reachable, clock);
        isRunning := true;
      }
      tts.SpeakWelcome();
    }

    method BuildContext() returns (context: Value)
      requires Valid()
      modifies browser
      ensures (State(), context) == ContextSpec(Environment(), old(State()))
    {
      var history := cache.GetConversationHistory(5);
      var state := cache.GetBrowserState();
      var memories := memory.GetConversationContext(3);
      var page := browser.GetPageContent();
      context := Dict([("conversation_history", List(history)), ("browser_state", state),
                       ("memory_context", List(memories)), ("current_page", page)]);
    }

    method ProcessVoiceInput(transcript: string, replies: Replies, clock: R.Clock)
      requires Valid()
      modifies this, browser, cache, memory, tts
      ensures Valid()
      ensures State() == ProcessSpec(Environment(), old(State()), transcript, replies, clock)
    {
      CountTurn(transcript, clock);
      Respond(transcript, replies, clock);
    }

    /** Counts the turn and stores it in the cache. */
    method CountTurn(transcript: string, clock: R.Clock)
      requires Valid()
      modifies this, cache
      ensures Valid()
      ensures State() == CountTurnSpec(Environment(), old(State()), transcript, clock)
    {
      conversationTurn := conversationTurn + 1;
      cache.StoreConversationTurn(TurnRecord(Environment(), conversationTurn, transcript, clock), clock);
    }

    /** Reads the context, then routes the transcript. */
    method Respond(transcript: string, replies: Replies, clock: R.Clock)
      requires Valid()
      modifies this, browser, cache, memory, tts
      ensures Valid()
      ensures State() == RespondSpec(Environment(), old(State()), transcript, replies, clock)
    {
      ghost var a := State();
      var _ := BuildContext();
      assert State() == ContextSpec(Environment(), a).0;
      Route(transcript, replies, clock);
    }

    /** The part of `process_voice_input` after the context is read. */
    method Route(transcript: string, replies: Replies, clock: R.Clock)
      requires Valid()
      modifies this, browser, cache, memory, tts
      ensures Valid()
      ensures State() == RouteSpec(Environment(), old(State()), transcript, replies, clock)
    {
      ghost var env := Environment();
      ghost var a := State();
      var intent := P.ParseIntent(replies.intent, browser.net.loads);
      var valid := P.ValidateIntent(intent);
      if valid.Raise? {
        tts.SpeakError("Error processing command: " + valid.error);
        assert State() == SayError(a, "Error processing command: " + valid.error);
        return;
      }
      if !valid.value {
        tts.SpeakError(NOT_UNDERSTOOD);
        assert State() == SayError(a, NOT_UNDERSTOOD);
        return;
      }
      var multi := IsWorkflowCommand(intent);
      if multi.Raise? {
        tts.SpeakError("Error processing command: " + multi.error);
        assert State() == SayError(a, "Error processing command: " + multi.error);
        return;
      }
      if multi.value {
        StepsIterable(replies, env.net.loads);
        assert RouteSpec(env, a, transcript, replies, clock)
          == WorkflowRunSpec(env, a, P.ParseMultiStepIntent(replies.steps, replies.single, env.net.loads), clock);
        ExecuteWorkflow(replies, clock);
      } else {
        assert RouteSpec(env, a, transcript, replies, clock) == SingleSpec(env, a, transcript, intent, clock);
        ExecuteSingleCommand(transcript, intent, clock);
      }
    }

    method ExecuteSingleCommand(transcript: string, intent: Value, clock: R.Clock)
      requires Valid() && intent.Dict?
      modifies browser, cache, memory, tts
      ensures Valid()
      ensures State() == SingleSpec(Environment(), old(State()), transcript, intent, clock)
    {
      var sent := browser.ExecuteCommand(intent);
      if sent.Raise? {
        tts.SpeakError("Command execution failed: " + sent.error);
        return;
      }
      CommandDone(transcript, intent, sent.value, clock);
    }

    /** The part of `_execute_single_command` after the browser answered. */
    method CommandDone(transcript: string, intent: Value, result: Value, clock: R.Clock)
      requires Valid() && intent.Dict? && result.Dict?
      modifies browser, cache, memory, tts
      ensures Valid()
      ensures State() == CommandDoneSpec(Environment(), old(State()), transcript, intent, result, clock)
    {
      ghost var env := Environment();
      ghost var a := State();
      cache.StoreConversationTurn(ResultRecord(Environment(), conversationTurn, intent, result, clock), clock);
      var _ := memory.StoreConversationMemory(transcript, intent, result, clock.iso);
      a := a.(cache := R.StoreTurnSpec(a.cache, ResultRecord(env, a.turn, intent, result, clock), clock),
              memory := M.StoreConversationSpec(a.memory, env.backend, transcript, intent, result, clock.iso).0);
      assert State() == a;
      var response := T.BuildCommandResponse(intent, result);
      if response.Raise? {
        tts.SpeakError("Command execution failed: " + response.error);
        return;
      }
      var _ := tts.Speak(response.value);
      a := Say(a, response.value);
      assert State() == a;
      if Truthy(FieldOr(result, "success", Bool(false))) {
        var _ := browser.TakeScreenshot();
        a := a.(browser := B.ScreenshotSpec(env.net, a.browser).0);
      }
      assert State() == a;
      if Field(intent, "intent") == Str("EXTRACT") {
        StoreExtraction(intent, result, clock);
      }
    }

    /** The EXTRACT branch of `_execute_single_command`. */
    method StoreExtraction(intent: Value, result: Value, clock: R.Clock)
      requires Valid() && intent.Dict? && result.Dict?
      modifies browser, cache, memory, tts
      ensures Valid()
      ensures State() == ExtractionSpec(Environment(), old(State()), intent, result, clock)
    {
      var dataType := Get(FieldOr(intent, "parameters", EMPTY), "data_type", Str("text"));
      if dataType.Raise? {
        tts.SpeakError("Command execution failed: " + dataType.error);
        return;
      }
      var extracted := browser.ExtractData(ToStr(dataType.value));
      if Truthy(extracted) {
        var stamped := cache.StoreExtractedData(extracted, dataType.value, clock);
        var _ := memory.StoreBrowserContext(FieldOr(result, "url", Str("")), FieldOr(result, "title", Str("")),
                                            stamped, clock.iso);
      }
    }

    method ExecuteWorkflow(replies: Replies, clock: R.Clock)
      requires Valid()
      modifies this, browser, cache, memory, tts
      ensures Valid()
      ensures State() == WorkflowRunSpec(Environment(), old(State()), P.ParseMultiStepIntent(replies.steps, replies.single, browser.net.loads), clock)
    {
      var intents := P.ParseMultiStepIntent(replies.steps, replies.single, browser.net.loads);
      if !Truthy(intents) {
        tts.SpeakError(NO_STEPS);
        return;
      }
      StepsIterable(replies, browser.net.loads);
      var workflowId := WorkflowId(conversationTurn);
      currentWorkflow := RunningRecord(workflowId, intents);
      currentWorkflow := cache.StoreWorkflowState(workflowId, currentWorkflow, clock);
      RunWorkflow(workflowId, intents, Iter(intents).value, clock);
    }

    /** The run and its bookkeeping, once the workflow record exists. */
    method RunWorkflow(workflowId: string, intents: Value, steps: seq<Value>, clock: R.Clock)
      requires Valid() && currentWorkflow.Dict?
      modifies this, browser, cache, memory, tts
      ensures Valid()
      ensures State() == RunWorkflowSpec(Environment(), old(State()), workflowId, intents, steps, clock)
    {
      ghost var a := State();
      var run := browser.ExecuteWorkflow(steps);
      assert State() == a.(browser := B.WorkflowSpec(Environment().net, a.browser, steps).state);
      if run.Raise? {
        tts.SpeakError("Workflow execution failed: " + run.error);
        return;
      }
      CompleteWorkflow(workflowId, intents, run.value, clock);
    }

    /** Completing the record of a run that returned, then counting and reporting its results. */
    method CompleteWorkflow(workflowId: string, intents: Value, results: seq<Value>, clock: R.Clock)
      requires Valid() && currentWorkflow.Dict?
      modifies this, browser, cache, memory, tts
      ensures Valid()
      ensures State() == CompleteWorkflowSpec(Environment(), old(State()), workflowId, intents, results, clock)
    {
      ghost var a := State();
      currentWorkflow := CompletedRecord(currentWorkflow, results);
      currentWorkflow := cache.StoreWorkflowState(workflowId, currentWorkflow, clock);
      assert State() == Recorded(a, workflowId, CompletedRecord(a.workflow, results), clock);
      var count := T.SuccessCount(results);
      if count.Raise? {
        tts.SpeakError("Workflow execution failed: " + count.error);
        return;
      }
      ReportWorkflow(workflowId, intents, results, count.value, clock);
    }

    /** The memory, the spoken summary and the final screenshot of a finished run. */
    method ReportWorkflow(workflowId: string, intents: Value, results: seq<Value>, count: nat, clock: R.Clock)
      requires Valid() && T.SuccessCount(results) == Ok(count)
      modifies browser, memory, tts
      ensures Valid()
      ensures State() == ReportWorkflowSpec(Environment(), old(State()), workflowId, intents, results, count, clock)
    {
      var _ := memory.StoreWorkflowMemory("Workflow " + workflowId, intents, WorkflowOutcome(results, count), clock.iso);
      var _ := tts.Speak(T.BuildWorkflowResponse(results).value);
      var _ := browser.TakeScreenshot();
    }

    method StopVoiceSession(listenerError: Option<string>, clock: R.Clock)
      requires Valid()
      modifies this, browser, cache, memory, tts
      ensures Valid()
      ensures State() == StopSpec(Environment(), old(State()), listenerError, clock)
    {
      isRunning := false;
      if listenerError.Some? {
        return;
      }
      browser.EndSession();
      cache.StoreBrowserState(EndRecord(Environment(), conversationTurn, clock), clock);
    }

    method Cleanup(listenerError: Option<string>, engineStopRaises: bool, clock: R.Clock)
      requires Valid()
      modifies this, browser, cache, memory, tts
      ensures Valid()
      ensures State() == CleanupSpec(Environment(), old(State()), listenerError, engineStopRaises, clock)
    {
      StopVoiceSession(listenerError, clock);
      cache.Disconnect();
      tts.Cleanup(engineStopRaises);
    }

    method GetSessionStats() returns (stats: Value)
      ensures stats == SessionStatsSpec(Environment(), State())
    {
      var redisStats := cache.GetSessionStats();
      var memoryStats := memory.GetMemoryStats();
      stats := Dict([("session_id", Str(sessionId)), ("conversation_turns", Int(conversationTurn)),
                     ("is_running", Bool(isRunning)), ("redis_stats", redisStats), ("memory_stats", memoryStats),
                     ("current_workflow", currentWorkflow)]);
    }
  }
}
