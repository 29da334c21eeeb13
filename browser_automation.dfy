/** The browser driver: it translates parsed intents into Stagehand actions, keeps one remote
    Browserbase session with its websocket, sends actions over that websocket and reports what
    came back. The Browserbase HTTP API, the websocket and the JSON and base64 decoders are
    oracles: each answer is a function of the position in the driver's request log at which the
    request is made. */
module BrowserAutomation {
  import opened Strings
  import opened Py

  /* ---------- The remote parties ---------- */

  /** The answer to the create-session POST: the request failed, or a status and a body text
      (reading the body can fail too). */
  datatype HttpReply = RequestFailed(error: string) | Replied(status: int, body: Result<string>)

  datatype ConnectReply = Connected(handle: nat) | ConnectFailed(error: string)

  /** One send over the websocket followed by one receive, which may fail or time out. */
  datatype Exchange = Exchanged(message: string) | ExchangeFailed(error: string)

  datatype Remote = Remote(
    create: nat -> HttpReply,
    connect: nat -> ConnectReply,
    close: nat -> Option<string>,
    exchange: nat -> Exchange,
    loads: string -> Result<Value>,
    b64decode: Value -> Result<seq<bv8>>)

  /** What the driver asks of the outside world, in order. `Pause` is an `asyncio.sleep` in milliseconds. */
  datatype Request =
    | CreateSession(payload: Value)
    | DeleteSession(id: Value)
    | Connect(sessionId: Value)
    | CloseSocket(handle: nat)
    | SendAction(action: Value)
    | Pause(ms: nat)

  /** The driver's fields: the project id, whether an HTTP client is open, the session id
      (None until a session is created), the websocket if one is connected, and the request log. */
  datatype BrowserState = BrowserState(
    projectId: string, httpOpen: bool, sessionId: Value, ws: Option<nat>, log: seq<Request>)

  /** The state after an operation together with what it returned or raised. */
  datatype Step<+T> = Step(state: BrowserState, out: Result<T>)

  /* ---------- Intent to Stagehand action ---------- */

  const NOOP: Value := Dict([("type", Str("noop"))])

  /** The intent kinds the translator knows, and the Stagehand action type each becomes. */
  const KINDS: seq<string> := ["NAVIGATE", "SEARCH", "CLICK", "TYPE", "SCROLL", "PRESS", "EXTRACT", "WAIT"]

  function ActionType(kind: string): string
    requires kind in KINDS
  {
    match kind
    case "NAVIGATE" => "navigate"
    case "SEARCH" => "type"
    case "CLICK" => "click"
    case "TYPE" => "type"
    case "SCROLL" => "scrollBy"
    case "PRESS" => "press"
    case "EXTRACT" => "extract"
    case _ => "sleep"
  }

  function Action(kind: string, args: seq<(string, Value)>): (r: Value)
    ensures r.Dict? && Lookup(r.fields, "type") == Some(Str(kind))
  {
    var fields := [("type", Str(kind))] + args;
    assert fields[0].0 == "type";
    Dict(fields)
  }

  /** The action for an upper-cased intent kind with parameter record `p`; every branch calls
      `p.get`, so a parameter value that is not a dict raises. */
  function Translate(kind: string, p: Value): (r: Result<Value>)
    ensures kind in KINDS && r.Ok? ==> r.value.Dict? && Lookup(r.value.fields, "type") == Some(Str(ActionType(kind)))
    ensures kind !in KINDS && p.Dict? ==> r == Ok(Or(Field(p, "action"), NOOP))
    ensures !p.Dict? ==> r == Raise(NoAttribute(p, "get"))
  {
    if !p.Dict? then Raise(NoAttribute(p, "get"))
    else if kind in KINDS then TranslateKnown(kind, p)
    else Ok(Or(Field(p, "action"), NOOP))
  }

  /** The branches of the translator for the known kinds. */
  function TranslateKnown(kind: string, p: Value): (r: Result<Value>)
    requires kind in KINDS && p.Dict?
    ensures r.Ok? ==> r.value.Dict? && Lookup(r.value.fields, "type") == Some(Str(ActionType(kind)))
    ensures r.Raise? <==> || (kind == "SCROLL" && !Or(Field(p, "direction"), Str("down")).Str?)
                          || (kind == "WAIT" && ToInt(FieldOr(p, "timeout", Int(1))).Raise?)
  {
    match kind
    case "NAVIGATE" =>
      Ok(Action("navigate", [("url", FieldOr(p, "target", Str("about:blank")))]))
    case "SEARCH" =>
      Ok(Action("type", [("selector", Or(Field(p, "selector"), Str("input[name='q']"))), ("text", FieldOr(p, "text", Str("")))]))
    case "CLICK" =>
      Ok(Action("click", [("selector", FieldOr(p, "selector", Str("")))]))
    case "TYPE" =>
      Ok(Action("type", [("selector", Field(p, "selector")), ("text", FieldOr(p, "text", Str("")))]))
    case "SCROLL" =>
      var direction :- LowerOf(Or(Field(p, "direction"), Str("down")));
      Ok(Action("scrollBy", [("x", Int(0)), ("y", Int(if direction == "down" then 800 else -800))]))
    case "PRESS" =>
      Ok(Action("press", [("key", FieldOr(p, "key", Str("Enter")))]))
    case "EXTRACT" =>
      Ok(Action("extract", [("selector", Or(Field(p, "selector"), Str("body")))]))
    case _ =>
      var seconds :- ToInt(FieldOr(p, "timeout", Int(1)));
      Ok(Action("sleep", [("ms", Int(seconds * 1000))]))
  }

  /** `_intent_to_stagehand`: a record that already has a `type` is already an action; otherwise the
      upper-cased `intent` (None or missing read as "") picks the translation of `parameters`
      (None or missing read as {}). */
  function IntentToStagehand(intent: Value): (r: Result<Value>)
    ensures intent.Dict? && HasKey(intent.fields, "type") ==> r == Ok(intent)
    ensures !(intent.Dict? || intent.List? || intent.Str?) ==> r.Raise?
    ensures intent.Dict? && !HasKey(intent.fields, "type") && !Truthy(Field(intent, "intent"))
            ==> r == Translate("", Or(Field(intent, "parameters"), EMPTY))
    ensures intent.Dict? && !HasKey(intent.fields, "type") && Field(intent, "intent").Str?
            ==> r == Translate(Upper(Field(intent, "intent").s), Or(Field(intent, "parameters"), EMPTY))
    ensures intent.Dict? && !HasKey(intent.fields, "type") && Truthy(Field(intent, "intent")) && !Field(intent, "intent").Str?
            ==> r == Raise(NoAttribute(Field(intent, "intent"), "upper"))
  {
    var passThrough :- In("type", intent);
    if passThrough then Ok(intent)
    else
      var name :- Get(intent, "intent", Null);
      var kind :- UpperOf(Or(name, Str("")));
      Translate(kind, Or(Field(intent, "parameters"), EMPTY))
  }

  /** The kind an intent record names, as the translator compares it. */
  function KindOf(intent: Value): Result<string>
    requires intent.Dict?
  {
    UpperOf(Or(Field(intent, "intent"), Str("")))
  }

  /** Every action the translator builds for a known kind carries a `type`, so translating it
      again returns it unchanged. */
  lemma TranslatedActionIsFixedPoint(intent: Value)
    requires intent.Dict? && !HasKey(intent.fields, "type")
    requires KindOf(intent).Ok? && KindOf(intent).value in KINDS
    requires IntentToStagehand(intent).Ok?
    ensures IntentToStagehand(IntentToStagehand(intent).value) == IntentToStagehand(intent)
  {
    var a := IntentToStagehand(intent).value;
    assert a == Translate(KindOf(intent).value, Or(Field(intent, "parameters"), EMPTY)).value;
    assert Lookup(a.fields, "type").Some?;
  }

  /** The defaults read with `.get(key, default)` apply only when the key is missing. */
  lemma MissingKeyDefaults(kind: string, p: Value)
    requires p.Dict?
    requires !HasKey(p.fields, "target") && !HasKey(p.fields, "selector") && !HasKey(p.fields, "key")
    requires !HasKey(p.fields, "timeout") && !HasKey(p.fields, "text")
    ensures kind == "NAVIGATE" ==> Translate(kind, p) == Ok(Action("navigate", [("url", Str("about:blank"))]))
    ensures kind == "CLICK" ==> Translate(kind, p) == Ok(Action("click", [("selector", Str(""))]))
    ensures kind == "PRESS" ==> Translate(kind, p) == Ok(Action("press", [("key", Str("Enter"))]))
    ensures kind == "WAIT" ==> Translate(kind, p) == Ok(Action("sleep", [("ms", Int(1000))]))
    ensures kind == "TYPE" ==> Translate(kind, p) == Ok(Action("type", [("selector", Null), ("text", Str(""))]))
  {
  }

  /** Parameters that are present reach the action unchanged, under the action's own names; WAIT
      converts its `timeout` with `int()` and scales it to milliseconds, and raises exactly when
      that conversion does. */
  lemma PresentParameters(kind: string, p: Value)
    requires p.Dict?
    ensures kind == "NAVIGATE" && HasKey(p.fields, "target") ==> Translate(kind, p) == Ok(Action("navigate", [("url", Field(p, "target"))]))
    ensures kind == "CLICK" && HasKey(p.fields, "selector") ==> Translate(kind, p) == Ok(Action("click", [("selector", Field(p, "selector"))]))
    ensures kind == "PRESS" && HasKey(p.fields, "key") ==> Translate(kind, p) == Ok(Action("press", [("key", Field(p, "key"))]))
    ensures kind == "TYPE" && HasKey(p.fields, "text")
            ==> Translate(kind, p) == Ok(Action("type", [("selector", Field(p, "selector")), ("text", Field(p, "text"))]))
    ensures kind == "SEARCH" && Truthy(Field(p, "selector")) && HasKey(p.fields, "text")
            ==> Translate(kind, p) == Ok(Action("type", [("selector", Field(p, "selector")), ("text", Field(p, "text"))]))
    ensures kind == "EXTRACT" && Truthy(Field(p, "selector")) ==> Translate(kind, p) == Ok(Action("extract", [("selector", Field(p, "selector"))]))
    ensures kind == "WAIT" ==> (Translate(kind, p).Raise? <==> ToInt(FieldOr(p, "timeout", Int(1))).Raise?)
    ensures kind == "WAIT" && ToInt(FieldOr(p, "timeout", Int(1))).Ok?
            ==> Translate(kind, p) == Ok(Action("sleep", [("ms", Int(ToInt(FieldOr(p, "timeout", Int(1))).value * 1000))]))
  {
  }

  /** An empty selector is kept by CLICK and TYPE, which read it with `.get`, but replaced by
      SEARCH and EXTRACT, which read it with `or`. */
  lemma EmptySelectorDefaults(p: Value)
    requires p.Dict? && Lookup(p.fields, "selector") == Some(Str(""))
    ensures Translate("CLICK", p) == Ok(Action("click", [("selector", Str(""))]))
    ensures Translate("EXTRACT", p) == Ok(Action("extract", [("selector", Str("body"))]))
    ensures Translate("TYPE", p).Ok? && Translate("TYPE", p).value.fields[1] == ("selector", Str(""))
    ensures Translate("SEARCH", p).Ok? && Translate("SEARCH", p).value.fields[1] == ("selector", Str("input[name='q']"))
  {
  }

  /** SCROLL moves right by 0 and down by 800 exactly when the lower-cased direction (missing,
      None or empty read as "down") is "down"; every other direction scrolls up by 800, and a
      direction that is not a string raises. */
  lemma ScrollDirection(p: Value)
    requires p.Dict?
    ensures var dir := Or(Field(p, "direction"), Str("down"));
      && (Translate("SCROLL", p).Ok? <==> dir.Str?)
      && (dir.Str? ==>
            Translate("SCROLL", p).value == Action("scrollBy", [("x", Int(0)), ("y", Int(if Lower(dir.s) == "down" then 800 else -800))]))
      && (!Truthy(Field(p, "direction")) ==> Translate("SCROLL", p).value == Action("scrollBy", [("x", Int(0)), ("y", Int(800))]))
  {
    var dir := Or(Field(p, "direction"), Str("down"));
    if !Truthy(Field(p, "direction")) {
      assert dir == Str("down");
      assert Lower("down") == "down";
    }
  }

  /** An intent with no name and no parameters becomes the no-op action. */
  lemma EmptyIntentIsNoop(intent: Value)
    requires intent.Dict? && !HasKey(intent.fields, "type")
    requires !Truthy(Field(intent, "intent")) && !Truthy(Field(intent, "parameters"))
    ensures IntentToStagehand(intent) == Ok(NOOP)
  {
    assert Field(EMPTY, "action") == Null;
  }

  /* ---------- Session lifecycle ---------- */

  /** The create-session body: the project id when one is configured. */
  function Payload(projectId: string): (r: Value)
    ensures projectId != "" ==> r.Dict? && Lookup(r.fields, "projectId") == Some(Str(projectId))
    ensures projectId == "" ==> r == EMPTY
  {
    if projectId != "" then Dict([("projectId", Str(projectId))]) else EMPTY
  }

  /** The session id in a create-session reply, or what `start_session` raises over the reply:
      anything but 200 or 201 is a failure. */
  function CreatedId(net: Remote, reply: HttpReply): (r: Result<Value>)
    ensures r.Ok? ==> reply.Replied? && (reply.status == 200 || reply.status == 201)
    ensures reply.Replied? && reply.body.Ok? && reply.status != 200 && reply.status != 201
            ==> r == Raise("Failed to create session: " + IntText(reply.status) + " " + reply.body.value)
  {
    match reply
    case RequestFailed(e) => Raise(e)
    case Replied(status, body) =>
      var txt :- body;
      if status != 200 && status != 201 then Raise("Failed to create session: " + IntText(status) + " " + txt)
      else
        var data :- net.loads(txt);
        Item(data, "id")
  }

  /** The connect loop from attempt `attempt` (0-based) on: connect, and after a failure other
      than the third wait 1.5 s times the attempt number and try again. */
  function ConnectRun(net: Remote, s: BrowserState, attempt: nat): (r: Step<()>)
    requires attempt <= 2
    ensures r.state == r.state.(log := r.state.log, ws := r.state.ws) && r.state.projectId == s.projectId
    ensures r.state.httpOpen == s.httpOpen && r.state.sessionId == s.sessionId
    ensures r.out.Ok? ==> r.state.ws.Some?
    ensures r.out.Raise? ==> r.state.ws == s.ws
    ensures |r.state.log| > |s.log| && r.state.log[..|s.log|] == s.log
    decreases 2 - attempt
  {
    var s1 := s.(log := s.log + [Connect(s.sessionId)]);
    match net.connect(|s.log|)
    case Connected(h) => Step(s1.(ws := Some(h)), Ok(()))
    case ConnectFailed(e) =>
      if attempt == 2 then Step(s1, Raise(e))
      else ConnectRun(net, s1.(log := s1.log + [Pause(1500 * (attempt + 1))]), attempt + 1)
  }

  /** The requests one run of the connect loop makes: at most three connects, with pauses of
      1500 ms and 3000 ms between them. */
  lemma {:induction false} ConnectSchedule(net: Remote, s: BrowserState)
    ensures var c := Connect(s.sessionId);
      var added := ConnectRun(net, s, 0).state.log[|s.log|..];
      added == [c] || added == [c, Pause(1500), c] || added == [c, Pause(1500), c, Pause(3000), c]
  {
    var c := Connect(s.sessionId);
    var s1 := s.(log := s.log + [c]);
    if net.connect(|s.log|).ConnectFailed? {
      var s2 := s1.(log := s1.log + [Pause(1500)]);
      var s3 := s2.(log := s2.log + [c]);
      assert ConnectRun(net, s, 0) == ConnectRun(net, s2, 1);
      if net.connect(|s2.log|).ConnectFailed? {
        var s4 := s3.(log := s3.log + [Pause(3000)]);
        assert ConnectRun(net, s2, 1) == ConnectRun(net, s4, 2);
        assert ConnectRun(net, s4, 2).state.log == s.log + [c, Pause(1500), c, Pause(3000), c];
      } else {
        assert ConnectRun(net, s2, 1).state.log == s.log + [c, Pause(1500), c];
      }
    } else {
      assert ConnectRun(net, s, 0).state.log == s.log + [c];
    }
  }

  /** `start_session`: reuse the current session unless `forceNew`; otherwise create one, record
      its id, and connect the websocket. A failed connect leaves the new id in place and the old
      websocket untouched. */
  function StartSpec(net: Remote, s: BrowserState, forceNew: bool): (r: Step<Value>)
    ensures Truthy(s.sessionId) && !forceNew ==> r == Step(s, Ok(s.sessionId))
    ensures r.state.projectId == s.projectId
    ensures r.out.Ok? ==> r.out.value == r.state.sessionId
    ensures |r.state.log| >= |s.log| && r.state.log[..|s.log|] == s.log
    ensures r.out.Ok? && !(Truthy(s.sessionId) && !forceNew) ==> r.state.ws.Some?
  {
    if Truthy(s.sessionId) && !forceNew then Step(s, Ok(s.sessionId))
    else
      var s1 := s.(httpOpen := true, log := s.log + [CreateSession(Payload(s.projectId))]);
      match CreatedId(net, net.create(|s.log|))
      case Raise(e) => Step(s1, Raise(e))
      case Ok(id) =>
        var c := ConnectRun(net, s1.(sessionId := id), 0);
        Step(c.state, if c.out.Ok? then Ok(id) else Raise(c.out.error))
  }

  /** `end_session`: nothing to do without a session; otherwise ask for its deletion, whatever the
      answer, and forget the id. The websocket is left as it is. */
  function EndSpec(s: BrowserState): (r: BrowserState)
    ensures !Truthy(s.sessionId) ==> r == s
    ensures r.sessionId == Null || r == s
    ensures r.ws == s.ws && r.projectId == s.projectId
  {
    if !Truthy(s.sessionId) then s
    else s.(httpOpen := true, sessionId := Null, log := s.log + [DeleteSession(s.sessionId)])
  }

  /** Ending a session twice is the same as ending it once. */
  lemma EndIdempotent(s: BrowserState)
    ensures EndSpec(EndSpec(s)) == EndSpec(s)
  {
  }

  /** After `end_session` the next send starts a brand-new session. */
  lemma EndThenSendCreates(net: Remote, s: BrowserState, action: Value)
    requires Truthy(s.sessionId)
    ensures var e := EndSpec(s);
      var r := SendSpec(net, e, action);
      |r.state.log| > |e.log| && r.state.log[|e.log|] == CreateSession(Payload(s.projectId))
  {
  }

  /** `shutdown`: close the websocket (forgetting it even if closing raises), end the session
      unless closing raised, then close the HTTP client and yield once. */
  function ShutdownSpec(net: Remote, s: BrowserState): (r: Step<()>)
    ensures r.state.ws == None && !r.state.httpOpen
    ensures r.out.Ok? <==> s.ws.None? || net.close(|s.log|).None?
    ensures r.out.Ok? ==> !Truthy(r.state.sessionId)
    ensures r.out.Raise? ==> r.state.sessionId == s.sessionId
  {
    var closeError := if s.ws.Some? then net.close(|s.log|) else None;
    var s1 := if s.ws.Some? then s.(ws := None, log := s.log + [CloseSocket(s.ws.value)]) else s;
    var s2 := if closeError.None? then EndSpec(s1) else s1;
    var s3 := s2.(httpOpen := false, log := s2.log + [Pause(0)]);
    Step(s3, if closeError.Some? then Raise(closeError.value) else Ok(()))
  }

  /** `_send`: start a session if there is none, fail without a websocket, otherwise send the
      action and decode the reply, keeping an undecodable reply as `{"raw": message}`. */
  function SendSpec(net: Remote, s: BrowserState, action: Value): (r: Step<Value>)
    ensures r.state.projectId == s.projectId
    ensures |r.state.log| >= |s.log| && r.state.log[..|s.log|] == s.log
    ensures Truthy(s.sessionId) && s.ws.None? ==> r == Step(s, Raise("WebSocket not connected"))
  {
    var st := if Truthy(s.sessionId) then Step(s, Ok(s.sessionId)) else StartSpec(net, s, false);
    if st.out.Raise? then Step(st.state, Raise(st.out.error))
    else
      var s1 := st.state;
      if s1.ws.None? then Step(s1, Raise("WebSocket not connected"))
      else
        var s2 := s1.(log := s1.log + [SendAction(action)]);
        match net.exchange(|s1.log|)
        case ExchangeFailed(e) => Step(s2, Raise(e))
        case Exchanged(msg) =>
          Step(s2, Ok(match net.loads(msg) case Ok(v) => v case Raise(_) => Dict([("raw", Str(msg))])))
  }

  /** When the new session is created but its websocket never connects, `start_session` raises,
      the new id stays recorded and, with no websocket from before, every later send fails with
      "WebSocket not connected" without making any request. */
  lemma FailedConnectStrandsSession(net: Remote, s: BrowserState, forceNew: bool, action: Value)
    requires s.ws.None? && !(Truthy(s.sessionId) && !forceNew)
    requires var id := CreatedId(net, net.create(|s.log|)); id.Ok? && Truthy(id.value)
    ensures var r := StartSpec(net, s, forceNew);
      r.out.Raise? ==>
        && r.state.sessionId == CreatedId(net, net.create(|s.log|)).value
        && r.state.ws.None?
        && SendSpec(net, r.state, action) == Step(r.state, Raise("WebSocket not connected"))
  {
  }

  /* ---------- Commands and workflows ---------- */

  /** The record `execute_command` returns for `action` and the outcome of sending it. */
  function CommandRecord(action: Value, sent: Result<Value>): (r: Value)
    ensures r.Dict? && Field(r, "success") == Bool(sent.Ok?) && Field(r, "action") == action
    ensures sent.Ok? ==> Field(r, "response") == sent.value
    ensures sent.Raise? ==> Field(r, "error") == Str(sent.error)
  {
    var fields := match sent
      case Ok(data) => [("success", Bool(true)), ("action", action), ("response", data)]
      case Raise(e) => [("success", Bool(false)), ("error", Str(e)), ("action", action)];
    LookupAt(fields, 0);
    LookupAt(fields, 1);
    LookupAt(fields, 2);
    Dict(fields)
  }

  /** `execute_command`: translation happens outside the `try`, so a translation error escapes
      with no request made; a send error becomes a failure record. */
  function CommandSpec(net: Remote, s: BrowserState, intent: Value): (r: Step<Value>)
    ensures r.out.Raise? <==> IntentToStagehand(intent).Raise?
    ensures r.out.Raise? ==> r == Step(s, Raise(IntentToStagehand(intent).error))
    ensures r.out.Ok? ==> r.out.value == CommandRecord(IntentToStagehand(intent).value, SendSpec(net, s, IntentToStagehand(intent).value).out)
    ensures r.state.projectId == s.projectId
  {
    match IntentToStagehand(intent)
    case Raise(e) => Step(s, Raise(e))
    case Ok(action) =>
      var sent := SendSpec(net, s, action);
      Step(sent.state, Ok(CommandRecord(action, sent.out)))
  }

  /** The record `execute_workflow` keeps for step `n`. */
  function StepRecord(n: nat, intent: Value, result: Value): (r: Value)
    requires result.Dict?
  {
    Dict([("step", Int(n)), ("intent", intent), ("result", result), ("success", Bool(Truthy(Field(result, "success"))))])
  }

  /** The shape of the entry for step `n` (counted from 1) run on `intent`. */
  predicate IsStep(entry: Value, n: nat, intent: Value) {
    && entry.Dict?
    && Field(entry, "step") == Int(n)
    && Field(entry, "intent") == intent
    && Field(entry, "result").Dict?
    && Field(entry, "success") == Bool(Truthy(Field(Field(entry, "result"), "success")))
  }

  lemma StepRecordIsStep(n: nat, intent: Value, result: Value)
    requires result.Dict?
    ensures IsStep(StepRecord(n, intent, result), n, intent)
  {
    var fields := StepRecord(n, intent, result).fields;
    LookupAt(fields, 0);
    LookupAt(fields, 1);
    LookupAt(fields, 2);
    LookupAt(fields, 3);
  }

  /** Whether step `intent` aborts the workflow: its log line calls `.get` on it, and its
      translation runs outside `execute_command`'s `try`. */
  predicate Aborts(intent: Value) {
    !intent.Dict? || IntentToStagehand(intent).Raise?
  }

  /** Some intent at index `k` or later aborts. */
  predicate AbortsFrom(intents: seq<Value>, k: nat)
    decreases |intents| - k
  {
    k < |intents| && (Aborts(intents[k]) || AbortsFrom(intents, k + 1))
  }

  /** `execute_workflow` from step `|done| + 1` on, with `done` the records so far. */
  function WorkflowFrom(net: Remote, s: BrowserState, intents: seq<Value>, done: seq<Value>): (r: Step<seq<Value>>)
    requires |done| <= |intents|
    ensures r.state.projectId == s.projectId
    ensures r.out.Raise? <==> AbortsFrom(intents, |done|)
    decreases |intents| - |done|, 1
  {
    if |done| == |intents| then Step(s, Ok(done))
    else if !intents[|done|].Dict? then Step(s, Raise(NoAttribute(intents[|done|], "get")))
    else WorkflowStep(net, s, intents, done)
  }

  /** Step `|done| + 1` on a dict intent: run its command, then, after a pause, the steps after it. */
  function WorkflowStep(net: Remote, s: BrowserState, intents: seq<Value>, done: seq<Value>): (r: Step<seq<Value>>)
    requires |done| < |intents| && intents[|done|].Dict?
    ensures r.state.projectId == s.projectId
    ensures r.out.Raise? <==> Aborts(intents[|done|]) || AbortsFrom(intents, |done| + 1)
    decreases |intents| - |done|, 0
  {
    var c := CommandSpec(net, s, intents[|done|]);
    assert Aborts(intents[|done|]) <==> c.out.Raise?;
    if c.out.Raise? then Step(c.state, Raise(c.out.error))
    else
      var more := done + [StepRecord(|done| + 1, intents[|done|], c.out.value)];
      assert |more| == |done| + 1;
      WorkflowFrom(net, c.state.(log := c.state.log + [Pause(200)]), intents, more)
  }

  function WorkflowSpec(net: Remote, s: BrowserState, intents: seq<Value>): Step<seq<Value>> {
    WorkflowFrom(net, s, intents, [])
  }

  /** A workflow that completes has one record per intent, in order, numbered from 1; a failed
      step is recorded and the later steps still run. */
  lemma {:induction false} WorkflowFromSteps(net: Remote, s: BrowserState, intents: seq<Value>, done: seq<Value>)
    requires |done| <= |intents|
    requires forall i :: 0 <= i < |done| ==> IsStep(done[i], i + 1, intents[i])
    ensures var r := WorkflowFrom(net, s, intents, done);
      r.out.Ok? ==> |r.out.value| == |intents| && forall i :: 0 <= i < |intents| ==> IsStep(r.out.value[i], i + 1, intents[i])
    decreases |intents| - |done|
  {
    if |done| < |intents| && intents[|done|].Dict? {
      var c := CommandSpec(net, s, intents[|done|]);
      if c.out.Ok? {
        var entry := StepRecord(|done| + 1, intents[|done|], c.out.value);
        StepRecordIsStep(|done| + 1, intents[|done|], c.out.value);
        StepsExtend(intents, done, entry);
        WorkflowStepContinues(net, s, intents, done);
        WorkflowFromSteps(net, c.state.(log := c.state.log + [Pause(200)]), intents, done + [entry]);
      }
    }
  }

  lemma StepsExtend(intents: seq<Value>, done: seq<Value>, entry: Value)
    requires |done| < |intents|
    requires forall i :: 0 <= i < |done| ==> IsStep(done[i], i + 1, intents[i])
    requires IsStep(entry, |done| + 1, intents[|done|])
    ensures forall i :: 0 <= i < |done + [entry]| ==> IsStep((done + [entry])[i], i + 1, intents[i])
  {
  }

  lemma WorkflowSteps(net: Remote, s: BrowserState, intents: seq<Value>)
    ensures var r := WorkflowSpec(net, s, intents);
      r.out.Ok? ==> |r.out.value| == |intents| && forall i :: 0 <= i < |intents| ==> IsStep(r.out.value[i], i + 1, intents[i])
  {
    WorkflowFromSteps(net, s, intents, []);
  }

  lemma {:induction false} AbortsFromIffSome(intents: seq<Value>, k: nat)
    ensures AbortsFrom(intents, k) <==> exists i :: k <= i < |intents| && Aborts(intents[i])
    decreases |intents| - k
  {
    if k < |intents| {
      AbortsFromIffSome(intents, k + 1);
      if exists i :: k <= i < |intents| && Aborts(intents[i]) {
        var i :| k <= i < |intents| && Aborts(intents[i]);
        assert i == k || (k + 1 <= i < |intents| && Aborts(intents[i]));
      }
    }
  }

  /** A step whose command returns goes on with the steps after it. */
  lemma WorkflowStepContinues(net: Remote, s: BrowserState, intents: seq<Value>, done: seq<Value>)
    requires |done| < |intents| && intents[|done|].Dict?
    requires CommandSpec(net, s, intents[|done|]).out.Ok?
    ensures var c := CommandSpec(net, s, intents[|done|]);
      WorkflowStep(net, s, intents, done)
      == WorkflowFrom(net, c.state.(log := c.state.log + [Pause(200)]), intents,
                      done + [StepRecord(|done| + 1, intents[|done|], c.out.value)])
  {
  }

  /** The workflow raises exactly when one of its intents aborts, whatever the browser answers. */
  lemma WorkflowRaises(net: Remote, s: BrowserState, intents: seq<Value>)
    ensures WorkflowSpec(net, s, intents).out.Raise? <==> exists i :: 0 <= i < |intents| && Aborts(intents[i])
  {
    AbortsFromIffSome(intents, 0);
  }

  /* ---------- Page helpers ---------- */

  const TITLE_JS := "document.title"
  const HREF_JS := "location.href"
  const TEXT_JS := "document.body && document.body.innerText || ''"
  const HTML_JS := "document.documentElement.outerHTML"
  /** The three listing scripts of `extract_data` (all links with their text, all images with
      their alt text, all forms with their fields) stand here as short names: the page is an
      oracle, so what matters is which script is sent, not its JavaScript. */
  const LINKS_JS := "<links script>"
  const IMAGES_JS := "<images script>"
  const FORMS_JS := "<forms script>"

  function EvalAction(expression: string): Value {
    Dict([("type", Str("eval")), ("expression", Str(expression))])
  }

  /** `r.get("result") or r.get("data") or fallback`. */
  function Pick(reply: Value, fallback: Value): (r: Result<Value>)
    ensures r.Ok? <==> reply.Dict?
    ensures reply.Dict? && !Truthy(Field(reply, "result")) && !Truthy(Field(reply, "data")) ==> r == Ok(fallback)
    ensures reply.Dict? && Truthy(Field(reply, "result")) ==> r == Ok(Field(reply, "result"))
  {
    var a :- Get(reply, "result", Null);
    Ok(Or(a, Or(Field(reply, "data"), fallback)))
  }

  /** Send one `eval` and pick its value out of the reply: the send's failure, or the reply's
      `result`, else `data`, else the fallback; a reply that is not a dict raises. */
  function EvalSpec(net: Remote, s: BrowserState, expression: string, fallback: Value): (r: Step<Value>)
    ensures var sent := SendSpec(net, s, EvalAction(expression));
      && r.state == sent.state
      && (sent.out.Raise? ==> r.out == Raise(sent.out.error))
      && (sent.out.Ok? ==> r.out == Pick(sent.out.value, fallback))
      && (r.out.Ok? <==> sent.out.Ok? && sent.out.value.Dict?)
  {
    var sent := SendSpec(net, s, EvalAction(expression));
    match sent.out
    case Raise(e) => Step(sent.state, Raise(e))
    case Ok(reply) => Step(sent.state, Pick(reply, fallback))
  }

  /** `get_page_content`: title, url, text and html in that order of requests; any failure gives None. */
  function PageContentSpec(net: Remote, s: BrowserState): (r: (BrowserState, Value))
    ensures r.1 == Null || (r.1.Dict? && Keys(r.1.fields) == ["url", "title", "text", "html"])
    ensures r.1 != Null ==> var t := EvalSpec(net, s, TITLE_JS, Str(""));
      t.out.Ok? && Field(r.1, "title") == t.out.value
  {
    var t := EvalSpec(net, s, TITLE_JS, Str(""));
    if t.out.Raise? then (t.state, Null) else PageAfterTitle(net, t.state, t.out.value)
  }

  /** `get_page_content` once the title is read. */
  function PageAfterTitle(net: Remote, s: BrowserState, title: Value): (r: (BrowserState, Value))
    ensures r.1 == Null || (r.1.Dict? && Keys(r.1.fields) == ["url", "title", "text", "html"])
    ensures r.1 != Null ==> var u := EvalSpec(net, s, HREF_JS, Str(""));
      u.out.Ok? && Field(r.1, "url") == u.out.value && Field(r.1, "title") == title
  {
    var u := EvalSpec(net, s, HREF_JS, Str(""));
    if u.out.Raise? then (u.state, Null) else PageAfterUrl(net, u.state, title, u.out.value)
  }

  /** `get_page_content` once the title and the url are read. */
  function PageAfterUrl(net: Remote, s: BrowserState, title: Value, url: Value): (r: (BrowserState, Value))
    ensures r.1 == Null || (r.1.Dict? && Keys(r.1.fields) == ["url", "title", "text", "html"])
    ensures r.1 != Null ==> var x := EvalSpec(net, s, TEXT_JS, Str(""));
      x.out.Ok? && Field(r.1, "text") == x.out.value && Field(r.1, "title") == title && Field(r.1, "url") == url
  {
    var x := EvalSpec(net, s, TEXT_JS, Str(""));
    if x.out.Raise? then (x.state, Null) else PageAfterText(net, x.state, title, url, x.out.value)
  }

  /** `get_page_content` once the title, the url and the text are read. */
  function PageAfterText(net: Remote, s: BrowserState, title: Value, url: Value, text: Value): (r: (BrowserState, Value))
    ensures r.1 == Null || (r.1.Dict? && Keys(r.1.fields) == ["url", "title", "text", "html"])
    ensures var h := EvalSpec(net, s, HTML_JS, Str(""));
      && r.0 == h.state
      && (r.1 == Null <==> h.out.Raise?)
      && (r.1 != Null ==> Field(r.1, "html") == h.out.value && Field(r.1, "text") == text
                          && Field(r.1, "title") == title && Field(r.1, "url") == url)
  {
    var h := EvalSpec(net, s, HTML_JS, Str(""));
    if h.out.Raise? then (h.state, Null) else (h.state, PageRecord(title, url, text, h.out.value))
  }

  /** The dictionary `get_page_content` returns. */
  function PageRecord(title: Value, url: Value, text: Value, html: Value): (r: Value)
    ensures r.Dict? && Keys(r.fields) == ["url", "title", "text", "html"]
    ensures Field(r, "url") == url && Field(r, "title") == title
    ensures Field(r, "text") == text && Field(r, "html") == html
  {
    var fields := [("url", url), ("title", title), ("text", text), ("html", html)];
    assert Keys(fields) == ["url", "title", "text", "html"];
    LookupAt(fields, 0);
    LookupAt(fields, 1);
    LookupAt(fields, 2);
    LookupAt(fields, 3);
    Dict(fields)
  }

  /** The listing branches of `extract_data`: one `eval`, its value (default []) and its length. */
  function ListingSpec(net: Remote, s: BrowserState, expression: string, name: string): (r: (BrowserState, Value))
    ensures r.1 == Null || (r.1.Dict? && |r.1.fields| == 2 && r.1.fields[0].0 == name && r.1.fields[1].0 == "count")
    ensures var e := EvalSpec(net, s, expression, List([]));
      && r.0 == e.state
      && (r.1 == Null <==> e.out.Raise? || Len(e.out.value).Raise?)
      && (r.1 != Null ==> r.1.fields[0].1 == e.out.value && r.1.fields[1].1 == Int(Len(e.out.value).value))
  {
    var e := EvalSpec(net, s, expression, List([]));
    if e.out.Raise? then (e.state, Null) else
    match Len(e.out.value)
    case Raise(_) => (e.state, Null)
    case Ok(n) => (e.state, Dict([(name, e.out.value), ("count", Int(n))]))
  }

  /** `extract_data`: links, images or forms by their scripts; anything else reads text, title
      and url; any failure gives None. */
  function ExtractSpec(net: Remote, s: BrowserState, dataType: string): (r: (BrowserState, Value))
    ensures r.1 == Null || r.1.Dict?
    ensures (dataType == "links" || dataType == "images" || dataType == "forms") && r.1 != Null
            ==> |r.1.fields| == 2 && r.1.fields[0].0 == dataType
                && Len(r.1.fields[0].1).Ok? && r.1.fields[1] == ("count", Int(Len(r.1.fields[0].1).value))
    ensures dataType != "links" && dataType != "images" && dataType != "forms" && r.1 != Null
            ==> Keys(r.1.fields) == ["text", "title", "url"]
                && EvalSpec(net, s, TEXT_JS, Str("")).out.Ok? && r.1.fields[0].1 == EvalSpec(net, s, TEXT_JS, Str("")).out.value
  {
    if dataType == "links" then ListingSpec(net, s, LINKS_JS, "links")
    else if dataType == "images" then ListingSpec(net, s, IMAGES_JS, "images")
    else if dataType == "forms" then ListingSpec(net, s, FORMS_JS, "forms")
    else
      var x := EvalSpec(net, s, TEXT_JS, Str(""));
      if x.out.Raise? then (x.state, Null) else
      var t := EvalSpec(net, x.state, TITLE_JS, Str(""));
      if t.out.Raise? then (t.state, Null) else
      var u := EvalSpec(net, t.state, HREF_JS, Str(""));
      if u.out.Raise? then (u.state, Null) else
      var fields := [("text", x.out.value), ("title", t.out.value), ("url", u.out.value)];
      assert Keys(fields) == ["text", "title", "url"];
      (u.state, Dict(fields))
  }

  const SCREENSHOT: Value := Dict([("type", Str("screenshot")), ("format", Str("png")), ("return", Str("base64"))])

  /** The base64 text in a screenshot reply: `response.data`, else `data`, else `screenshot`,
      else `png`, the first that is truthy. */
  function ScreenshotData(reply: Value): (r: Result<Value>)
    ensures r.Raise? <==> !reply.Dict? || (HasKey(reply.fields, "response") && !Field(reply, "response").Dict?)
    ensures reply.Dict? && Field(reply, "response").Dict? && Truthy(Field(Field(reply, "response"), "data"))
            ==> r == Ok(Field(Field(reply, "response"), "data"))
    ensures reply.Dict? && (!HasKey(reply.fields, "response")
                            || (Field(reply, "response").Dict? && !Truthy(Field(Field(reply, "response"), "data"))))
            ==> r == Ok(Or(Field(reply, "data"), Or(Field(reply, "screenshot"), Field(reply, "png"))))
  {
    var response :- Get(reply, "response", EMPTY);
    var nested :- Get(response, "data", Null);
    Ok(Or(nested, Or(Field(reply, "data"), Or(Field(reply, "screenshot"), Field(reply, "png")))))
  }

  /** `take_screenshot`: the decoded bytes, or None when the send fails, the reply holds no
      image, or decoding fails. */
  function ScreenshotSpec(net: Remote, s: BrowserState): (r: (BrowserState, Option<seq<bv8>>))
    ensures var sent := SendSpec(net, s, SCREENSHOT);
      && r.0 == sent.state
      && (sent.out.Raise? ==> r.1 == None)
      && (sent.out.Ok? ==> var b64 := ScreenshotData(sent.out.value);
            && (r.1.Some? <==> b64.Ok? && Truthy(b64.value) && net.b64decode(b64.value).Ok?)
            && (r.1.Some? ==> net.b64decode(b64.value) == Ok(r.1.value)))
  {
    var sent := SendSpec(net, s, SCREENSHOT);
    if sent.out.Raise? then (sent.state, None) else
    match ScreenshotData(sent.out.value)
    case Raise(_) => (sent.state, None)
    case Ok(b64) =>
      if !Truthy(b64) then (sent.state, None)
      else match net.b64decode(b64)
        case Raise(_) => (sent.state, None)
        case Ok(bytes) => (sent.state, Some(bytes))
  }

  function WaitAction(selector: string, timeout: int): Value {
    Dict([("type", Str("waitFor")), ("selector", Str(selector)), ("timeoutMs", Int(timeout * 1000))])
  }

  /** `wait_for_element`: the truth of the reply to one `waitFor`; a failed send gives False. */
  function WaitSpec(net: Remote, s: BrowserState, selector: string, timeout: int): (r: (BrowserState, bool))
    ensures r.0 == SendSpec(net, s, WaitAction(selector, timeout)).state
    ensures r.1 ==> SendSpec(net, s, WaitAction(selector, timeout)).out.Ok?
  {
    var sent := SendSpec(net, s, WaitAction(selector, timeout));
    (sent.state, sent.out.Ok? && Truthy(sent.out.value))
  }

  /** On a connected session the wait sends exactly one `waitFor`; it is False when the exchange
      fails or the decoded reply is falsy (an empty dict, None, 0), and True for a reply that is
      not JSON, since that comes back as `{"raw": msg}`. */
  lemma WaitOnConnected(net: Remote, s: BrowserState, selector: string, timeout: int)
    requires Truthy(s.sessionId) && s.ws.Some?
    ensures WaitSpec(net, s, selector, timeout).0 == s.(log := s.log + [SendAction(WaitAction(selector, timeout))])
    ensures WaitSpec(net, s, selector, timeout).1
            == match net.exchange(|s.log|)
               case ExchangeFailed(_) => false
               case Exchanged(msg) => (match net.loads(msg) case Ok(v) => Truthy(v) case Raise(_) => true)
  {
  }

  /** A screenshot reply whose `response.data` is set is decoded from there, whatever the other keys hold. */
  lemma ScreenshotFromResponseData(net: Remote, s: BrowserState, msg: string, bytes: seq<bv8>)
    requires Truthy(s.sessionId) && s.ws.Some? && net.exchange(|s.log|) == Exchanged(msg)
    requires net.loads(msg).Ok? && net.loads(msg).value.Dict?
    requires var response := Field(net.loads(msg).value, "response");
      response.Dict? && Truthy(Field(response, "data")) && net.b64decode(Field(response, "data")) == Ok(bytes)
    ensures ScreenshotSpec(net, s) == (s.(log := s.log + [SendAction(SCREENSHOT)]), Some(bytes))
  {
  }

  /** With the session id kept but no websocket (a failed connect), the reads make no request,
      change nothing and return their failure values. */
  lemma StrandedReadsFail(net: Remote, s: BrowserState, selector: string, timeout: int)
    requires Truthy(s.sessionId) && s.ws.None?
    ensures WaitSpec(net, s, selector, timeout) == (s, false)
    ensures ScreenshotSpec(net, s) == (s, None)
    ensures PageContentSpec(net, s) == (s, Null)
  {
  }

  /* ---------- The driver object ---------- */

  class Browser {
    const net: Remote
    const projectId: string
    var httpOpen: bool
    var sessionId: Value
    var ws: Option<nat>
    var log: seq<Request>

    function State(): BrowserState
      reads this
    {
      BrowserState(projectId, httpOpen, sessionId, ws, log)
    }

    constructor (net: Remote, projectId: string)
      ensures this.net == net
      ensures State() == BrowserState(projectId, false, Null, None, [])
    {
      this.net := net;
      this.projectId := projectId;
      httpOpen := false;
      sessionId := Null;
      ws := None;
      log := [];
    }

    method StartSession(forceNew: bool) returns (r: Result<Value>)
      modifies this
      ensures State() == StartSpec(net, old(State()), forceNew).state
      ensures r == StartSpec(net, old(State()), forceNew).out
    {
      if Truthy(sessionId) && !forceNew {
        return Ok(sessionId);
      }
      var reply := net.create(|log|);
      httpOpen := true;
      log := log + [CreateSession(Payload(projectId))];
      var created := CreatedId(net, reply);
      if created.Raise? {
        return Raise(created.error);
      }
      sessionId := created.value;
      var connected := ConnectWithRetries();
      r := if connected.Ok? then Ok(sessionId) else Raise(connected.error);
    }

    /** The websocket connect loop of `start_session`. */
    method ConnectWithRetries() returns (r: Result<()>)
      modifies this
      ensures State() == ConnectRun(net, old(State()), 0).state
      ensures r == ConnectRun(net, old(State()), 0).out
    {
      ghost var connecting := State();
      var attempt := 0;
      var finished := false;
      var error: Option<string> := None;
      while !finished
        invariant attempt <= 2
        invariant !finished ==> error.None?
        invariant !finished ==> ConnectRun(net, State(), attempt) == ConnectRun(net, connecting, 0)
        invariant finished ==> ConnectRun(net, connecting, 0) == Step(State(), if error.None? then Ok(()) else Raise(error.value))
        decreases 2 - attempt, !finished
      {
        var answer := net.connect(|log|);
        log := log + [Connect(sessionId)];
        match answer
        case Connected(h) =>
          ws := Some(h);
          finished := true;
        case ConnectFailed(e) =>
          if attempt == 2 {
            error := Some(e);
            finished := true;
          } else {
            log := log + [Pause(1500 * (attempt + 1))];
            attempt := attempt + 1;
          }
      }
      r := if error.None? then Ok(()) else Raise(error.value);
    }

    method EndSession()
      modifies this
      ensures State() == EndSpec(old(State()))
    {
      if !Truthy(sessionId) {
        return;
      }
      httpOpen := true;
      log := log + [DeleteSession(sessionId)];
      sessionId := Null;
    }

    method Shutdown() returns (r: Result<()>)
      modifies this
      ensures State() == ShutdownSpec(net, old(State())).state
      ensures r == ShutdownSpec(net, old(State())).out
    {
      var closeError: Option<string> := None;
      if ws.Some? {
        closeError := net.close(|log|);
        log := log + [CloseSocket(ws.value)];
        ws := None;
      }
      if closeError.None? {
        EndSession();
      }
      httpOpen := false;
      log := log + [Pause(0)];
      r := if closeError.Some? then Raise(closeError.value) else Ok(());
    }

    method Send(action: Value) returns (r: Result<Value>)
      modifies this
      ensures State() == SendSpec(net, old(State()), action).state
      ensures r == SendSpec(net, old(State()), action).out
    {
      if !Truthy(sessionId) {
        var started := StartSession(false);
        if started.Raise? {
          return Raise(started.error);
        }
      }
      if ws.None? {
        return Raise("WebSocket not connected");
      }
      var answer := net.exchange(|log|);
      log := log + [SendAction(action)];
      match answer
      case ExchangeFailed(e) =>
        r := Raise(e);
      case Exchanged(msg) =>
        var decoded := net.loads(msg);
        r := Ok(if decoded.Ok? then decoded.value else Dict([("raw", Str(msg))]));
    }

    method ExecuteCommand(intent: Value) returns (r: Result<Value>)
      modifies this
      ensures State() == CommandSpec(net, old(State()), intent).state
      ensures r == CommandSpec(net, old(State()), intent).out
    {
      var action :- IntentToStagehand(intent);
      var sent := Send(action);
      r := Ok(CommandRecord(action, sent));
    }

    method ExecuteWorkflow(intents: seq<Value>) returns (r: Result<seq<Value>>)
      modifies this
      ensures State() == WorkflowSpec(net, old(State()), intents).state
      ensures r == WorkflowSpec(net, old(State()), intents).out
    {
      var results: seq<Value> := [];
      while |results| < |intents|
        invariant |results| <= |intents|
        invariant WorkflowFrom(net, State(), intents, results) == WorkflowSpec(net, old(State()), intents)
        decreases |intents| - |results|
      {
        var intent := intents[|results|];
        if !intent.Dict? {
          return Raise(NoAttribute(intent, "get"));
        }
        var result := ExecuteCommand(intent);
        if result.Raise? {
          return Raise(result.error);
        }
        results := results + [StepRecord(|results| + 1, intent, result.value)];
        log := log + [Pause(200)];
      }
      r := Ok(results);
    }

    method Eval(expression: string, fallback: Value) returns (r: Result<Value>)
      modifies this
      ensures State() == EvalSpec(net, old(State()), expression, fallback).state
      ensures r == EvalSpec(net, old(State()), expression, fallback).out
    {
      var reply :- Send(EvalAction(expression));
      r := Pick(reply, fallback);
    }

    method GetPageContent() returns (r: Value)
      modifies this
      ensures (State(), r) == PageContentSpec(net, old(State()))
    {
      var title := Eval(TITLE_JS, Str(""));
      if title.Raise? { return Null; }
      var url := Eval(HREF_JS, Str(""));
      if url.Raise? { return Null; }
      var text := Eval(TEXT_JS, Str(""));
      if text.Raise? { return Null; }
      var html := Eval(HTML_JS, Str(""));
      if html.Raise? { return Null; }
      r := Dict([("url", url.value), ("title", title.value), ("text", text.value), ("html", html.value)]);
    }

    method ExtractData(dataType: string) returns (r: Value)
      modifies this
      ensures (State(), r) == ExtractSpec(net, old(State()), dataType)
    {
      if dataType == "links" || dataType == "images" || dataType == "forms" {
        var expression := if dataType == "links" then LINKS_JS else if dataType == "images" then IMAGES_JS else FORMS_JS;
        var items := Eval(expression, List([]));
        if items.Raise? { return Null; }
        var count := Len(items.value);
        if count.Raise? { return Null; }
        return Dict([(dataType, items.value), ("count", Int(count.value))]);
      }
      var text := Eval(TEXT_JS, Str(""));
      if text.Raise? { return Null; }
      var title := Eval(TITLE_JS, Str(""));
      if title.Raise? { return Null; }
      var url := Eval(HREF_JS, Str(""));
      if url.Raise? { return Null; }
      r := Dict([("text", text.value), ("title", title.value), ("url", url.value)]);
    }

    method TakeScreenshot() returns (r: Option<seq<bv8>>)
      modifies this
      ensures (State(), r) == ScreenshotSpec(net, old(State()))
    {
      var sent := Send(SCREENSHOT);
      if sent.Raise? { return None; }
      var b64 := ScreenshotData(sent.value);
      if b64.Raise? || !Truthy(b64.value) { return None; }
      var bytes := net.b64decode(b64.value);
      r := if bytes.Ok? then Some(bytes.value) else None;
    }

    method WaitForElement(selector: string, timeout: int) returns (r: bool)
      modifies this
      ensures (State(), r) == WaitSpec(net, old(State()), selector, timeout)
    {
      var sent := Send(WaitAction(selector, timeout));
      r := sent.Ok? && Truthy(sent.value);
    }
  }
}
