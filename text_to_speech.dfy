/** Spoken feedback: the sentences the agent says about a command, a workflow or an extraction,
    and the speech engine wrapper with its guards. The pyttsx3 engine is outside the model: what
    it is asked to say is recorded in order. */
module TextToSpeech {
  import opened Strings
  import opened Py

  /* ---------- TTSResponseBuilder ---------- */

  /** `build_command_response`: what to say after one command, from the intent and the record
      `execute_command` returned. */
  function BuildCommandResponse(intent: Value, result: Value): (r: Result<string>)
    ensures !intent.Dict? ==> r.Raise?
    ensures intent.Dict? && !result.Dict? ==> r.Raise?
    ensures intent.Dict? && result.Dict? && !Truthy(FieldOr(result, "success", Bool(false)))
            ==> var kind := FieldOr(intent, "intent", Str("UNKNOWN"));
                (r.Ok? <==> kind.Str?) &&
                (r.Ok? ==> r.value == "Failed to execute " + Lower(kind.s) + ": " + ToStr(FieldOr(result, "error", Str("Unknown error"))))
    ensures intent.Dict? && result.Dict? && Truthy(FieldOr(result, "success", Bool(false)))
            && FieldOr(intent, "intent", Str("UNKNOWN")) == Str("SCREENSHOT")
            ==> r == Ok("Screenshot captured successfully")
  {
    var kind :- Get(intent, "intent", Str("UNKNOWN"));
    var success :- Get(result, "success", Bool(false));
    if Truthy(success) then
      var params := FieldOr(intent, "parameters", EMPTY);
      if kind == Str("NAVIGATE") then
        var url :- Get(params, "target", Str("the page"));
        Ok("Successfully navigated to " + ToStr(url))
      else if kind == Str("SEARCH") then
        var query :- Get(params, "text", Str("your search"));
        Ok("Search completed for " + ToStr(query))
      else if kind == Str("CLICK") then
        var element :- Get(params, "selector", Str("the element"));
        Ok("Clicked on " + ToStr(element))
      else if kind == Str("TYPE") then
        var text :- Get(params, "text", Str("the text"));
        Ok("Typed " + ToStr(text))
      else if kind == Str("EXTRACT") then
        var dataType :- Get(params, "data_type", Str("data"));
        Ok("Extracted " + ToStr(dataType) + " from the page")
      else if kind == Str("SCREENSHOT") then
        Ok("Screenshot captured successfully")
      else
        var lower :- LowerOf(kind);
        Ok("Successfully executed " + lower + " command")
    else
      var error := FieldOr(result, "error", Str("Unknown error"));
      var lower :- LowerOf(kind);
      Ok("Failed to execute " + lower + ": " + ToStr(error))
  }

  /** A successful command of a kind without its own sentence is reported by its lower-cased name. */
  lemma OtherKindsReportName(intent: Value, result: Value, kind: string)
    requires intent.Dict? && result.Dict? && Truthy(FieldOr(result, "success", Bool(false)))
    requires FieldOr(intent, "intent", Str("UNKNOWN")) == Str(kind)
    requires kind !in ["NAVIGATE", "SEARCH", "CLICK", "TYPE", "EXTRACT", "SCREENSHOT"]
    ensures BuildCommandResponse(intent, result) == Ok("Successfully executed " + Lower(kind) + " command")
  {
    var names := ["NAVIGATE", "SEARCH", "CLICK", "TYPE", "EXTRACT", "SCREENSHOT"];
    assert kind != names[0] && kind != names[1] && kind != names[2];
    assert kind != names[3] && kind != names[4] && kind != names[5];
  }

  /** A successful navigation names its target, or "the page" when the intent gives none. */
  lemma NavigateResponse(intent: Value, result: Value)
    requires intent.Dict? && result.Dict? && Truthy(FieldOr(result, "success", Bool(false)))
    requires FieldOr(intent, "intent", Str("UNKNOWN")) == Str("NAVIGATE")
    requires FieldOr(intent, "parameters", EMPTY).Dict?
    ensures BuildCommandResponse(intent, result)
            == Ok("Successfully navigated to " + ToStr(FieldOr(FieldOr(intent, "parameters", EMPTY), "target", Str("the page"))))
  {
  }

  /** The sentences for SEARCH, CLICK, TYPE and EXTRACT: each names the parameter it reads with
      `.get` ("text", "selector", "text", "data_type"), and falls back to its own default phrase
      ("your search", "the element", "the text", "data") only when that parameter is missing. */
  lemma NamedKindResponses(intent: Value, result: Value, kind: string)
    requires intent.Dict? && result.Dict? && Truthy(FieldOr(result, "success", Bool(false)))
    requires FieldOr(intent, "intent", Str("UNKNOWN")) == Str(kind)
    requires FieldOr(intent, "parameters", EMPTY).Dict?
    ensures var p := FieldOr(intent, "parameters", EMPTY);
      && (kind == "SEARCH" ==> BuildCommandResponse(intent, result) == Ok("Search completed for " + ToStr(FieldOr(p, "text", Str("your search")))))
      && (kind == "CLICK" ==> BuildCommandResponse(intent, result) == Ok("Clicked on " + ToStr(FieldOr(p, "selector", Str("the element")))))
      && (kind == "TYPE" ==> BuildCommandResponse(intent, result) == Ok("Typed " + ToStr(FieldOr(p, "text", Str("the text")))))
      && (kind == "EXTRACT" ==> BuildCommandResponse(intent, result) == Ok("Extracted " + ToStr(FieldOr(p, "data_type", Str("data"))) + " from the page"))
  {
  }

  /** The entries whose `success` (default False) is truthy, counted from the left as `sum`
      does; the first entry that is not a dict raises. */
  function SuccessCount(results: seq<Value>): (r: Result<nat>)
    ensures r.Ok? <==> forall i :: 0 <= i < |results| ==> results[i].Dict?
    ensures r.Ok? ==> r.value <= |results|
    ensures r.Raise? ==> exists i :: 0 <= i < |results| && !results[i].Dict?
                                     && (forall j :: 0 <= j < i ==> results[j].Dict?)
                                     && r.error == NoAttribute(results[i], "get")
  {
    if results == [] then Ok(0)
    else
      var success :- Get(results[0], "success", Bool(false));
      var rest :- SuccessCount(results[1..]);
      assert forall i :: 1 <= i < |results| ==> results[i] == results[1..][i - 1];
      Ok((if Truthy(success) then 1 else 0) + rest)
  }

  predicate Succeeded(entry: Value)
    requires entry.Dict?
  {
    Truthy(FieldOr(entry, "success", Bool(false)))
  }

  /** The count is all entries exactly when every entry succeeded, and zero exactly when none did. */
  lemma {:induction false} SuccessCountExtremes(results: seq<Value>)
    requires forall i :: 0 <= i < |results| ==> results[i].Dict?
    ensures SuccessCount(results).Ok?
    ensures SuccessCount(results).value == |results| <==> forall i :: 0 <= i < |results| ==> Succeeded(results[i])
    ensures SuccessCount(results).value == 0 <==> forall i :: 0 <= i < |results| ==> !Succeeded(results[i])
  {
    if results != [] {
      var tail := results[1..];
      SuccessCountExtremes(tail);
      assert forall i :: 1 <= i < |results| ==> results[i] == tail[i - 1];
      if forall i :: 0 <= i < |results| ==> Succeeded(results[i]) {
        assert forall i :: 0 <= i < |tail| ==> Succeeded(tail[i]) by {
          forall i | 0 <= i < |tail| ensures Succeeded(tail[i]) { assert tail[i] == results[i + 1]; }
        }
      }
      if forall i :: 0 <= i < |results| ==> !Succeeded(results[i]) {
        assert forall i :: 0 <= i < |tail| ==> !Succeeded(tail[i]) by {
          forall i | 0 <= i < |tail| ensures !Succeeded(tail[i]) { assert tail[i] == results[i + 1]; }
        }
      }
    }
  }

  /** The openings of the three workflow summaries; the failure summary is a fixed sentence. */
  const COMPLETED := "Workflow completed successfully!"
  const PARTIAL := "Workflow partially completed. "
  const WORKFLOW_FAILED := "Workflow failed. None of the steps were successful."

  /** `build_workflow_response`. */
  function BuildWorkflowResponse(results: seq<Value>): (r: Result<string>)
    ensures r.Ok? <==> SuccessCount(results).Ok?
    ensures r.Ok? ==> var k := SuccessCount(results).value;
      && (k == |results| ==> r.value == COMPLETED + (" All " + IntText(|results|) + " steps executed."))
      && (0 < k < |results| ==> r.value == PARTIAL + (IntText(k) + " out of " + IntText(|results|) + " steps successful."))
      && (k == 0 < |results| ==> r.value == WORKFLOW_FAILED)
  {
    var k :- SuccessCount(results);
    if k == |results| then Ok(COMPLETED + (" All " + IntText(|results|) + " steps executed."))
    else if k > 0 then Ok(PARTIAL + (IntText(k) + " out of " + IntText(|results|) + " steps successful."))
    else Ok(WORKFLOW_FAILED)
  }

  /** Which of the three sentences a workflow gets: completed when every step succeeded (an empty
      workflow included), failed when steps ran and none succeeded, partial otherwise. */
  lemma WorkflowResponseCases(results: seq<Value>)
    requires forall i :: 0 <= i < |results| ==> results[i].Dict?
    ensures BuildWorkflowResponse(results).Ok?
    ensures (forall i :: 0 <= i < |results| ==> Succeeded(results[i]))
            ==> StartsWith(BuildWorkflowResponse(results).value, COMPLETED)
    ensures |results| > 0 && (forall i :: 0 <= i < |results| ==> !Succeeded(results[i]))
            ==> BuildWorkflowResponse(results).value == WORKFLOW_FAILED
    ensures (exists i :: 0 <= i < |results| && Succeeded(results[i])) && (exists i :: 0 <= i < |results| && !Succeeded(results[i]))
            ==> StartsWith(BuildWorkflowResponse(results).value, PARTIAL)
  {
    SuccessCountExtremes(results);
    var k := SuccessCount(results).value;
    if k == |results| {
      StartsWithHead(COMPLETED, " All " + IntText(|results|) + " steps executed.");
    } else if k > 0 {
      StartsWithHead(PARTIAL, IntText(k) + " out of " + IntText(|results|) + " steps successful.");
    }
  }

  /** `build_data_extraction_response`. */
  function BuildDataExtractionResponse(data: Value): (r: Result<string>)
    ensures r.Ok? <==> data.Dict?
    ensures data.Dict? ==> var dataType := ToStr(FieldOr(data, "data_type", Str("data")));
      var items := FieldOr(data, "data", EMPTY);
      && (items.List? ==> r.value == "Extracted " + IntText(|items.items|) + " " + dataType + " items from the page.")
      && (items.Dict? ==> r.value == "Extracted " + dataType + " with fields: " + Join(", ", Keys(items.fields)) + ".")
      && (!items.List? && !items.Dict? ==> r.value == "Extracted " + dataType + " from the page.")
  {
    var dataType :- Get(data, "data_type", Str("data"));
    var items := FieldOr(data, "data", EMPTY);
    if items.List? then Ok("Extracted " + IntText(|items.items|) + " " + ToStr(dataType) + " items from the page.")
    else if items.Dict? then Ok("Extracted " + ToStr(dataType) + " with fields: " + Join(", ", Keys(items.fields)) + ".")
    else Ok("Extracted " + ToStr(dataType) + " from the page.")
  }

  /* ---------- TextToSpeech ---------- */

  datatype Voice = Voice(id: string, name: string)

  /** What starting pyttsx3 gives: it raised, or an engine with its voices; `settingsOk` is false
      when setting the rate or the volume raised. */
  datatype EngineStart = InitFailed(error: string) | Started(voices: seq<Voice>, settingsOk: bool)

  /** The wrapper's fields: whether an engine object is held, whether it is usable, the voice
      chosen (None for the engine's default) and everything it has been asked to say. */
  datatype SpeakerState = SpeakerState(hasEngine: bool, initialized: bool, voice: Option<string>, spoken: seq<string>)

  /** A voice the initialiser prefers: "english" in its name or "en" in its id, ignoring case. */
  predicate English(v: Voice) {
    Contains(Lower(v.name), "english") || Contains(Lower(v.id), "en")
  }

  /** The voice-selection loop of `_initialize_engine`: the id of the first preferred voice. */
  method ChooseVoice(voices: seq<Voice>) returns (r: Option<string>)
    ensures r.None? <==> forall i :: 0 <= i < |voices| ==> !English(voices[i])
    ensures r.Some? ==> exists i :: 0 <= i < |voices| && English(voices[i]) && voices[i].id == r.value
                                    && forall j :: 0 <= j < i ==> !English(voices[j])
  {
    var i := 0;
    while i < |voices|
      invariant 0 <= i <= |voices|
      invariant forall j :: 0 <= j < i ==> !English(voices[j])
    {
      if Contains(Lower(voices[i].name), "english") || Contains(Lower(voices[i].id), "en") {
        return Some(voices[i].id);
      }
      i := i + 1;
    }
    return None;
  }

  /** The voice `_initialize_engine` picks, as a function of the voices. */
  function PreferredVoice(voices: seq<Voice>): (r: Option<string>)
    ensures r.None? <==> forall i :: 0 <= i < |voices| ==> !English(voices[i])
  {
    if voices == [] then None
    else if English(voices[0]) then Some(voices[0].id)
    else
      var rest := PreferredVoice(voices[1..]);
      assert forall i :: 1 <= i < |voices| ==> voices[i] == voices[1..][i - 1];
      rest
  }

  /** The state right after construction. */
  function InitSpec(start: EngineStart): SpeakerState {
    match start
    case InitFailed(_) => SpeakerState(false, false, None, [])
    case Started(voices, settingsOk) => SpeakerState(true, settingsOk, PreferredVoice(voices), [])
  }

  /** `speak`: nothing is said, and False returned, without a usable engine or with blank text. */
  function SpeakSpec(s: SpeakerState, text: string): (r: (SpeakerState, bool))
    ensures r.1 <==> s.initialized && !IsBlank(text)
    ensures r.1 ==> r.0 == s.(spoken := s.spoken + [text])
    ensures !r.1 ==> r.0 == s
  {
    if !s.initialized || IsBlank(text) then (s, false)
    else (s.(spoken := s.spoken + [text]), true)
  }

  /** The sentence `speak_command_result` says. */
  function CommandResultText(command: string, success: bool, details: string): (r: string)
    ensures StartsWith(r, if success then "Successfully executed " else "Failed to execute ")
    ensures details == "" ==> r == (if success then "Successfully executed " else "Failed to execute ") + command
    ensures details != "" ==> r == (if success then "Successfully executed " else "Failed to execute ") + command + ". " + details
  {
    var head := (if success then "Successfully executed " else "Failed to execute ") + command;
    assert StartsWith(head + (if details != "" then ". " + details else ""), if success then "Successfully executed " else "Failed to execute ") by {
      var p := if success then "Successfully executed " else "Failed to execute ";
      assert (head + (if details != "" then ". " + details else ""))[..|p|] == p;
    }
    head + (if details != "" then ". " + details else "")
  }

  const WELCOME := "Voice-enabled browser agent is ready. How can I help you today?"

  /** `set_voice`: refused without a usable engine, and False when the engine's `setProperty`
      raises (`setRaises`); only an accepted voice is recorded. */
  function SetVoiceSpec(s: SpeakerState, voiceId: string, setRaises: bool): (r: (SpeakerState, bool))
    ensures r.1 <==> s.initialized && !setRaises
    ensures r.1 ==> r.0 == s.(voice := Some(voiceId))
    ensures !r.1 ==> r.0 == s
  {
    if !s.initialized || setRaises then (s, false) else (s.(voice := Some(voiceId)), true)
  }

  /** `cleanup`: drop the engine, unless stopping it raised. */
  function CleanupSpec(s: SpeakerState, stopRaises: bool): (r: SpeakerState)
    ensures s.hasEngine && !stopRaises ==> !r.hasEngine && !r.initialized
    ensures r.spoken == s.spoken && r.voice == s.voice
  {
    if s.hasEngine && !stopRaises then s.(hasEngine := false, initialized := false) else s
  }

  /** An engine is usable only while it is held. */
  predicate Coherent(s: SpeakerState) {
    s.initialized ==> s.hasEngine
  }

  /** Once cleaned up, the wrapper says nothing more and refuses a voice change. */
  lemma CleanupSilences(s: SpeakerState, text: string, voiceId: string, setRaises: bool)
    requires Coherent(s)
    ensures var c := CleanupSpec(s, false);
      SpeakSpec(c, text) == (c, false) && SetVoiceSpec(c, voiceId, setRaises) == (c, false)
  {
  }

  class Speaker {
    var hasEngine: bool
    var isInitialized: bool
    var voice: Option<string>
    var spoken: seq<string>

    function State(): SpeakerState
      reads this
    {
      SpeakerState(hasEngine, isInitialized, voice, spoken)
    }

    predicate Valid()
      reads this
    {
      Coherent(State())
    }

    constructor (start: EngineStart)
      ensures State() == InitSpec(start) && Valid()
    {
      hasEngine := false;
      isInitialized := false;
      voice := None;
      spoken := [];
      if start.Started? {
        hasEngine := true;
        var chosen := ChooseVoice(start.voices);
        ChosenIsPreferred(start.voices, chosen);
        voice := chosen;
        isInitialized := start.settingsOk;
      }
    }

    method Speak(text: string) returns (r: bool)
      requires Valid()
      modifies this
      ensures Valid()
      ensures (State(), r) == SpeakSpec(old(State()), text)
    {
      if !isInitialized {
        return false;
      }
      if IsBlank(text) {
        return false;
      }
      spoken := spoken + [text];
      r := true;
    }

    method SpeakCommandResult(command: string, success: bool, details: string)
      requires Valid()
      modifies this
      ensures Valid()
      ensures State() == SpeakSpec(old(State()), CommandResultText(command, success, details)).0
    {
      var response: string;
      if success {
        response := "Successfully executed " + command;
      } else {
        response := "Failed to execute " + command;
      }
      if details != "" {
        response := response + ". " + details;
      }
      var _ := Speak(response);
    }

    method SpeakError(message: string)
      requires Valid()
      modifies this
      ensures Valid()
      ensures State() == SpeakSpec(old(State()), "Error: " + message).0
    {
      var _ := Speak("Error: " + message);
    }

    method SpeakWelcome()
      requires Valid()
      modifies this
      ensures Valid()
      ensures State() == SpeakSpec(old(State()), WELCOME).0
    {
      var _ := Speak(WELCOME);
    }

    method SetVoice(voiceId: string, setRaises: bool) returns (r: bool)
      requires Valid()
      modifies this
      ensures Valid()
      ensures (State(), r) == SetVoiceSpec(old(State()), voiceId, setRaises)
    {
      if !isInitialized {
        return false;
      }
      if setRaises {
        return false;
      }
      voice := Some(voiceId);
      r := true;
    }

    method Cleanup(stopRaises: bool)
      requires Valid()
      modifies this
      ensures Valid()
      ensures State() == CleanupSpec(old(State()), stopRaises)
    {
      if hasEngine && !stopRaises {
        hasEngine := false;
        isInitialized := false;
      }
    }
  }

  /** The loop and the function agree on the voice picked. */
  lemma ChosenIsPreferred(voices: seq<Voice>, chosen: Option<string>)
    requires chosen.None? <==> forall i :: 0 <= i < |voices| ==> !English(voices[i])
    requires chosen.Some? ==> exists i :: 0 <= i < |voices| && English(voices[i]) && voices[i].id == chosen.value
                                         && forall j :: 0 <= j < i ==> !English(voices[j])
    ensures chosen == PreferredVoice(voices)
  {
    if chosen.Some? {
      var i :| 0 <= i < |voices| && English(voices[i]) && voices[i].id == chosen.value
               && forall j :: 0 <= j < i ==> !English(voices[j]);
      FirstPreferred(voices, i);
    }
  }

  lemma {:induction false} FirstPreferred(voices: seq<Voice>, i: nat)
    requires i < |voices| && English(voices[i]) && forall j :: 0 <= j < i ==> !English(voices[j])
    ensures PreferredVoice(voices) == Some(voices[i].id)
  {
    if i > 0 {
      assert forall j :: 0 <= j < i - 1 ==> voices[1..][j] == voices[j + 1];
      FirstPreferred(voices[1..], i - 1);
    }
  }
}
