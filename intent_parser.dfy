/** Post-processing of the language model's answer into intent records: JSON extraction with a
    bracket-slice fallback, the ERROR record every failure turns into, the required-field check,
    and the one-line summary of an intent. The model call itself is an oracle: its answer is a
    parameter, and so is `json.loads`. */
module IntentParser {
  import opened Strings
  import opened Py

  /** What a chat completion gives back: the call raised, the message had no content (None),
      or the message text. */
  datatype Completion = CallFailed(error: string) | NoContent | Content(text: string)

  const PARSE_FAILED := "Failed to parse intent: "
  const MULTI_FAILED := "Failed to parse multi-step intent: "
  const NO_JSON := "No valid JSON found in response"

  /** The record returned in place of an intent when parsing fails. */
  function ErrorRecord(context: string): (r: Value)
    ensures r.Dict?
    ensures Field(r, "intent") == Str("ERROR") && Field(r, "confidence") == ZERO
    ensures Field(r, "parameters") == EMPTY && Field(r, "context") == Str(context)
    ensures Field(r, "follow_up") == List([]) && !HasKey(r.fields, "type")
  {
    var fields := [("intent", Str("ERROR")), ("confidence", ZERO), ("parameters", EMPTY),
                   ("context", Str(context)), ("follow_up", List([]))];
    assert forall i :: 0 <= i < |fields| ==> fields[i].0 != "type";
    HasKeyIff(fields, "type");
    LookupAt(fields, 0);
    LookupAt(fields, 1);
    LookupAt(fields, 2);
    LookupAt(fields, 3);
    LookupAt(fields, 4);
    Dict(fields)
  }

  /** `v` is an ERROR record whose context starts with `prefix`. */
  predicate IsErrorRecord(v: Value, prefix: string) {
    && v.Dict?
    && Field(v, "intent") == Str("ERROR") && Field(v, "confidence") == ZERO
    && Field(v, "parameters") == EMPTY && Field(v, "follow_up") == List([])
    && Field(v, "context").Str? && StartsWith(Field(v, "context").s, prefix)
  }

  /** `text[text.find(open):text.rfind(close) + 1]`, when the last `close` comes after the first `open`. */
  function Bracketed(text: string, open: char, close: char): (r: Option<string>)
    requires open != close
    ensures r.None? <==> open !in text || close !in text || RFind(text, close) < Find(text, open)
    ensures r.Some? ==> var start := Find(text, open);
      && |r.value| >= 2 && r.value[0] == open && r.value[|r.value| - 1] == close
      && OccursAt(text, r.value, start)
      && open !in text[..start]
      && close !in text[start + |r.value|..]
  {
    var start := Find(text, open);
    var end := RFind(text, close) + 1;
    if start != -1 && end > start then Some(text[start..end]) else None
  }

  /** The body of `parse_intent`'s `try`: decode the stripped text, and if that fails decode the
      `{`…`}` slice instead. */
  function ParseAttempt(reply: Completion, loads: string -> Result<Value>): (r: Result<Value>)
    ensures r.Ok? ==> reply.Content?
    ensures reply.Content? && loads(Strip(reply.text)).Ok? ==> r == loads(Strip(reply.text))
    ensures reply.Content? && loads(Strip(reply.text)).Raise? && Bracketed(Strip(reply.text), '{', '}').None?
            ==> r == Raise(NO_JSON)
    ensures reply.Content? && loads(Strip(reply.text)).Raise? && Bracketed(Strip(reply.text), '{', '}').Some?
            ==> r == loads(Bracketed(Strip(reply.text), '{', '}').value)
  {
    match reply
    case CallFailed(e) => Raise(e)
    case NoContent => Raise(NoAttribute(Null, "strip"))
    case Content(text) =>
      var content := Strip(text);
      match loads(content)
      case Ok(v) => Ok(v)
      case Raise(_) =>
        match Bracketed(content, '{', '}')
        case None => Raise(NO_JSON)
        case Some(candidate) => loads(candidate)
  }

  /** `parse_intent`: the decoded intent, or the ERROR record naming what went wrong. */
  function ParseIntent(reply: Completion, loads: string -> Result<Value>): (r: Value)
    ensures ParseAttempt(reply, loads).Ok? ==> r == ParseAttempt(reply, loads).value
    ensures ParseAttempt(reply, loads).Raise? ==>
      r == ErrorRecord(PARSE_FAILED + ParseAttempt(reply, loads).error) && IsErrorRecord(r, PARSE_FAILED)
  {
    match ParseAttempt(reply, loads)
    case Ok(v) => v
    case Raise(e) => ErrorRecord(PARSE_FAILED + e)
  }

  /** The body of `parse_multi_step_intent`'s `try`: decode the `[`…`]` slice, or fall back to
      one intent from a second, single-step call. */
  function MultiAttempt(reply: Completion, single: Completion, loads: string -> Result<Value>): (r: Result<Value>)
    ensures reply.Content? && Bracketed(Strip(reply.text), '[', ']').None?
            ==> r == Ok(List([ParseIntent(single, loads)]))
    ensures reply.Content? && Bracketed(Strip(reply.text), '[', ']').Some? && r.Ok?
            ==> loads(Bracketed(Strip(reply.text), '[', ']').value) == r
  {
    match reply
    case CallFailed(e) => Raise(e)
    case NoContent => Raise(NoAttribute(Null, "strip"))
    case Content(text) =>
      match Bracketed(Strip(text), '[', ']')
      case None => Ok(List([ParseIntent(single, loads)]))
      case Some(candidate) =>
        var intents :- loads(candidate);
        if Len(intents).Raise? then Raise(Len(intents).error) else Ok(intents)
  }

  /** `parse_multi_step_intent`: the decoded steps, or a one-element list holding an ERROR record. */
  function ParseMultiStepIntent(reply: Completion, single: Completion, loads: string -> Result<Value>): (r: Value)
    ensures MultiAttempt(reply, single, loads).Ok? ==> r == MultiAttempt(reply, single, loads).value
    ensures MultiAttempt(reply, single, loads).Raise? ==>
      r.List? && |r.items| == 1 && IsErrorRecord(r.items[0], MULTI_FAILED)
  {
    match MultiAttempt(reply, single, loads)
    case Ok(v) => v
    case Raise(e) => List([ErrorRecord(MULTI_FAILED + e)])
  }

  /** A reply holding no JSON at all becomes the ERROR record saying so. */
  lemma NoJsonIsError(text: string, loads: string -> Result<Value>)
    requires loads(Strip(text)).Raise? && '{' !in Strip(text)
    ensures ParseIntent(Content(text), loads) == ErrorRecord(PARSE_FAILED + NO_JSON)
  {
    assert Bracketed(Strip(text), '{', '}').None?;
    assert ParseAttempt(Content(text), loads) == Raise(NO_JSON);
  }

  /** `validate_intent`: `intent`, `confidence` and `parameters` are all present. The test is `in`,
      so a list or a string is searched instead, and anything else raises on the first key. */
  function ValidateIntent(intent: Value): (r: Result<bool>)
    ensures intent.Dict? ==> r == Ok(HasKey(intent.fields, "intent") && HasKey(intent.fields, "confidence")
                                      && HasKey(intent.fields, "parameters"))
    ensures r.Raise? <==> !(intent.Dict? || intent.List? || intent.Str?)
  {
    match In("intent", intent)
    case Raise(e) => Raise(e)
    case Ok(hasIntent) => Ok(hasIntent && In("confidence", intent).value && In("parameters", intent).value)
  }

  /** The ERROR record passes validation, whatever its context says. */
  lemma ErrorRecordValidates(context: string)
    ensures ValidateIntent(ErrorRecord(context)) == Ok(true)
  {
    var r := ErrorRecord(context);
    assert Lookup(r.fields, "intent").Some?;
    assert Lookup(r.fields, "confidence").Some?;
    assert Lookup(r.fields, "parameters").Some?;
  }

  /** Whatever the model answers, `parse_intent` yields either a decoded value or a valid ERROR record. */
  lemma ParseIntentOutcome(reply: Completion, loads: string -> Result<Value>)
    ensures var r := ParseIntent(reply, loads);
      (exists text :: loads(text) == Ok(r)) || (IsErrorRecord(r, PARSE_FAILED) && ValidateIntent(r) == Ok(true))
  {
    var a := ParseAttempt(reply, loads);
    if a.Raise? {
      ErrorRecordValidates(PARSE_FAILED + a.error);
    } else {
      var content := Strip(reply.text);
      if loads(content).Ok? {
        assert loads(content) == Ok(ParseIntent(reply, loads));
      } else {
        var candidate := Bracketed(content, '{', '}').value;
        assert loads(candidate) == Ok(ParseIntent(reply, loads));
      }
    }
  }

  /* ---------- get_intent_summary ---------- */

  const SUMMARY_KEYS: seq<string> := ["target", "text", "selector", "data_type"]

  /** A parameter the summary lists: one of the four keys, with a truthy value. */
  predicate Listed(entry: (string, Value)) {
    Truthy(entry.1) && entry.0 in SUMMARY_KEYS
  }

  /** The listed parameters, in parameter order. */
  function ListedEntries(fields: seq<(string, Value)>): (r: seq<(string, Value)>)
    ensures |r| <= |fields|
  {
    if fields == [] then []
    else
      var last := fields[|fields| - 1];
      ListedEntries(fields[..|fields| - 1]) + (if Listed(last) then [last] else [])
  }

  /** A parameter is kept exactly when it is listed. */
  lemma {:induction false} ListedEntriesMembers(fields: seq<(string, Value)>, entry: (string, Value))
    ensures entry in ListedEntries(fields) <==> entry in fields && Listed(entry)
  {
    if fields != [] {
      var init := fields[..|fields| - 1];
      ListedEntriesMembers(init, entry);
      assert fields == init + [fields[|fields| - 1]];
    }
  }

  /** Parameters that are none of the four keys never change the summary. */
  lemma {:induction false} UnlistedParamsIgnored(fields: seq<(string, Value)>)
    requires forall i :: 0 <= i < |fields| ==> fields[i].0 !in SUMMARY_KEYS
    ensures ListedEntries(fields) == []
  {
    if fields != [] {
      UnlistedParamsIgnored(fields[..|fields| - 1]);
    }
  }

  /** `f"{key}: {value}"`. */
  function ItemText(entry: (string, Value)): string {
    entry.0 + ": " + ToStr(entry.1)
  }

  /** The `key: value` items of the summary, one per listed parameter. */
  function KeyParams(fields: seq<(string, Value)>): (r: seq<string>)
    ensures |r| == |ListedEntries(fields)|
  {
    var entries := ListedEntries(fields);
    seq(|entries|, j requires 0 <= j < |entries| => ItemText(entries[j]))
  }

  function SummaryHead(intent: Value, confidence: string): string {
    "Intent: " + ToStr(intent) + " (confidence: " + confidence + ")"
  }

  /** The loop of `get_intent_summary` over the parameters, keeping the truthy ones under the four keys. */
  method CollectKeyParams(fields: seq<(string, Value)>) returns (keyParams: seq<string>)
    ensures keyParams == KeyParams(fields)
  {
    keyParams := [];
    ghost var listed: seq<(string, Value)> := [];
    var i := 0;
    while i < |fields|
      invariant 0 <= i <= |fields|
      invariant listed == ListedEntries(fields[..i])
      invariant |keyParams| == |listed| && forall j :: 0 <= j < |listed| ==> keyParams[j] == ItemText(listed[j])
    {
      var entry := fields[i];
      assert fields[..i + 1][..i] == fields[..i];
      if Truthy(entry.1) && entry.0 in SUMMARY_KEYS {
        keyParams := keyParams + [ItemText(entry)];
        listed := listed + [entry];
      }
      i := i + 1;
    }
    assert fields[..i] == fields;
  }

  /** `get_intent_summary`. `fixed2` is the `:.2f` format of the confidence, which raises for a
      value that is not a number. */
  method GetIntentSummary(intentData: Value, fixed2: Value -> Result<string>) returns (r: Result<string>)
    ensures !intentData.Dict? ==> r == Raise(NoAttribute(intentData, "get"))
    ensures intentData.Dict? ==>
      var params := FieldOr(intentData, "parameters", EMPTY);
      var conf := fixed2(FieldOr(intentData, "confidence", ZERO));
      && (r.Ok? <==> conf.Ok? && (Truthy(params) ==> params.Dict?))
      && (r.Ok? ==> r.value == SummaryHead(FieldOr(intentData, "intent", Str("UNKNOWN")), conf.value)
                               + (if Truthy(params) && KeyParams(params.fields) != []
                                  then " - " + Join(", ", KeyParams(params.fields)) else ""))
  {
    if !intentData.Dict? {
      return Raise(NoAttribute(intentData, "get"));
    }
    var intent := FieldOr(intentData, "intent", Str("UNKNOWN"));
    var confidence := FieldOr(intentData, "confidence", ZERO);
    var parameters := FieldOr(intentData, "parameters", EMPTY);
    var conf := fixed2(confidence);
    if conf.Raise? {
      return Raise(conf.error);
    }
    var summary := SummaryHead(intent, conf.value);
    if Truthy(parameters) {
      if !parameters.Dict? {
        return Raise(NoAttribute(parameters, "items"));
      }
      var keyParams := CollectKeyParams(parameters.fields);
      if keyParams != [] {
        summary := summary + " - " + Join(", ", keyParams);
      }
    }
    r := Ok(summary);
  }
}
