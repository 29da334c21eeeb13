# Voice browser agent, modelled in Dafny

This project models a voice-driven browser agent written in Python. A spoken transcript goes
to an intent parser, which asks a language model for a JSON intent (or a JSON array of intents
when the command reads like a multi-step workflow). The agent validates the intent. It then drives a
remote Stagehand/Browserbase browser over HTTP and a WebSocket. It records each conversation
turn, the browser state, extracted data and workflow progress in a Redis session cache, and
stores long-term memories in a Mem0 memory layer. Finally it speaks a reply through a
text-to-speech engine.

The model has one module per core file:

- `BrowserAutomation` (`browser_automation.dfy`): the browser client.
  - The intent-to-action translation `_intent_to_stagehand` is a set of pure functions.
  - The client object is the class `Browser`. Its fields are the session id, the WebSocket, the HTTP
    session and the log of remote calls. Its methods are proved equal to specification functions
    over a `BrowserState` snapshot.
  - The remote end (session creation, WebSocket replies, base64 decoding, JSON parsing) is an
    oracle `Remote`. It is a record of functions indexed by the number of remote calls made so far.
- `IntentParser` (`intent_parser.dfy`): the parsing of language-model replies, validation and
  summaries.
  - The model reply is a parameter (`Completion`): either text or a raised error.
  - `json.loads` is a parameter `loads`.
- `TextToSpeech` (`text_to_speech.dfy`): the spoken-response builders (`TTSResponseBuilder`), the
  English-voice choice, and the speaker class `Speaker`.
  - The speaker records what it said and the chosen voice.
  - The pyttsx3 engine start-up is a parameter, and so is whether its `setProperty` raises when a
    voice is set.
- `RedisCache` (`redis_cache.dfy`): the session cache as the class `Cache` over a map from key to
  either a stored record or a list of ids.
- `MemoryLayer` (`memory_layer.dfy`): the Mem0 wrapper, as the class `MemoryLayer`. Mem0's `add` and
  `search` are an oracle `Mem0`. The state records every memory added and every id deleted.
- `VoiceBrowserAgent` (`voice_browser_agent.dfy`): the orchestrating agent, as the class `Agent`.
  - The class owns the four components.
  - Each turn (`process_voice_input`) is specified by `ProcessSpec` over an `AgentState` snapshot.
    The snapshot is built from the components' snapshots.
  - The lemmas beside it prove what a turn does. It is counted and recorded. Rejected intents run
    nothing. A workflow record goes from `running` to `completed`. A workflow memory counts the
    successful steps. Screenshots are taken only after a success.
- `Py` and `Strings` (`py.dfy`, `strings.dfy`) are shared helpers. They hold Python values
  (`None`, bools, ints, floats, strings, lists, insertion-ordered dicts), `dict.get`, `in`, `len`,
  `str()`, `repr()`, and the string operations the source uses (`strip`, `lower`, `find`,
  `rfind`, `in`, `join`, integer formatting).

Python exceptions are values: `Result<T>` is `Ok(value)` or `Raise(message)`. A `try`/`except`
in the source becomes a match on that result, so the error paths are modelled and not excluded by
preconditions. Clock readings are parameters: `Clock(stamp, iso)` for the cache, and a `now`
string for the memory layer.

Two behaviours of the source, as written, are worth knowing. Both are modelled as they are:

- `get_memory_stats` and `clear_session_memories` search with the empty query, and
  `search_memories` answers `[]` to a blank query. So the statistics are always zero and
  clearing deletes nothing (`MemoryLayer.MemoryLayer.GetMemoryStats`,
  `MemoryLayer.MemoryLayer.ClearSessionMemories`).
- When `start_session` creates a session but cannot open the WebSocket, the session id stays set.
  Every later `_send` then raises `WebSocket not connected` instead of creating a new session
  (`BrowserAutomation.FailedConnectStrandsSession`).

## Model

| member | source | states |
|---|---|---|
| BrowserAutomation.Translate | browser_automation.py:148-171 | a known intent kind yields an action whose `type` is that kind's Stagehand action; an unknown kind passes `parameters.action` through or falls back to the no-op; parameters that are not a dict raise as `.get` would |
| BrowserAutomation.TranslateKnown | browser_automation.py:151-169 | each known kind (NAVIGATE … WAIT) gives, when it succeeds, a dict action whose `type` is that kind's Stagehand action; it raises exactly when SCROLL's direction is not a string or WAIT's `timeout` does not convert with `int()` |
| BrowserAutomation.IntentToStagehand | browser_automation.py:138-172 | a dict that already has a `type` is returned unchanged; a value with no `.get` raises; a string intent name is upper-cased before it picks the translation, an empty one is translated as the unknown kind, and a truthy non-string one raises on `.upper()` |
| BrowserAutomation.TranslatedActionIsFixedPoint | browser_automation.py:145-146 | translating an already translated action changes nothing (it carries `type`) |
| BrowserAutomation.MissingKeyDefaults | browser_automation.py:151-169 | missing parameters take the source's defaults: `about:blank`, empty selector, `Enter`, 1000 ms, empty text |
| BrowserAutomation.PresentParameters | browser_automation.py:151-169 | present parameters reach the action under its own names (`target` as `url`, `selector`, `text`, `key`); WAIT sleeps `int(timeout)` × 1000 ms and raises exactly when `int()` does |
| BrowserAutomation.EmptySelectorDefaults | browser_automation.py:152-158 | an empty selector falls back to `body` for EXTRACT and to `input[name='q']` for SEARCH, but stays empty for CLICK and TYPE |
| BrowserAutomation.ScrollDirection | browser_automation.py:160-163 | SCROLL succeeds exactly when the direction is a string; it scrolls 800 px down for `down` (any case) or no direction and 800 px up otherwise |
| BrowserAutomation.EmptyIntentIsNoop | browser_automation.py:148-171 | an intent with no kind and no parameters becomes the `noop` action |
| BrowserAutomation.Payload | browser_automation.py:80-82 | the session-creation payload names the project exactly when a project id is configured |
| BrowserAutomation.CreatedId | browser_automation.py:84-90 | a session id is only taken from a 200 or 201 reply; any other status raises `Failed to create session: <status> <body>` |
| BrowserAutomation.ConnectRun | browser_automation.py:95-103 | the WebSocket connect loop keeps the session and project, appends to the call log only, and leaves a socket open exactly on success |
| BrowserAutomation.ConnectSchedule | browser_automation.py:95-103 | the connect attempts are one, two or three, separated by pauses of 1.5 s and then 3 s |
| BrowserAutomation.StartSpec | browser_automation.py:75-105 | an existing session is reused unless `force_new`; on success the returned id is the session id and a socket is open; the call log only grows |
| BrowserAutomation.EndSpec | browser_automation.py:107-122 | ending clears the session id or changes nothing; without a session it is a no-op |
| BrowserAutomation.EndIdempotent | browser_automation.py:107-122 | ending a session twice is the same as ending it once |
| BrowserAutomation.EndThenSendCreates | browser_automation.py:107-127 | after `end_session`, the next `_send` first creates a new session with the project payload |
| BrowserAutomation.ShutdownSpec | browser_automation.py:43-59 | shutdown always drops the socket and the HTTP session; it reports success exactly when there was no socket or closing it did not raise, and only then clears the session id |
| BrowserAutomation.SendSpec | browser_automation.py:125-136 | sending keeps the project and only appends to the call log; with a session but no socket it raises `WebSocket not connected` and changes nothing |
| BrowserAutomation.FailedConnectStrandsSession | browser_automation.py:75-136 | when a session is created but the socket never opens, the id stays set and every later send raises without reconnecting |
| BrowserAutomation.CommandRecord | browser_automation.py:176-181 | the command result holds `success`, the action, and the response on success or the error text on failure |
| BrowserAutomation.CommandSpec | browser_automation.py:174-181 | `execute_command` raises exactly when translation raises, and then changes nothing; otherwise its result records what sending the translated action did |
| BrowserAutomation.StepRecordIsStep | browser_automation.py:185-188 | a workflow step record carries its 1-based step number and its intent |
| BrowserAutomation.WorkflowFrom | browser_automation.py:183-192 | running the remaining steps keeps the project, and raises exactly when one of the remaining intents aborts (is not a dict or cannot be translated) |
| BrowserAutomation.WorkflowStep | browser_automation.py:183-192 | one step on a dict intent keeps the project, and raises exactly when its own intent or a later one aborts |
| BrowserAutomation.WorkflowFromSteps | browser_automation.py:183-192 | a finished run from a valid prefix has one record per intent, the i-th numbered i+1 with the i-th intent |
| BrowserAutomation.StepsExtend | browser_automation.py:185-188 | appending the next numbered record keeps the prefix valid |
| BrowserAutomation.WorkflowSteps | browser_automation.py:183-192 | `execute_workflow` returns one numbered record per intent, in order |
| BrowserAutomation.AbortsFromIffSome | browser_automation.py:185-187 | the remaining steps abort exactly when one of them cannot be translated |
| BrowserAutomation.WorkflowRaises | browser_automation.py:183-192 | `execute_workflow` raises exactly when some intent cannot be translated; a failed send does not abort it |
| BrowserAutomation.Pick | browser_automation.py:202-203 | an evaluation reply must be a dict; its `result` wins, then `data`, then the fallback |
| BrowserAutomation.EvalSpec | browser_automation.py:202-203 | one `eval` is sent; its failure is passed on, otherwise the value is the reply's `result`, else `data`, else the fallback, and a reply that is not a dict raises |
| BrowserAutomation.PageContentSpec | browser_automation.py:194-220 | page content is `None` or a dict with exactly `url`, `title`, `text`, `html` in that order, whose `title` is the value of the first request |
| BrowserAutomation.PageAfterTitle | browser_automation.py:205-207 | once the title is read, a returned page keeps that title and has as `url` the value of the `location.href` request |
| BrowserAutomation.PageAfterUrl | browser_automation.py:209-211 | once title and url are read, a returned page keeps them and has as `text` the value of the body-text request |
| BrowserAutomation.PageAfterText | browser_automation.py:213-218 | the last request decides: `None` exactly when it fails, otherwise the page with its value as `html` and the three values read before |
| BrowserAutomation.PageRecord | browser_automation.py:217 | the returned page dict has exactly the keys `url`, `title`, `text`, `html`, in that order, each holding the value read for it |
| BrowserAutomation.ListingSpec | browser_automation.py:258-287 | a link, image or form listing is the value of its one `eval` (default `[]`) together with `count`, its `len()`; `None` exactly when the request fails or the value has no length |
| BrowserAutomation.ExtractSpec | browser_automation.py:253-297 | extraction gives `None` or a dict; for links, images and forms the dict is the listing and a `count` equal to its length; for any other type it has `text`, `title`, `url` in that order, with `text` the value of the first request |
| BrowserAutomation.ScreenshotData | browser_automation.py:228-235 | the image text is a truthy `response.data`, otherwise the first truthy of `data`, `screenshot`, `png` (a missing `response` or a falsy `response.data` falls through); it raises exactly when the reply is not a dict or has a `response` that is not a dict |
| BrowserAutomation.ScreenshotSpec | browser_automation.py:222-241 | the state is that after sending the screenshot action; a failed send gives `None`; otherwise bytes come back exactly when the reply's image text is truthy and decodes, and they are what it decodes to |
| BrowserAutomation.WaitSpec | browser_automation.py:243-251 | the state is that after sending the `waitFor` action (timeout in ms), and True needs that send to succeed |
| BrowserAutomation.WaitOnConnected | browser_automation.py:243-251 | on a connected session one `waitFor` is logged; the answer is False when the exchange fails, the truth of the decoded reply otherwise, and True for a reply that is not JSON |
| BrowserAutomation.ScreenshotFromResponseData | browser_automation.py:222-241 | on a connected session a reply with a truthy `response.data` gives the bytes it decodes to, after one logged screenshot request |
| BrowserAutomation.StrandedReadsFail | browser_automation.py:194-251 | with a session id but no websocket, waiting, screenshots and page content make no request, change nothing and give False, `None` and `None` |
| BrowserAutomation.Browser.constructor | browser_automation.py:20-34 | a new client has no HTTP session, session id, socket or logged calls |
| BrowserAutomation.Browser.StartSession | browser_automation.py:75-105 | the new state and result are those of `StartSpec` |
| BrowserAutomation.Browser.ConnectWithRetries | browser_automation.py:95-103 | the loop's new state and result are those of `ConnectRun` |
| BrowserAutomation.Browser.EndSession | browser_automation.py:107-122 | the new state is that of `EndSpec` |
| BrowserAutomation.Browser.Shutdown | browser_automation.py:43-59 | the new state and result are those of `ShutdownSpec` |
| BrowserAutomation.Browser.Send | browser_automation.py:125-136 | the new state and result are those of `SendSpec` |
| BrowserAutomation.Browser.ExecuteCommand | browser_automation.py:174-181 | the new state and result are those of `CommandSpec` |
| BrowserAutomation.Browser.ExecuteWorkflow | browser_automation.py:183-192 | the loop's state and results are those of `WorkflowSpec`, so `WorkflowSteps` and `WorkflowRaises` hold of it |
| BrowserAutomation.Browser.Eval | browser_automation.py:202-203 | the new state and result are those of `EvalSpec` |
| BrowserAutomation.Browser.GetPageContent | browser_automation.py:194-220 | the new state and result are those of `PageContentSpec` |
| BrowserAutomation.Browser.ExtractData | browser_automation.py:253-297 | the new state and result are those of `ExtractSpec` |
| BrowserAutomation.Browser.TakeScreenshot | browser_automation.py:222-241 | the new state and result are those of `ScreenshotSpec` |
| BrowserAutomation.Browser.WaitForElement | browser_automation.py:243-251 | the new state and result are those of `WaitSpec` |
| IntentParser.ErrorRecord | intent_parser.py:117-125 | the error intent has kind `ERROR`, confidence 0.0, no parameters, the failure as context and no follow-up |
| IntentParser.Bracketed | intent_parser.py:106-110 | the slice from the first opening to the last closing bracket exists exactly when both occur in that order; it starts and ends with them and sits at the first opening bracket |
| IntentParser.ParseAttempt | intent_parser.py:98-115 | the stripped reply is parsed whole if it parses; otherwise its braced slice is parsed, or `No valid JSON found in response` is raised |
| IntentParser.ParseIntent | intent_parser.py:69-125 | `parse_intent` returns the parsed value, or an ERROR record whose context is `Failed to parse intent: ` and the error |
| IntentParser.MultiAttempt | intent_parser.py:167-180 | with no bracketed array the single-intent parse is wrapped in a list; otherwise the result is the parsed array slice |
| IntentParser.ParseMultiStepIntent | intent_parser.py:127-190 | `parse_multi_step_intent` returns the parsed steps, or a one-element list holding the multi-step ERROR record |
| IntentParser.NoJsonIsError | intent_parser.py:105-125 | an unparseable reply without `{` yields the ERROR record for `No valid JSON found in response` |
| IntentParser.ValidateIntent | intent_parser.py:192-195 | a dict is valid exactly when it has `intent`, `confidence` and `parameters`; only a value without `in` raises |
| IntentParser.ErrorRecordValidates | intent_parser.py:117-125 | the ERROR record passes validation |
| IntentParser.ParseIntentOutcome | intent_parser.py:69-125 | every parse result is either something `json.loads` produced or a valid ERROR record |
| IntentParser.ListedEntries | intent_parser.py:205-209 | the summary keeps at most the parameters it was given |
| IntentParser.ListedEntriesMembers | intent_parser.py:207-209 | a parameter appears in the summary exactly when it is truthy and its key is `target`, `text`, `selector` or `data_type` |
| IntentParser.UnlistedParamsIgnored | intent_parser.py:207-209 | parameters with none of those keys add nothing |
| IntentParser.KeyParams | intent_parser.py:206-209 | one `key: value` text per listed parameter |
| IntentParser.CollectKeyParams | intent_parser.py:206-209 | the loop collects exactly `KeyParams`: one `key: value` text per truthy parameter under one of the four keys, in order |
| IntentParser.GetIntentSummary | intent_parser.py:197-212 | the summary is `Intent: <kind> (confidence: <c>)` followed by ` - ` and the listed parameters when there are any; it raises when the intent or its parameters have no `.get` or the confidence cannot be formatted |
| TextToSpeech.BuildCommandResponse | text_to_speech.py:239-266 | a failed result is spoken as `Failed to execute <kind>: <error>`; a successful screenshot as `Screenshot captured successfully`; arguments that are not dicts raise |
| TextToSpeech.OtherKindsReportName | text_to_speech.py:262-263 | other successful kinds are spoken as `Successfully executed <kind> command` |
| TextToSpeech.NavigateResponse | text_to_speech.py:245-247 | a successful navigation names its target, or `the page` |
| TextToSpeech.NamedKindResponses | text_to_speech.py:248-259 | a successful SEARCH, CLICK, TYPE or EXTRACT says `Search completed for`, `Clicked on`, `Typed` or `Extracted … from the page` with its parameter (`text`, `selector`, `text`, `data_type`), or its default `your search`, `the element`, `the text`, `data` when that key is missing |
| TextToSpeech.SuccessCount | text_to_speech.py:271-272 | counting successes needs every result to be a dict and is at most the number of results; counting from the left, it raises the `.get` error of the first result that is not a dict |
| TextToSpeech.SuccessCountExtremes | text_to_speech.py:273-279 | the count equals the number of results exactly when all succeeded, and is zero exactly when none did |
| TextToSpeech.BuildWorkflowResponse | text_to_speech.py:269-279 | the workflow reply states all `N` steps done, `k out of N` for a partial run, or the failure sentence when none succeeded |
| TextToSpeech.WorkflowResponseCases | text_to_speech.py:269-279 | all steps succeeding gives `Workflow completed successfully!`, none gives the failure sentence, a mix gives `Workflow partially completed.` |
| TextToSpeech.BuildDataExtractionResponse | text_to_speech.py:282-294 | a list reply counts its items, a dict reply lists its field names, anything else names the type only; a non-dict argument raises |
| TextToSpeech.ChooseVoice | text_to_speech.py:29-35 | the voice loop picks the first voice whose name or id mentions English, or none when no voice does |
| TextToSpeech.PreferredVoice | text_to_speech.py:29-35 | there is no preferred voice exactly when no voice is English |
| TextToSpeech.ChosenIsPreferred | text_to_speech.py:29-35 | what the voice loop finds is the preferred voice |
| TextToSpeech.FirstPreferred | text_to_speech.py:29-35 | the first English voice is the preferred one |
| TextToSpeech.SpeakSpec | text_to_speech.py:48-73 | text is spoken, and appended to what was said, exactly when the engine is ready and the text is not blank; otherwise nothing changes |
| TextToSpeech.CommandResultText | text_to_speech.py:91-105 | the result sentence starts with `Successfully executed` or `Failed to execute`, and adds `. <details>` only when details are given |
| TextToSpeech.SetVoiceSpec | text_to_speech.py:193-205 | the voice changes, and True is returned, exactly when the engine is ready and `setProperty` does not raise; otherwise nothing changes |
| TextToSpeech.CleanupSpec | text_to_speech.py:222-232 | when the engine stops cleanly it is dropped and no longer ready; what was said and the voice are kept |
| TextToSpeech.CleanupSilences | text_to_speech.py:222-232 | after cleanup, speaking and setting the voice do nothing |
| TextToSpeech.Speaker.constructor | text_to_speech.py:18-46 | a new speaker is in the state the engine start-up gives |
| TextToSpeech.Speaker.Speak | text_to_speech.py:48-73 | the new state and result are those of `SpeakSpec` |
| TextToSpeech.Speaker.SpeakCommandResult | text_to_speech.py:91-105 | speaks the result sentence |
| TextToSpeech.Speaker.SpeakError | text_to_speech.py:116-123 | speaks `Error: ` and the message |
| TextToSpeech.Speaker.SpeakWelcome | text_to_speech.py:125-132 | speaks the welcome text |
| TextToSpeech.Speaker.SetVoice | text_to_speech.py:193-205 | the new state and result are those of `SetVoiceSpec` |
| TextToSpeech.Speaker.Cleanup | text_to_speech.py:222-232 | the new state is that of `CleanupSpec` |
| RedisCache.Key | redis_cache.py:53-55 | a session key is the namespace, the session id and a colon, followed by the key itself |
| RedisCache.KeyInjective | redis_cache.py:53-55 | different keys of one session never collide |
| RedisCache.Push | redis_cache.py:76-79 | LPUSH fails on a key holding a record; otherwise it puts the id at the head of the list |
| RedisCache.Tagged | redis_cache.py:199-201 | the caller's dict is stamped and tagged only when a session id is set |
| RedisCache.Range | redis_cache.py:99-103 | LRANGE 0..limit-1 keeps the first `limit` ids; a limit of 0 keeps them all |
| RedisCache.BrowserStateRoundTrip | redis_cache.py:120-155 | reading the browser state back gives what was stored, with its timestamp |
| RedisCache.CollectOne | redis_cache.py:106-111 | a missing turn is skipped; a list under a turn key makes the read fail |
| RedisCache.CollectStaysFailed | redis_cache.py:106-111 | once reading one turn fails, the whole history read fails |
| RedisCache.CollectBound | redis_cache.py:106-111 | at most one turn per listed id is returned |
| RedisCache.HistoryBound | redis_cache.py:93-118 | the history holds at most `limit` turns |
| RedisCache.TurnKeyIsNotListKey | redis_cache.py:64-78 | a turn's key is never the turn list's key |
| RedisCache.StoredTurnHeadsList | redis_cache.py:57-91 | storing a turn puts its id at the head of the list, keeps the older ids after it, and keeps the list at 1 to 50 ids |
| RedisCache.StoreThenHistory | redis_cache.py:57-118 | the one-turn history right after storing a turn is that turn with its timestamp |
| RedisCache.ExtractedRecordTagged | redis_cache.py:194-219 | stored extracted data carries its type and timestamp and otherwise keeps its fields |
| RedisCache.WorkflowRecordTagged | redis_cache.py:238-257 | a stored workflow record carries its id and timestamp and otherwise keeps its fields |
| RedisCache.ClearSpec | redis_cache.py:276-291 | clearing removes exactly this session's keys and leaves every other entry untouched |
| RedisCache.ClearedHistoryEmpty | redis_cache.py:276-291 | after clearing, the history is empty |
| RedisCache.CategoryOf | redis_cache.py:313-319 | a key counts as a conversation turn, else as extracted data, else as a workflow, by the substrings it contains |
| RedisCache.CategoriesPartition | redis_cache.py:303-319 | the per-kind counts and the uncounted keys add up to the number of keys |
| RedisCache.CountCategories | redis_cache.py:313-319 | the counting loop gives each kind's count |
| RedisCache.CountStep | redis_cache.py:313-319 | one more key adds one to exactly its own kind's count |
| RedisCache.Cache.constructor | redis_cache.py:17-20 | a new cache is disconnected and has no session |
| RedisCache.Cache.Connect | redis_cache.py:22-41 | the cache is connected exactly when the server answers the ping; otherwise connect raises |
| RedisCache.Cache.Disconnect | redis_cache.py:43-47 | the cache is disconnected and nothing else changes |
| RedisCache.Cache.SetSessionId | redis_cache.py:49-51 | only the session id changes |
| RedisCache.Cache.StoreConversationTurn | redis_cache.py:57-91 | the new state is that of `StoreTurnSpec` |
| RedisCache.Cache.StoreBrowserState | redis_cache.py:120-138 | the new state is that of `StoreBrowserSpec` |
| RedisCache.Cache.StoreExtractedData | redis_cache.py:194-219 | the caller's dict is tagged and the new state is that of `StoreExtractedSpec` |
| RedisCache.Cache.StoreWorkflowState | redis_cache.py:238-257 | the caller's dict is tagged and the new state is that of `StoreWorkflowSpec` |
| RedisCache.Cache.GetBrowserState | redis_cache.py:140-155 | returns the stored browser state, so `BrowserStateRoundTrip` holds of it |
| RedisCache.Cache.GetConversationHistory | redis_cache.py:93-118 | the loop over turn ids returns the history, so `HistoryBound` holds of it |
| RedisCache.Cache.ClearSession | redis_cache.py:276-291 | the new state is that of `ClearSpec` |
| RedisCache.Cache.GetSessionStats | redis_cache.py:293-322 | returns the session statistics, so `CategoriesPartition` holds of them |
| MemoryLayer.Format | memory_layer.py:152-159 | a formatted hit has exactly `id`, `message`, `metadata` and `score`, with the source's defaults and `memory` preferred over `message` |
| MemoryLayer.Formatted | memory_layer.py:150-159 | formatting keeps at most the hits, and only dicts |
| MemoryLayer.FormattedAllDicts | memory_layer.py:150-159 | when every hit is a dict, each one is formatted, in order |
| MemoryLayer.FormattedConcat | memory_layer.py:150-159 | hits are normalised one by one: two runs of hits give their two answers joined, and one hit gives its formatted record if it is a dict and nothing otherwise |
| MemoryLayer.FormatAll | memory_layer.py:150-159 | the loop gives the formatted hits |
| MemoryLayer.Hits | memory_layer.py:143-148 | a list answer is used as is, a dict answer's `results` are used, anything else gives no hits |
| MemoryLayer.KindOf | memory_layer.py:223-233 | each kind holds exactly when its key is present and no earlier key is: `transcript`, then `url`, then `workflow_name`, then `preferences`; a metadata value without `in` raises |
| MemoryLayer.TallyBound | memory_layer.py:222-233 | the per-kind counts never exceed the number of memories |
| MemoryLayer.WorkflowExamples | memory_layer.py:193-200 | workflow examples are metadata that all have `workflow_name`, at most one per hit |
| MemoryLayer.WorkflowExamplesComplete | memory_layer.py:193-200 | every hit whose metadata has `workflow_name` is among the examples |
| MemoryLayer.ConversationMetadata | memory_layer.py:40-51 | conversation metadata has a `transcript` and records the result's success; arguments without `.get` raise |
| MemoryLayer.BrowserMetadata | memory_layer.py:65-72 | browser metadata has a `url` and no `transcript` |
| MemoryLayer.WorkflowMetadata | memory_layer.py:106-114 | workflow metadata has `workflow_name`, neither `transcript` nor `url`, and counts the steps; steps without `len` raise |
| MemoryLayer.StoredKindsClassified | memory_layer.py:223-233 | every stored kind of memory is classified back as that kind by the statistics |
| MemoryLayer.StoredWorkflowKeepsResult | memory_layer.py:106-127 | storing a workflow adds one assistant memory whose metadata holds the result |
| MemoryLayer.CountKinds | memory_layer.py:222-233 | the counting loop gives the tally, which is bounded by the number of memories |
| MemoryLayer.TallyStaysFailed | memory_layer.py:222-236 | once one memory's metadata raises, the statistics fail |
| MemoryLayer.MemoryLayer.constructor | memory_layer.py:16-35 | a new layer has no session, no memories and no deletions |
| MemoryLayer.MemoryLayer.SetSessionId | memory_layer.py:37-38 | only the session id changes |
| MemoryLayer.MemoryLayer.SearchMemories | memory_layer.py:129-165 | a blank query finds nothing; otherwise the formatted hits of the search |
| MemoryLayer.MemoryLayer.NormaliseAnswer | memory_layer.py:142-159 | the result is `AnswerSpec` of the answer: no hits when the search raised or its answer cannot be iterated, otherwise every hit formatted |
| MemoryLayer.MemoryLayer.GetConversationContext | memory_layer.py:167-172 | searches with the conversation query |
| MemoryLayer.MemoryLayer.GetBrowserContext | memory_layer.py:174-180 | the metadata of the best browser-context hit, or `None` |
| MemoryLayer.MemoryLayer.GetWorkflowExamples | memory_layer.py:193-200 | the workflow examples among five hits for `workflow <type>` or `workflow steps` |
| MemoryLayer.MemoryLayer.GetMemoryStats | memory_layer.py:219-236 | the statistics are all zero, because the empty query finds nothing |
| MemoryLayer.MemoryLayer.ClearSessionMemories | memory_layer.py:241-253 | clearing reports success and changes nothing, because the empty query finds nothing |
| MemoryLayer.MemoryLayer.DeleteEach | memory_layer.py:244-248 | every memory with a truthy id is deleted, in order |
| MemoryLayer.MemoryLayer.StoreConversationMemory | memory_layer.py:40-63 | the new state and id are those of storing the conversation metadata |
| MemoryLayer.MemoryLayer.StoreBrowserContext | memory_layer.py:65-85 | the new state and id are those of storing the browser metadata |
| MemoryLayer.MemoryLayer.StoreWorkflowMemory | memory_layer.py:106-127 | the new state and id are those of storing the workflow metadata |
| MemoryLayer.MemoryLayer.Add | memory_layer.py:53-63 | a successful add records the memory; the id is the backend's id or `""` |
| VoiceBrowserAgent.IsWorkflowCommand | voice_browser_agent.py:222-226 | a command is a workflow exactly when its lower-cased context contains one of the workflow keywords; it raises when the intent or its context has no `.get` or `.lower` |
| VoiceBrowserAgent.WorkflowKeywordsReduce | voice_browser_agent.py:224-226 | the keyword test is the same as looking for `then`, `also`, `next` or `after that` |
| VoiceBrowserAgent.ContextSpec | voice_browser_agent.py:228-253 | building the context only touches the browser, through the page-content read |
| VoiceBrowserAgent.SingleSpec | voice_browser_agent.py:129-171 | a single command changes neither the turn count, the running flag nor the workflow |
| VoiceBrowserAgent.CommandDoneSpec | voice_browser_agent.py:135-167 | recording a command result keeps the turn count, running flag and workflow |
| VoiceBrowserAgent.ExtractionSpec | voice_browser_agent.py:158-167 | storing extracted data keeps the turn count, running flag and workflow |
| VoiceBrowserAgent.StepsIterable | voice_browser_agent.py:177-195 | the multi-step parse always has a length and can be iterated |
| VoiceBrowserAgent.WorkflowRunSpec | voice_browser_agent.py:173-220 | a workflow keeps the turn count and the running flag |
| VoiceBrowserAgent.Recorded | voice_browser_agent.py:185-200 | recording the workflow only touches the workflow and the cache |
| VoiceBrowserAgent.RunWorkflowSpec | voice_browser_agent.py:195-220 | running the steps keeps the turn count and the running flag |
| VoiceBrowserAgent.ReportWorkflowSpec | voice_browser_agent.py:203-216 | reporting a workflow touches neither the workflow record nor the cache |
| VoiceBrowserAgent.ProcessSpec | voice_browser_agent.py:93-127 | every voice input counts one turn and keeps the running flag |
| VoiceBrowserAgent.RouteSpec | voice_browser_agent.py:111-127 | routing an intent keeps the turn count and the running flag |
| VoiceBrowserAgent.InitializeSpec | voice_browser_agent.py:50-73 | initialisation succeeds only with a connected cache and a started browser session |
| VoiceBrowserAgent.StopSpec | voice_browser_agent.py:265-287 | stopping clears the running flag and keeps the turn count and the workflow |
| VoiceBrowserAgent.RejectedRunsNothing | voice_browser_agent.py:93-117 | an intent that fails validation is counted and recorded, then only the not-understood error is spoken |
| VoiceBrowserAgent.SinglePathLeavesWorkflow | voice_browser_agent.py:119-123 | a command that is not a workflow leaves the current workflow alone |
| VoiceBrowserAgent.EmptyWorkflowLeavesNoState | voice_browser_agent.py:179-181 | a workflow with no steps stores nothing and only speaks `Error: Could not parse workflow steps.` |
| VoiceBrowserAgent.ScreenshotOnlyOnSuccess | voice_browser_agent.py:151-155 | a screenshot is taken after a single command exactly when it succeeded |
| VoiceBrowserAgent.TaggedKeeps | voice_browser_agent.py:192-200 | tagging a record keeps every field other than the tag and the timestamp |
| VoiceBrowserAgent.RunningRecordFields | voice_browser_agent.py:184-192 | the first stored workflow record is `running` at step 0 with its id and intents |
| VoiceBrowserAgent.CompletedRecordFields | voice_browser_agent.py:197-200 | the second stored record is `completed`, keeps the id, intents and step, and holds the results |
| VoiceBrowserAgent.WorkflowRecordLifecycle | voice_browser_agent.py:184-200 | after a workflow, the current workflow is `workflow_<turn>` with its intents, `completed` with the run's results when the run finished, otherwise still `running` |
| VoiceBrowserAgent.RunResultsAreSteps | voice_browser_agent.py:195-206 | the run gives one dict per step, and a step counts as a success exactly when its command succeeded |
| VoiceBrowserAgent.RunReachesReport | voice_browser_agent.py:195-211 | a finished run records the completed workflow and then reports it |
| VoiceBrowserAgent.SummaryNotBlank | voice_browser_agent.py:210-211 | the workflow summary is never blank, so it is always spoken |
| VoiceBrowserAgent.ReportSpeaksSummary | voice_browser_agent.py:210-211 | with a ready engine, the workflow summary is the one new thing said |
| VoiceBrowserAgent.ReportStoresOutcome | voice_browser_agent.py:203-207 | the workflow memory's result holds the results and the success count |
| VoiceBrowserAgent.AllSucceededReportsCompleted | voice_browser_agent.py:195-211 | when every step succeeds, the agent says `Workflow completed successfully!` and nothing else |
| VoiceBrowserAgent.WorkflowMemoryCountsSuccesses | voice_browser_agent.py:203-207 | one workflow memory is added; its success count equals the number of steps exactly when all commands succeeded |
| VoiceBrowserAgent.ErrorRecordRunsAsNoop | voice_browser_agent.py:115-133 | an ERROR intent passes validation, is a workflow only when its context mentions a keyword, and runs as the no-op action |
| VoiceBrowserAgent.ErrorRecordTranslates | browser_automation.py:148-171 | the ERROR intent translates to the no-op action |
| VoiceBrowserAgent.StopRecordsTotalTurns | voice_browser_agent.py:265-282 | stopping stores the browser state `ended` with the number of turns |
| VoiceBrowserAgent.TurnCountedAndRecorded | voice_browser_agent.py:96-106 | a turn is counted, and the latest stored turn is `turn_<n>` with the transcript |
| VoiceBrowserAgent.StartRunsEvenIfInitFails | voice_browser_agent.py:75-91 | the voice session is marked running even when initialisation fails, and it fails when the cache is unreachable |
| VoiceBrowserAgent.Agent.constructor | voice_browser_agent.py:30-48 | the agent starts at turn 0, not running, with no workflow, fresh components, and the session id handed to the cache and memory layer |
| VoiceBrowserAgent.Agent.Initialize | voice_browser_agent.py:50-73 | the new state and result are those of `InitializeSpec` |
| VoiceBrowserAgent.Agent.StartVoiceSession | voice_browser_agent.py:75-91 | the new state is that of `StartVoiceSpec` |
| VoiceBrowserAgent.Agent.BuildContext | voice_browser_agent.py:228-253 | the new state and context are those of `ContextSpec` |
| VoiceBrowserAgent.Agent.ProcessVoiceInput | voice_browser_agent.py:93-127 | the new state is that of `ProcessSpec` |
| VoiceBrowserAgent.Agent.CountTurn | voice_browser_agent.py:96-106 | the turn counter goes up by one and the turn record is stored under the new number (`CountTurnSpec`) |
| VoiceBrowserAgent.Agent.Respond | voice_browser_agent.py:108-124 | after the context read, the state is that of routing the transcript (`RespondSpec`) |
| VoiceBrowserAgent.Agent.Route | voice_browser_agent.py:111-127 | the new state is that of `RouteSpec` |
| VoiceBrowserAgent.Agent.ExecuteSingleCommand | voice_browser_agent.py:129-171 | the new state is that of `SingleSpec` |
| VoiceBrowserAgent.Agent.CommandDone | voice_browser_agent.py:135-167 | the new state is that of `CommandDoneSpec` |
| VoiceBrowserAgent.Agent.StoreExtraction | voice_browser_agent.py:158-167 | the new state is that of `ExtractionSpec` |
| VoiceBrowserAgent.Agent.ExecuteWorkflow | voice_browser_agent.py:173-220 | the new state is that of `WorkflowRunSpec` on the parsed steps |
| VoiceBrowserAgent.Agent.RunWorkflow | voice_browser_agent.py:195-220 | the new state is that of `RunWorkflowSpec` |
| VoiceBrowserAgent.Agent.CompleteWorkflow | voice_browser_agent.py:197-216 | once the run returned, the new state is that of `CompleteWorkflowSpec`: the record is completed and stored, then the results are counted and reported |
| VoiceBrowserAgent.Agent.ReportWorkflow | voice_browser_agent.py:203-216 | the new state is that of `ReportWorkflowSpec` |
| VoiceBrowserAgent.Agent.StopVoiceSession | voice_browser_agent.py:265-287 | the new state is that of `StopSpec` |
| VoiceBrowserAgent.Agent.Cleanup | voice_browser_agent.py:289-298 | the new state is that of cleaning up every component |
| VoiceBrowserAgent.Agent.GetSessionStats | voice_browser_agent.py:300-317 | returns the agent's counters with the cache and memory statistics |
| Strings.BlankIffStripEmpty | text_to_speech.py:55 | `not s.strip()` holds exactly when every character of `s` is whitespace, the definition the model uses for a blank text or query |

## Left out

- Networking, Redis I/O, Mem0, the language model, the pyttsx3 engine and base64 decoding are not run. Each is an oracle: a function field or parameter that the model consults by call index or argument. Nothing relates the context sent to the language model to its reply.
- The Python `logging` calls, and `_store_screenshot`, which only logs the size of the screenshot, are not modelled.
- `asyncio` concurrency, the engine lock, `run_in_executor`, the sleeps between WebSocket attempts (recorded only as `Pause` entries in the call log) and request timeouts are not modelled. Operations run one after another.
- Redis key expiry (`setex` TTL) is not modelled. An expired key is indistinguishable from one never written.
- The `KEYS <prefix>*` glob is read as a plain prefix match, so a session id containing glob characters is not modelled. redis-py rejecting values it cannot serialise is not modelled.
- Floats are kept as their printed text, and confidence formatting (`:.2f`) is a parameter of `GetIntentSummary`.
- Case mapping in `lower()` and `upper()` covers ASCII letters only. `repr()` of non-ASCII characters is not modelled.
- Each agent operation reads a single clock value for all its timestamps, where the source reads the clock several times.
- The JavaScript expressions sent for page content and extraction are opaque strings. Their results come from the oracle. The three listing scripts of `extract_data` (links, images, forms) are sent as short stand-in names rather than their JavaScript text.
- `voice_input.py` is not part of this model. Listening is outside it, and the listener's stop error is a parameter of `StopVoiceSession`.
- The session id comes from `uuid4` in the source. Here it is a constructor parameter.
- `store_user_preferences`, `get_user_preferences`, `update_memory` and `delete_memory`'s return value are not modelled. `delete_memory` is modelled only as the deletion it records.
- `store_intent_context`, `get_intent_context`, `get_extracted_data` and `get_workflow_state` are not modelled, because the agent does not call them.
- `speak_help`, `speak_workflow_progress`, `set_voice_properties`, `get_available_voices` and `save_audio_to_file` are not modelled, because the agent does not call them. Neither are the `__aenter__`/`__aexit__` wrappers and the module-level `run_workflow` helper.
- VoiceBrowserAgent.ExtractionSpec: its own contract states only the frame of the agent's counters. How the extracted data is stamped and kept is stated by `ExtractedRecordTagged`.
- VoiceBrowserAgent.SingleSpec, VoiceBrowserAgent.WorkflowRunSpec, VoiceBrowserAgent.RouteSpec: their own contracts state only the frame of the agent's counters. What they do is stated by the lemmas beside them (`ScreenshotOnlyOnSuccess`, `WorkflowRecordLifecycle`, `WorkflowMemoryCountsSuccesses`, `RejectedRunsNothing`).
- BrowserAutomation.ExtractSpec: for the default text extraction only the `text` value is tied to its request; the `title` and `url` values are not stated. The listing values are tied to their request by `ListingSpec`.
- BrowserAutomation.PageContentSpec: that `None` comes back only when one of the four requests fails is stated for the last request only (`PageAfterText`).
