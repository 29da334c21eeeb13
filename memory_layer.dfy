/** Long-term memory kept in Mem0: what the agent writes after commands, browsing and workflows, how
    search answers of several shapes are brought to one record shape, and the statistics and
    clearing built on search. Mem0 itself is outside the model: its `add` and `search` answers are
    oracles indexed by the number of writes made so far, and every call made is recorded. */
module MemoryLayer {
  import opened Strings
  import opened Py

  /** One `memory.add` call: the message it carries and its metadata. */
  datatype Note = Note(role: string, content: string, metadata: Value)

  /** The backend's answers. `add(n)`: what the n-th write returns or raises. `search(n, runId,
      query, limit)`: what a search returns or raises after n writes. */
  datatype Mem0 = Mem0(add: nat -> Result<Value>, search: (nat, Value, string, int) -> Result<Value>)

  /** The wrapper's state: the session id (None until set), every add made and every id deleted. */
  datatype MemoryState = MemoryState(sessionId: Value, added: seq<Note>, deleted: seq<Value>)

  function Writes(s: MemoryState): nat {
    |s.added| + |s.deleted|
  }

  /* ---------- search normalisation ---------- */

  /** One backend hit in the shape every caller reads. */
  function Format(hit: Value): (r: Value)
    requires hit.Dict?
    ensures r.Dict? && Keys(r.fields) == ["id", "message", "metadata", "score"]
    ensures Field(r, "id") == FieldOr(hit, "id", Str(""))
    ensures Field(r, "message") == Or(FieldOr(hit, "memory", Str("")), FieldOr(hit, "message", Str("")))
    ensures Field(r, "metadata") == FieldOr(hit, "metadata", EMPTY)
    ensures Field(r, "score") == FieldOr(hit, "score", ZERO)
  {
    var fields := [("id", FieldOr(hit, "id", Str(""))),
                   ("message", Or(FieldOr(hit, "memory", Str("")), FieldOr(hit, "message", Str("")))),
                   ("metadata", FieldOr(hit, "metadata", EMPTY)),
                   ("score", FieldOr(hit, "score", ZERO))];
    LookupAt(fields, 0);
    LookupAt(fields, 1);
    LookupAt(fields, 2);
    LookupAt(fields, 3);
    Dict(fields)
  }

  /** The dict hits, formatted, in order; anything else in the list is dropped. */
  function Formatted(hits: seq<Value>): (r: seq<Value>)
    ensures |r| <= |hits|
    ensures forall i :: 0 <= i < |r| ==> r[i].Dict?
  {
    if hits == [] then []
    else
      var rest := Formatted(hits[..|hits| - 1]);
      var last := hits[|hits| - 1];
      if last.Dict? then rest + [Format(last)] else rest
  }

  /** When every hit is a dict, the answer is every hit formatted, one for one and in order. */
  lemma {:induction false} FormattedAllDicts(hits: seq<Value>)
    requires forall i :: 0 <= i < |hits| ==> hits[i].Dict?
    ensures |Formatted(hits)| == |hits|
    ensures forall i :: 0 <= i < |hits| ==> Formatted(hits)[i] == Format(hits[i])
  {
    if hits != [] {
      var front, last := hits[..|hits| - 1], hits[|hits| - 1];
      assert last.Dict?;
      FormattedAllDicts(front);
      var before := Formatted(front);
      assert Formatted(hits) == before + [Format(last)];
      forall i | 0 <= i < |hits|
        ensures Formatted(hits)[i] == Format(hits[i])
      {
        if i < |front| {
          assert (before + [Format(last)])[i] == before[i];
          assert front[i] == hits[i];
        }
      }
    }
  }

  /** Hits are normalised one at a time: the answer for two runs of hits is the two answers
      joined, and a single hit gives its formatted record when it is a dict and nothing otherwise.
      So for any mix of hits the answer is exactly the dict hits, formatted, in their order. */
  lemma {:induction false} FormattedConcat(a: seq<Value>, b: seq<Value>)
    ensures Formatted(a + b) == Formatted(a) + Formatted(b)
    ensures |b| == 1 ==> Formatted(b) == if b[0].Dict? then [Format(b[0])] else []
  {
    if b == [] {
      assert a + b == a;
    } else {
      var front, last := b[..|b| - 1], b[|b| - 1];
      assert (a + b)[..|a + b| - 1] == a + front;
      assert (a + b)[|a + b| - 1] == last;
      FormattedConcat(a, front);
      if |b| == 1 {
        assert front == [];
      }
    }
  }

  /** The loop of `search_memories`: each dict hit is formatted and appended; others are skipped. */
  method FormatAll(hits: seq<Value>) returns (formatted: seq<Value>)
    ensures formatted == Formatted(hits)
  {
    formatted := [];
    var i := 0;
    while i < |hits|
      invariant 0 <= i <= |hits|
      invariant formatted == Formatted(hits[..i])
    {
      var hit := hits[i];
      assert hits[..i + 1][..i] == hits[..i] && hits[..i + 1][i] == hit;
      if hit.Dict? {
        formatted := formatted + [Format(hit)];
      }
      i := i + 1;
    }
    assert hits[..i] == hits;
  }

  /** The list a search answer holds: a dict's `results` (default []), a list itself, otherwise []. */
  function Hits(answer: Value): (r: Value)
    ensures answer.List? ==> r == answer
    ensures answer.Dict? ==> r == FieldOr(answer, "results", List([]))
    ensures !answer.List? && !answer.Dict? ==> r == List([])
  {
    if answer.Dict? then FieldOr(answer, "results", List([]))
    else if answer.List? then answer
    else List([])
  }

  /** `search_memories`: nothing for a blank query, and [] whenever anything raises. */
  function SearchSpec(s: MemoryState, backend: Mem0, query: string, limit: int): seq<Value> {
    if IsBlank(query) then []
    else AnswerSpec(backend.search(Writes(s), s.sessionId, query, limit))
  }

  /** The normalised hits of one backend answer, or [] when the search or the iteration raised. */
  function AnswerSpec(answer: Result<Value>): seq<Value> {
    match answer
    case Raise(_) => []
    case Ok(a) =>
      match Iter(Hits(a))
      case Raise(_) => []
      case Ok(hits) => Formatted(hits)
  }

  /* ---------- statistics ---------- */

  datatype Kind = ConversationMemory | BrowserContext | WorkflowMemory | Preferences | Unclassified

  /** The counter a memory's metadata goes to, checked in a fixed order; `in` raises on metadata
      that is not a container (None, a number). */
  function KindOf(metadata: Value): (r: Result<Kind>)
    ensures r.Raise? <==> !(metadata.Dict? || metadata.List? || metadata.Str?)
    ensures metadata.Dict? ==> r.Ok?
    ensures metadata.Dict? ==> var f := metadata.fields;
      && (r.value == ConversationMemory <==> HasKey(f, "transcript"))
      && (r.value == BrowserContext <==> !HasKey(f, "transcript") && HasKey(f, "url"))
      && (r.value == WorkflowMemory <==> !HasKey(f, "transcript") && !HasKey(f, "url") && HasKey(f, "workflow_name"))
      && (r.value == Preferences <==> !HasKey(f, "transcript") && !HasKey(f, "url") && !HasKey(f, "workflow_name") && HasKey(f, "preferences"))
  {
    var conversation :- In("transcript", metadata);
    if conversation then Ok(ConversationMemory)
    else
      var url := In("url", metadata).value;
      if url then Ok(BrowserContext)
      else if In("workflow_name", metadata).value then Ok(WorkflowMemory)
      else if In("preferences", metadata).value then Ok(Preferences)
      else Ok(Unclassified)
  }

  datatype Counts = Counts(conversations: nat, contexts: nat, workflows: nat, preferences: nat)

  function Bump(c: Counts, k: Kind): Counts {
    match k
    case ConversationMemory => c.(conversations := c.conversations + 1)
    case BrowserContext => c.(contexts := c.contexts + 1)
    case WorkflowMemory => c.(workflows := c.workflows + 1)
    case Preferences => c.(preferences := c.preferences + 1)
    case Unclassified => c
  }

  function Total(c: Counts): nat {
    c.conversations + c.contexts + c.workflows + c.preferences
  }

  /** The counters after the stats loop over `memories`, or the error that stops it. */
  function Tally(memories: seq<Value>): Result<Counts>
    requires forall i :: 0 <= i < |memories| ==> memories[i].Dict?
  {
    if memories == [] then Ok(Counts(0, 0, 0, 0))
    else
      var before :- Tally(memories[..|memories| - 1]);
      var kind :- KindOf(FieldOr(memories[|memories| - 1], "metadata", EMPTY));
      Ok(Bump(before, kind))
  }

  /** Each memory is counted at most once, so the counters add up to at most the number of memories. */
  lemma {:induction false} TallyBound(memories: seq<Value>)
    requires forall i :: 0 <= i < |memories| ==> memories[i].Dict?
    ensures Tally(memories).Ok? ==> Total(Tally(memories).value) <= |memories|
  {
    if memories != [] {
      TallyBound(memories[..|memories| - 1]);
    }
  }

  function StatsRecord(total: nat, c: Counts): Value {
    Dict([("total_memories", Int(total)),
          ("conversation_memories", Int(c.conversations)),
          ("browser_contexts", Int(c.contexts)),
          ("workflows", Int(c.workflows)),
          ("preferences", Int(c.preferences))])
  }

  /** What `get_workflow_examples` keeps: each result's metadata that has `workflow_name`. */
  function WorkflowExamples(results: seq<Value>): (r: Result<seq<Value>>)
    requires forall i :: 0 <= i < |results| ==> results[i].Dict?
    ensures r.Ok? ==> |r.value| <= |results|
    ensures r.Ok? ==> forall i :: 0 <= i < |r.value| ==> In("workflow_name", r.value[i]) == Ok(true)
  {
    if results == [] then Ok([])
    else
      var kept :- WorkflowExamples(results[..|results| - 1]);
      var metadata := FieldOr(results[|results| - 1], "metadata", EMPTY);
      var isWorkflow :- In("workflow_name", metadata);
      Ok(if isWorkflow then kept + [metadata] else kept)
  }

  /** No example is lost: every result whose metadata is a dict naming a workflow is kept. */
  lemma {:induction false} WorkflowExamplesComplete(results: seq<Value>, i: nat)
    requires forall j :: 0 <= j < |results| ==> results[j].Dict?
    requires WorkflowExamples(results).Ok? && i < |results|
    requires In("workflow_name", FieldOr(results[i], "metadata", EMPTY)) == Ok(true)
    ensures FieldOr(results[i], "metadata", EMPTY) in WorkflowExamples(results).value
  {
    var front := results[..|results| - 1];
    if i < |results| - 1 {
      assert front[i] == results[i];
      WorkflowExamplesComplete(front, i);
    }
  }

  /* ---------- writes ---------- */

  /** The metadata `store_conversation_memory` writes; `get` on a non-dict intent or result raises. */
  function ConversationMetadata(transcript: string, intent: Value, result: Value, sessionId: Value, now: string): (r: Result<Value>)
    ensures r.Ok? <==> intent.Dict? && result.Dict?
    ensures r.Ok? ==> r.value.Dict? && HasKey(r.value.fields, "transcript")
                      && Field(r.value, "result_success") == FieldOr(result, "success", Bool(false))
  {
    var kind :- Get(intent, "intent", Str(""));
    var success :- Get(result, "success", Bool(false));
    var fields := [("transcript", Str(transcript)),
                   ("intent", kind),
                   ("confidence", FieldOr(intent, "confidence", ZERO)),
                   ("parameters", FieldOr(intent, "parameters", EMPTY)),
                   ("result_success", success),
                   ("result_data", FieldOr(result, "data", EMPTY)),
                   ("session_id", sessionId),
                   ("timestamp", Str(now))];
    assert fields[0].0 == "transcript";
    LookupAt(fields, 4);
    Ok(Dict(fields))
  }

  function BrowserMetadata(url: Value, title: Value, extracted: Value, sessionId: Value, now: string): (r: Value)
    ensures r.Dict? && HasKey(r.fields, "url") && !HasKey(r.fields, "transcript")
  {
    var fields := [("url", url),
                   ("page_title", title),
                   ("extracted_data", Or(extracted, EMPTY)),
                   ("session_id", sessionId),
                   ("timestamp", Str(now))];
    assert fields[0].0 == "url";
    assert forall i :: 0 <= i < |fields| ==> fields[i].0 != "transcript";
    HasKeyIff(fields, "transcript");
    Dict(fields)
  }

  /** The metadata `store_workflow_memory` writes; `len` of a non-container raises. */
  function WorkflowMetadata(name: string, steps: Value, result: Value, sessionId: Value, now: string): (r: Result<Value>)
    ensures r.Ok? <==> Len(steps).Ok?
    ensures r.Ok? ==> r.value.Dict? && HasKey(r.value.fields, "workflow_name")
                      && !HasKey(r.value.fields, "transcript") && !HasKey(r.value.fields, "url")
                      && Field(r.value, "step_count") == Int(Len(steps).value)
  {
    var count :- Len(steps);
    var fields := [("workflow_name", Str(name)),
                   ("steps", steps),
                   ("result", result),
                   ("step_count", Int(count)),
                   ("session_id", sessionId),
                   ("timestamp", Str(now))];
    assert fields[0].0 == "workflow_name";
    assert forall i :: 0 <= i < |fields| ==> fields[i].0 != "transcript" && fields[i].0 != "url";
    HasKeyIff(fields, "transcript");
    HasKeyIff(fields, "url");
    LookupAt(fields, 3);
    Ok(Dict(fields))
  }

  /** What a stored memory of each kind is later counted as. */
  lemma StoredKindsClassified(transcript: string, intent: Value, result: Value, url: Value, title: Value,
                              extracted: Value, name: string, steps: Value, sessionId: Value, now: string)
    ensures var md := ConversationMetadata(transcript, intent, result, sessionId, now);
      md.Ok? ==> KindOf(md.value) == Ok(ConversationMemory)
    ensures KindOf(BrowserMetadata(url, title, extracted, sessionId, now)) == Ok(BrowserContext)
    ensures var md := WorkflowMetadata(name, steps, result, sessionId, now);
      md.Ok? ==> KindOf(md.value) == Ok(WorkflowMemory)
  {
  }

  /** An `add` call: recorded, and answered with the backend's id, or "" when it is falsy or the call raised. */
  function AddSpec(s: MemoryState, backend: Mem0, note: Note): (MemoryState, Value) {
    (s.(added := s.added + [note]),
     match backend.add(Writes(s))
     case Ok(id) => Or(id, Str(""))
     case Raise(_) => Str(""))
  }

  function StoreConversationSpec(s: MemoryState, backend: Mem0, transcript: string, intent: Value, result: Value, now: string): (MemoryState, Value) {
    match ConversationMetadata(transcript, intent, result, s.sessionId, now)
    case Raise(_) => (s, Str(""))
    case Ok(md) => AddSpec(s, backend, Note("user", transcript, md))
  }

  function StoreBrowserSpec(s: MemoryState, backend: Mem0, url: Value, title: Value, extracted: Value, now: string): (MemoryState, Value) {
    AddSpec(s, backend, Note("assistant", "Browser context: " + ToStr(title) + " at " + ToStr(url),
                             BrowserMetadata(url, title, extracted, s.sessionId, now)))
  }

  function StoreWorkflowSpec(s: MemoryState, backend: Mem0, name: string, steps: Value, result: Value, now: string): (MemoryState, Value) {
    match WorkflowMetadata(name, steps, result, s.sessionId, now)
    case Raise(_) => (s, Str(""))
    case Ok(md) =>
      AddSpec(s, backend, Note("assistant", "Workflow '" + name + "' completed with " + IntText(Field(md, "step_count").i) + " steps", md))
  }

  /** A workflow memory is one assistant note whose metadata keeps the run's result as given. */
  lemma StoredWorkflowKeepsResult(s: MemoryState, backend: Mem0, name: string, steps: Value, result: Value, now: string)
    requires Len(steps).Ok?
    ensures var added := StoreWorkflowSpec(s, backend, name, steps, result, now).0.added;
      |added| == |s.added| + 1 && added[|added| - 1].role == "assistant"
      && added[|added| - 1].metadata.Dict? && Field(added[|added| - 1].metadata, "result") == result
  {
    var fields := [("workflow_name", Str(name)), ("steps", steps), ("result", result),
                   ("step_count", Int(Len(steps).value)), ("session_id", s.sessionId), ("timestamp", Str(now))];
    LookupAt(fields, 2);
    assert WorkflowMetadata(name, steps, result, s.sessionId, now) == Ok(Dict(fields));
  }

  /** The ids the clearing loop deletes: each truthy `id`. */
  function DeletedIds(memories: seq<Value>): seq<Value>
    requires forall i :: 0 <= i < |memories| ==> memories[i].Dict?
  {
    if memories == [] then []
    else
      var id := Field(memories[|memories| - 1], "id");
      DeletedIds(memories[..|memories| - 1]) + if Truthy(id) then [id] else []
  }

  const BROWSER_QUERY := "browser context page_title url"
  const CONVERSATION_QUERY := "conversation transcript intent"

  class MemoryLayer {
    const backend: Mem0
    var sessionId: Value
    var added: seq<Note>
    var deleted: seq<Value>

    function State(): MemoryState
      reads this
    {
      MemoryState(sessionId, added, deleted)
    }

    constructor (backend: Mem0)
      ensures this.backend == backend && State() == MemoryState(Null, [], [])
    {
      this.backend := backend;
      sessionId := Null;
      added := [];
      deleted := [];
    }

    method SetSessionId(id: string)
      modifies this
      ensures State() == old(State()).(sessionId := Str(id))
    {
      sessionId := Str(id);
    }

    /** The normalisation loop of `search_memories`. */
    method SearchMemories(query: string, limit: int) returns (formatted: seq<Value>)
      ensures IsBlank(query) ==> formatted == []
      ensures formatted == SearchSpec(State(), backend, query, limit)
    {
      if IsBlank(query) {
        return [];
      }
      var answer := backend.search(|added| + |deleted|, sessionId, query, limit);
      assert answer == backend.search(Writes(State()), State().sessionId, query, limit);
      formatted := NormaliseAnswer(answer);
    }

    /** The response-shape handling and the normalisation loop of `search_memories`. */
    static method NormaliseAnswer(answer: Result<Value>) returns (formatted: seq<Value>)
      ensures formatted == AnswerSpec(answer)
    {
      if answer.Raise? {
        return [];
      }
      var hits := Iter(Hits(answer.value));
      if hits.Raise? {
        return [];
      }
      formatted := FormatAll(hits.value);
    }

    method GetConversationContext(limit: int) returns (memories: seq<Value>)
      ensures memories == SearchSpec(State(), backend, CONVERSATION_QUERY, limit)
    {
      memories := SearchMemories(CONVERSATION_QUERY, limit);
    }

    /** `get_browser_context`: the best hit's metadata, or None without a hit. */
    method GetBrowserContext() returns (context: Value)
      ensures var hits := SearchSpec(State(), backend, BROWSER_QUERY, 1);
        context == if hits == [] then Null else FieldOr(hits[0], "metadata", EMPTY)
    {
      var results := SearchMemories(BROWSER_QUERY, 1);
      if results == [] {
        return Null;
      }
      context := FieldOr(results[0], "metadata", EMPTY);
    }

    method GetWorkflowExamples(workflowType: Value) returns (examples: seq<Value>)
      ensures var query := if !Truthy(workflowType) then "workflow steps" else "workflow " + ToStr(workflowType);
        var found := WorkflowExamples(SearchSpec(State(), backend, query, 5));
        examples == if found.Ok? then found.value else []
    {
      var query := if !Truthy(workflowType) then "workflow steps" else "workflow " + ToStr(workflowType);
      var results := SearchMemories(query, 5);
      var found := WorkflowExamples(results);
      examples := if found.Ok? then found.value else [];
    }

    /** `get_memory_stats`. It searches with the empty query, which returns [] before reaching the
        backend, so every count it reports is zero. */
    method GetMemoryStats() returns (stats: Value)
      ensures stats == StatsRecord(0, Counts(0, 0, 0, 0))
    {
      var all := SearchMemories("", 100);
      var counts := CountKinds(all);
      stats := if counts.Ok? then StatsRecord(|all|, counts.value) else EMPTY;
    }

    /** `clear_session_memories`: it too searches with the empty query, so it deletes nothing and
        reports success. */
    method ClearSessionMemories() returns (r: bool)
      modifies this
      ensures r && State() == old(State())
    {
      var all := SearchMemories("", 1000);
      assert all == [] && DeletedIds(all) == [];
      DeleteEach(all);
      assert deleted == old(deleted) + [];
      r := true;
    }

    /** The deletion loop of `clear_session_memories`: each memory with a truthy id is deleted;
        the answer of `delete_memory` is ignored. */
    method DeleteEach(memories: seq<Value>)
      requires forall i :: 0 <= i < |memories| ==> memories[i].Dict?
      modifies this
      ensures State() == old(State()).(deleted := old(deleted) + DeletedIds(memories))
    {
      var i := 0;
      while i < |memories|
        invariant 0 <= i <= |memories|
        invariant State() == old(State()).(deleted := old(deleted) + DeletedIds(memories[..i]))
      {
        assert memories[..i + 1][..i] == memories[..i];
        var id := FieldOr(memories[i], "id", Null);
        if Truthy(id) {
          deleted := deleted + [id];
        }
        i := i + 1;
      }
      assert memories[..i] == memories;
    }

    method StoreConversationMemory(transcript: string, intent: Value, result: Value, now: string) returns (id: Value)
      modifies this
      ensures (State(), id) == StoreConversationSpec(old(State()), backend, transcript, intent, result, now)
    {
      var md := ConversationMetadata(transcript, intent, result, sessionId, now);
      if md.Raise? {
        return Str("");
      }
      id := Add(Note("user", transcript, md.value));
    }

    method StoreBrowserContext(url: Value, title: Value, extracted: Value, now: string) returns (id: Value)
      modifies this
      ensures (State(), id) == StoreBrowserSpec(old(State()), backend, url, title, extracted, now)
    {
      id := Add(Note("assistant", "Browser context: " + ToStr(title) + " at " + ToStr(url),
                     BrowserMetadata(url, title, extracted, sessionId, now)));
    }

    method StoreWorkflowMemory(name: string, steps: Value, result: Value, now: string) returns (id: Value)
      modifies this
      ensures (State(), id) == StoreWorkflowSpec(old(State()), backend, name, steps, result, now)
    {
      var md := WorkflowMetadata(name, steps, result, sessionId, now);
      if md.Raise? {
        return Str("");
      }
      id := Add(Note("assistant", "Workflow '" + name + "' completed with " + IntText(Field(md.value, "step_count").i) + " steps", md.value));
    }

    method Add(note: Note) returns (id: Value)
      modifies this
      ensures (State(), id) == AddSpec(old(State()), backend, note)
    {
      var answer := backend.add(|added| + |deleted|);
      added := added + [note];
      id := if answer.Ok? then Or(answer.value, Str("")) else Str("");
    }
  }

  /** The counting loop of `get_memory_stats`, over any list of formatted memories. */
  method CountKinds(memories: seq<Value>) returns (r: Result<Counts>)
    requires forall i :: 0 <= i < |memories| ==> memories[i].Dict?
    ensures r == Tally(memories)
    ensures r.Ok? ==> Total(r.value) <= |memories|
  {
    var counts := Counts(0, 0, 0, 0);
    var i := 0;
    while i < |memories|
      invariant 0 <= i <= |memories|
      invariant Tally(memories[..i]) == Ok(counts)
    {
      assert memories[..i + 1][..i] == memories[..i];
      var metadata := FieldOr(memories[i], "metadata", EMPTY);
      var kind := KindOf(metadata);
      if kind.Raise? {
        assert Tally(memories[..i + 1]) == Raise(kind.error);
        TallyStaysFailed(memories, i + 1);
        return Raise(kind.error);
      }
      counts := Bump(counts, kind.value);
      i := i + 1;
    }
    assert memories[..i] == memories;
    TallyBound(memories);
    r := Ok(counts);
  }

  lemma {:induction false} TallyStaysFailed(memories: seq<Value>, n: nat)
    requires forall i :: 0 <= i < |memories| ==> memories[i].Dict?
    requires n <= |memories| && Tally(memories[..n]).Raise?
    ensures Tally(memories) == Tally(memories[..n])
  {
    if n < |memories| {
      assert memories[..|memories| - 1][..n] == memories[..n];
      TallyStaysFailed(memories[..|memories| - 1], n);
    } else {
      assert memories[..n] == memories;
    }
  }
}
