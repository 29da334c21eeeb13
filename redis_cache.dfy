/** The session cache: conversation turns, browser state, extracted data and workflow records kept
    in Redis under keys prefixed by the session id. Redis is modelled as an in-memory map from key to
    either a stored record (the JSON text a `setex` wrote, kept as the value it encodes) or a list of
    strings; expiry is not modelled, so an expired key is simply one that is absent. */
module RedisCache {
  import opened Strings
  import opened Py

  /** The clock readings a call uses: `str(datetime.now().timestamp())` and `datetime.now().isoformat()`. */
  datatype Clock = Clock(stamp: string, iso: string)

  datatype Entry = Record(value: Value) | Items(ids: seq<string>)

  /** `connected`: a client exists and the server answered its ping. */
  datatype CacheState = CacheState(connected: bool, sessionId: Option<string>, db: map<string, Entry>)

  const NAMESPACE := "voice_browser_agent:"

  /** Every session key: the namespace, the session id, a colon, then the key. */
  function Key(sessionId: string, key: string): (r: string)
    ensures StartsWith(r, NAMESPACE + sessionId + ":")
    ensures |r| == |NAMESPACE| + |sessionId| + 1 + |key| && r[|NAMESPACE| + |sessionId| + 1..] == key
  {
    var r := NAMESPACE + sessionId + ":" + key;
    assert r[..|NAMESPACE + sessionId + ":"|] == NAMESPACE + sessionId + ":";
    r
  }

  /** Within one session, distinct keys get distinct full keys. */
  lemma KeyInjective(sessionId: string, a: string, b: string)
    requires Key(sessionId, a) == Key(sessionId, b)
    ensures a == b
  {
    var n := |NAMESPACE| + |sessionId| + 1;
    assert a == Key(sessionId, a)[n..];
  }

  /** Every operation needs a session id (`not self.session_id` refuses None and "") and a client;
      without either, a store raises inside its own `try` and the error is only logged. */
  predicate Active(s: CacheState) {
    s.connected && s.sessionId.Some? && s.sessionId.value != ""
  }

  const MAX_TURNS := 50

  /** The list under `key`, or the empty list Redis reports for a missing key. */
  function ListAt(db: map<string, Entry>, key: string): seq<string> {
    if key in db && db[key].Items? then db[key].ids else []
  }

  /** LPUSH: fails with WRONGTYPE when the key holds a record. */
  function Push(db: map<string, Entry>, key: string, id: string): (r: Option<map<string, Entry>>)
    ensures r.None? <==> key in db && db[key].Record?
    ensures r.Some? ==> r.value == db[key := Items([id] + ListAt(db, key))]
  {
    if key in db && db[key].Record? then None else Some(db[key := Items([id] + ListAt(db, key))])
  }

  /** LTRIM key 0 49: keep the 50 newest entries. */
  function Trim(db: map<string, Entry>, key: string): map<string, Entry>
    requires key in db && db[key].Items?
  {
    var ids := db[key].ids;
    db[key := Items(if |ids| <= MAX_TURNS then ids else ids[..MAX_TURNS])]
  }

  /** `store_conversation_turn`: the record goes under `conversation:<turn_id>` with a fresh
      timestamp, then its id is pushed at the head of `conversation_list`, which is cut to 50. */
  function StoreTurnSpec(s: CacheState, turn: Value, clock: Clock): CacheState {
    if !Active(s) || !turn.Dict? then s
    else
      var sid := s.sessionId.value;
      var id := ToStr(FieldOr(turn, "turn_id", Str("turn_" + clock.stamp)));
      var db := s.db[Key(sid, "conversation:" + id) := Record(Assign(turn, "timestamp", Str(clock.iso)))];
      var listKey := Key(sid, "conversation_list");
      match Push(db, listKey, id)
      case None => s.(db := db)
      case Some(pushed) => s.(db := Trim(pushed, listKey))
  }

  /** `store_browser_state`. */
  function StoreBrowserSpec(s: CacheState, state: Value, clock: Clock): CacheState {
    if !Active(s) || !state.Dict? then s
    else s.(db := s.db[Key(s.sessionId.value, "browser_state") := Record(Assign(state, "timestamp", Str(clock.iso)))])
  }

  /** The caller's dict after `store_extracted_data` or `store_workflow_state`: both write the
      time and a tag into the dict they were given, in place, once the session id check has passed
      and before the write to Redis is attempted. */
  function Tagged(s: CacheState, data: Value, clock: Clock, tag: string, tagValue: Value): (r: Value)
    ensures data.Dict? ==> r.Dict?
    ensures !data.Dict? || s.sessionId.None? || s.sessionId.value == "" ==> r == data
  {
    if s.sessionId.Some? && s.sessionId.value != "" && data.Dict?
    then Assign(Assign(data, "timestamp", Str(clock.iso)), tag, tagValue)
    else data
  }

  /** `store_extracted_data`: the record, tagged with its type, under `extracted_data:<type>`, and
      `<type>:<time>` pushed on `extracted_data_list`. */
  function StoreExtractedSpec(s: CacheState, data: Value, dataType: Value, clock: Clock): CacheState {
    if !Active(s) || !data.Dict? then s
    else
      var sid := s.sessionId.value;
      var db := s.db[Key(sid, "extracted_data:" + ToStr(dataType)) := Record(Tagged(s, data, clock, "data_type", dataType))];
      match Push(db, Key(sid, "extracted_data_list"), ToStr(dataType) + ":" + clock.stamp)
      case None => s.(db := db)
      case Some(pushed) => s.(db := pushed)
  }

  /** `store_workflow_state`: the record, tagged with its id, under `workflow:<id>`. */
  function StoreWorkflowSpec(s: CacheState, workflowId: string, state: Value, clock: Clock): CacheState {
    if !Active(s) || !state.Dict? then s
    else s.(db := s.db[Key(s.sessionId.value, "workflow:" + workflowId) := Record(Tagged(s, state, clock, "workflow_id", Str(workflowId)))])
  }

  /** LRANGE key 0 (limit - 1), with Redis's reading of a negative end index as counted from the
      end: a limit of 0 asks for the whole list. */
  function Range(ids: seq<string>, limit: int): (r: seq<string>)
    ensures limit >= 1 ==> r == ids[..if limit < |ids| then limit else |ids|]
    ensures limit == 0 ==> r == ids
  {
    var stop := if limit - 1 < 0 then |ids| + limit - 1 else limit - 1;
    if stop < 0 then [] else ids[..if stop + 1 < |ids| then stop + 1 else |ids|]
  }

  /** The records of `ids` in order, skipping missing ones; None when a GET meets a list (WRONGTYPE). */
  function Collect(db: map<string, Entry>, sessionId: string, ids: seq<string>): Option<seq<Value>> {
    if ids == [] then Some([])
    else
      match Collect(db, sessionId, ids[..|ids| - 1])
      case None => None
      case Some(turns) =>
        var key := Key(sessionId, "conversation:" + ids[|ids| - 1]);
        if key !in db then Some(turns)
        else if db[key].Items? then None
        else Some(turns + [db[key].value])
  }

  function BrowserStateSpec(s: CacheState): Value {
    if !Active(s) then Null
    else
      var key := Key(s.sessionId.value, "browser_state");
      if key in s.db && s.db[key].Record? then s.db[key].value else Null
  }

  /** What `store_browser_state` wrote is what `get_browser_state` reads back, stamped. */
  lemma BrowserStateRoundTrip(s: CacheState, state: Value, clock: Clock)
    requires Active(s) && state.Dict?
    ensures BrowserStateSpec(StoreBrowserSpec(s, state, clock)) == Assign(state, "timestamp", Str(clock.iso))
  {
  }

  /** `get_conversation_history`, with every failure turned into []. */
  function HistorySpec(s: CacheState, limit: int): seq<Value> {
    if !Active(s) then []
    else
      var sid := s.sessionId.value;
      var listKey := Key(sid, "conversation_list");
      if listKey in s.db && s.db[listKey].Record? then []
      else
        match Collect(s.db, sid, Range(ListAt(s.db, listKey), limit))
        case None => []
        case Some(turns) => turns
  }

  lemma CollectOne(db: map<string, Entry>, sessionId: string, id: string)
    ensures var key := Key(sessionId, "conversation:" + id);
      Collect(db, sessionId, [id]) == if key !in db then Some([]) else if db[key].Items? then None else Some([db[key].value])
  {
    var ids := [id];
    assert ids[..|ids| - 1] == [];
    assert Collect(db, sessionId, []) == Some([]);
    var key := Key(sessionId, "conversation:" + id);
    if key in db && db[key].Record? {
      assert [] + [db[key].value] == [db[key].value];
    }
  }

  /** Once a GET has failed, reading further ids cannot recover. */
  lemma {:induction false} CollectStaysFailed(db: map<string, Entry>, sessionId: string, ids: seq<string>, n: nat)
    requires n <= |ids| && Collect(db, sessionId, ids[..n]).None?
    ensures Collect(db, sessionId, ids).None?
  {
    if n < |ids| {
      assert ids[..|ids| - 1][..n] == ids[..n];
      CollectStaysFailed(db, sessionId, ids[..|ids| - 1], n);
    } else {
      assert ids[..n] == ids;
    }
  }

  /** At most one record per id, so a limit of at least 1 bounds the history. */
  lemma {:induction false} CollectBound(db: map<string, Entry>, sessionId: string, ids: seq<string>)
    ensures Collect(db, sessionId, ids).Some? ==> |Collect(db, sessionId, ids).value| <= |ids|
  {
    if ids != [] {
      CollectBound(db, sessionId, ids[..|ids| - 1]);
    }
  }

  lemma HistoryBound(s: CacheState, limit: int)
    requires limit >= 1
    ensures |HistorySpec(s, limit)| <= limit
  {
    if Active(s) {
      var sid := s.sessionId.value;
      var listKey := Key(sid, "conversation_list");
      CollectBound(s.db, sid, Range(ListAt(s.db, listKey), limit));
    }
  }

  /** The conversation key and the list key never coincide. */
  lemma TurnKeyIsNotListKey(sessionId: string, id: string)
    ensures Key(sessionId, "conversation:" + id) != Key(sessionId, "conversation_list")
  {
    var n := |NAMESPACE| + |sessionId| + 1;
    assert Key(sessionId, "conversation:" + id)[n + 12] == ':';
    assert Key(sessionId, "conversation_list")[n + 12] == '_';
  }

  /** After a turn is stored, its id heads the conversation list, which holds at most 50 ids, and
      the rest of the list is the previous list minus whatever fell off the end. */
  lemma StoredTurnHeadsList(s: CacheState, turn: Value, clock: Clock)
    requires Active(s) && turn.Dict?
    requires var listKey := Key(s.sessionId.value, "conversation_list");
             !(listKey in s.db && s.db[listKey].Record?)
    ensures var listKey := Key(s.sessionId.value, "conversation_list");
      var after := ListAt(StoreTurnSpec(s, turn, clock).db, listKey);
      var id := ToStr(FieldOr(turn, "turn_id", Str("turn_" + clock.stamp)));
      && 1 <= |after| <= MAX_TURNS && after[0] == id
      && after[1..] == ListAt(s.db, listKey)[..|after| - 1]
  {
    var sid := s.sessionId.value;
    var id := ToStr(FieldOr(turn, "turn_id", Str("turn_" + clock.stamp)));
    TurnKeyIsNotListKey(sid, id);
  }

  /** Reading the history back with limit 1 right after storing a turn gives that turn, stamped. */
  lemma StoreThenHistory(s: CacheState, turn: Value, clock: Clock)
    requires Active(s) && turn.Dict?
    requires var listKey := Key(s.sessionId.value, "conversation_list");
             !(listKey in s.db && s.db[listKey].Record?)
    ensures HistorySpec(StoreTurnSpec(s, turn, clock), 1) == [Assign(turn, "timestamp", Str(clock.iso))]
  {
    var sid := s.sessionId.value;
    var id := ToStr(FieldOr(turn, "turn_id", Str("turn_" + clock.stamp)));
    TurnKeyIsNotListKey(sid, id);
    StoredTurnHeadsList(s, turn, clock);
    var t := StoreTurnSpec(s, turn, clock);
    var listKey := Key(sid, "conversation_list");
    var ids := ListAt(t.db, listKey);
    assert Range(ids, 1) == [id];
    var key := Key(sid, "conversation:" + id);
    assert key in t.db && t.db[key] == Record(Assign(turn, "timestamp", Str(clock.iso)));
    CollectOne(t.db, sid, id);
  }

  /** The stored extraction record carries its type and the time, and keeps every other field. */
  lemma ExtractedRecordTagged(s: CacheState, data: Value, dataType: Value, clock: Clock, other: string)
    requires Active(s) && data.Dict?
    ensures var key := Key(s.sessionId.value, "extracted_data:" + ToStr(dataType));
      var db := StoreExtractedSpec(s, data, dataType, clock).db;
      key in db && db[key].Record? && db[key].value.Dict?
      && Field(db[key].value, "data_type") == dataType
      && Field(db[key].value, "timestamp") == Str(clock.iso)
      && (other != "data_type" && other != "timestamp" ==> Field(db[key].value, other) == Field(data, other))
  {
    var sid := s.sessionId.value;
    var key := Key(sid, "extracted_data:" + ToStr(dataType));
    var listKey := Key(sid, "extracted_data_list");
    var n := |NAMESPACE| + |sid| + 1;
    assert key[n + 14] == ':' && listKey[n + 14] == '_';
    var stamped := Assign(data, "timestamp", Str(clock.iso));
    PutLookup(data.fields, "timestamp", Str(clock.iso), other);
    PutLookup(stamped.fields, "data_type", dataType, other);
    PutLookup(stamped.fields, "data_type", dataType, "timestamp");
  }

  /** The stored workflow record carries its id and the time, and keeps every other field. */
  lemma WorkflowRecordTagged(s: CacheState, workflowId: string, state: Value, clock: Clock, other: string)
    requires Active(s) && state.Dict?
    ensures var key := Key(s.sessionId.value, "workflow:" + workflowId);
      var db := StoreWorkflowSpec(s, workflowId, state, clock).db;
      key in db && db[key].Record? && db[key].value.Dict?
      && Field(db[key].value, "workflow_id") == Str(workflowId)
      && Field(db[key].value, "timestamp") == Str(clock.iso)
      && (other != "workflow_id" && other != "timestamp" ==> Field(db[key].value, other) == Field(state, other))
  {
    var stamped := Assign(state, "timestamp", Str(clock.iso));
    PutLookup(state.fields, "timestamp", Str(clock.iso), other);
    PutLookup(stamped.fields, "workflow_id", Str(workflowId), other);
    PutLookup(stamped.fields, "workflow_id", Str(workflowId), "timestamp");
  }

  /** The keys `KEYS voice_browser_agent:<id>:*` returns. */
  function SessionKeys(db: map<string, Entry>, sessionId: string): set<string> {
    set k | k in db && StartsWith(k, Key(sessionId, ""))
  }

  /** `clear_session`: delete every key of the session; other sessions' keys stay. */
  function ClearSpec(s: CacheState): (r: CacheState)
    ensures Active(s) ==> forall k :: k in r.db <==> k in s.db && k !in SessionKeys(s.db, s.sessionId.value)
    ensures forall k :: k in r.db ==> k in s.db && r.db[k] == s.db[k]
  {
    if !Active(s) then s
    else s.(db := map k | k in s.db && k !in SessionKeys(s.db, s.sessionId.value) :: s.db[k])
  }

  /** Once the session is cleared, its history is empty. */
  lemma ClearedHistoryEmpty(s: CacheState, limit: int)
    ensures Active(s) ==> HistorySpec(ClearSpec(s), limit) == []
  {
    if Active(s) {
      var sid := s.sessionId.value;
      var listKey := Key(sid, "conversation_list");
      assert listKey in SessionKeys(s.db, sid) || listKey !in s.db;
      assert Range([], limit) == [];
    }
  }

  datatype Category = Conversation | Extracted | Workflow | Other

  /** The counter a key goes to, checked in a fixed order. */
  function CategoryOf(key: string): (r: Category)
    ensures r == Conversation <==> Contains(key, "conversation:")
    ensures r == Extracted <==> !Contains(key, "conversation:") && Contains(key, "extracted_data:")
    ensures r == Workflow <==> !Contains(key, "conversation:") && !Contains(key, "extracted_data:") && Contains(key, "workflow:")
  {
    if Contains(key, "conversation:") then Conversation
    else if Contains(key, "extracted_data:") then Extracted
    else if Contains(key, "workflow:") then Workflow
    else Other
  }

  /** How many of `keys` fall in class `c` of the classification `f`. */
  function CountIn(keys: set<string>, f: string -> Category, c: Category): nat {
    |set k | k in keys && f(k) == c|
  }

  function CountOf(keys: set<string>, c: Category): nat {
    CountIn(keys, CategoryOf, c)
  }

  /** `get_session_stats`. */
  function StatsSpec(s: CacheState): Value {
    if !Active(s) then EMPTY
    else
      var keys := SessionKeys(s.db, s.sessionId.value);
      Dict([("total_keys", Int(|keys|)),
            ("conversation_turns", Int(CountOf(keys, Conversation))),
            ("extracted_data_types", Int(CountOf(keys, Extracted))),
            ("workflows", Int(CountOf(keys, Workflow)))])
  }

  /** The categories split the session's keys, so their counts add up to at most the total. */
  lemma CategoriesPartition(keys: set<string>)
    ensures CountOf(keys, Conversation) + CountOf(keys, Extracted) + CountOf(keys, Workflow) + CountOf(keys, Other) == |keys|
  {
    ClassesPartition(keys, CategoryOf);
  }

  /** Sorting a set by any classification gives four disjoint classes that make up the set. */
  lemma ClassesPartition(keys: set<string>, f: string -> Category)
    ensures CountIn(keys, f, Conversation) + CountIn(keys, f, Extracted) + CountIn(keys, f, Workflow) + CountIn(keys, f, Other) == |keys|
  {
    var c := set k | k in keys && f(k) == Conversation;
    var e := set k | k in keys && f(k) == Extracted;
    var w := set k | k in keys && f(k) == Workflow;
    var o := set k | k in keys && f(k) == Other;
    assert keys == c + e + w + o;
    assert c !! e && c !! w && c !! o && e !! w && e !! o && w !! o;
    assert |c + e| == |c| + |e|;
    assert |c + e + w| == |c + e| + |w|;
  }

  class Cache {
    var connected: bool
    var sessionId: Option<string>
    var db: map<string, Entry>

    function State(): CacheState
      reads this
    {
      CacheState(connected, sessionId, db)
    }

    /** A client that has not connected yet, over the server's current contents. */
    constructor (server: map<string, Entry>)
      ensures State() == CacheState(false, None, server)
    {
      connected := false;
      sessionId := None;
      db := server;
    }

    /** `connect`: the ping either answers or the error propagates to the caller. */
    method Connect(reachable: bool) returns (r: Result<bool>)
      modifies this
      ensures State() == old(State()).(connected := reachable)
      ensures r.Ok? <==> reachable
    {
      connected := reachable;
      if reachable {
        r := Ok(true);
      } else {
        r := Raise("Error connecting to Redis");
      }
    }

    method Disconnect()
      modifies this
      ensures State() == old(State()).(connected := false)
    {
      connected := false;
    }

    method SetSessionId(id: string)
      modifies this
      ensures State() == old(State()).(sessionId := Some(id))
    {
      sessionId := Some(id);
    }

    method StoreConversationTurn(turn: Value, clock: Clock)
      modifies this
      ensures State() == StoreTurnSpec(old(State()), turn, clock)
    {
      if sessionId.None? || sessionId.value == "" || !connected || !turn.Dict? {
        return;
      }
      var sid := sessionId.value;
      var id := ToStr(FieldOr(turn, "turn_id", Str("turn_" + clock.stamp)));
      db := db[Key(sid, "conversation:" + id) := Record(Assign(turn, "timestamp", Str(clock.iso)))];
      var listKey := Key(sid, "conversation_list");
      var pushed := Push(db, listKey, id);
      if pushed.None? {
        return;
      }
      db := pushed.value;
      db := Trim(db, listKey);
    }

    method StoreBrowserState(state: Value, clock: Clock)
      modifies this
      ensures State() == StoreBrowserSpec(old(State()), state, clock)
    {
      if sessionId.None? || sessionId.value == "" || !connected || !state.Dict? {
        return;
      }
      db := db[Key(sessionId.value, "browser_state") := Record(Assign(state, "timestamp", Str(clock.iso)))];
    }

    /** Returns the caller's dict as the store leaves it. */
    method StoreExtractedData(data: Value, dataType: Value, clock: Clock) returns (stamped: Value)
      modifies this
      ensures stamped == Tagged(old(State()), data, clock, "data_type", dataType)
      ensures State() == StoreExtractedSpec(old(State()), data, dataType, clock)
    {
      if sessionId.None? || sessionId.value == "" || !data.Dict? {
        return data;
      }
      var sid := sessionId.value;
      stamped := Assign(data, "timestamp", Str(clock.iso));
      stamped := Assign(stamped, "data_type", dataType);
      if !connected {
        return;
      }
      db := db[Key(sid, "extracted_data:" + ToStr(dataType)) := Record(stamped)];
      var pushed := Push(db, Key(sid, "extracted_data_list"), ToStr(dataType) + ":" + clock.stamp);
      if pushed.Some? {
        db := pushed.value;
      }
    }

    /** Returns the caller's dict as the store leaves it. */
    method StoreWorkflowState(workflowId: string, state: Value, clock: Clock) returns (stamped: Value)
      modifies this
      ensures stamped == Tagged(old(State()), state, clock, "workflow_id", Str(workflowId))
      ensures State() == StoreWorkflowSpec(old(State()), workflowId, state, clock)
    {
      if sessionId.None? || sessionId.value == "" || !state.Dict? {
        return state;
      }
      stamped := Assign(state, "timestamp", Str(clock.iso));
      stamped := Assign(stamped, "workflow_id", Str(workflowId));
      if !connected {
        return;
      }
      db := db[Key(sessionId.value, "workflow:" + workflowId) := Record(stamped)];
    }

    /** `get_browser_state`: the stored record, or None; reading a list there raises WRONGTYPE,
        which is caught. */
    method GetBrowserState() returns (state: Value)
      ensures state == BrowserStateSpec(State())
    {
      if sessionId.None? || sessionId.value == "" || !connected {
        return Null;
      }
      var key := Key(sessionId.value, "browser_state");
      if key in db && db[key].Record? {
        return db[key].value;
      }
      return Null;
    }

    /** The history loop: fetch each listed id's record in list order. */
    method GetConversationHistory(limit: int) returns (turns: seq<Value>)
      ensures turns == HistorySpec(State(), limit)
    {
      if sessionId.None? || sessionId.value == "" || !connected {
        return [];
      }
      var sid := sessionId.value;
      var listKey := Key(sid, "conversation_list");
      if listKey in db && db[listKey].Record? {
        return [];
      }
      var ids := Range(ListAt(db, listKey), limit);
      turns := [];
      var i := 0;
      while i < |ids|
        invariant 0 <= i <= |ids|
        invariant Collect(db, sid, ids[..i]) == Some(turns)
      {
        assert ids[..i + 1][..i] == ids[..i];
        var key := Key(sid, "conversation:" + ids[i]);
        if key in db {
          if db[key].Items? {
            CollectStaysFailed(db, sid, ids, i + 1);
            return [];
          }
          turns := turns + [db[key].value];
        }
        i := i + 1;
      }
      assert ids[..i] == ids;
    }

    method ClearSession()
      modifies this
      ensures State() == ClearSpec(old(State()))
    {
      if sessionId.None? || sessionId.value == "" || !connected {
        return;
      }
      var keys := SessionKeys(db, sessionId.value);
      db := map k | k in db && k !in keys :: db[k];
    }

    method GetSessionStats() returns (stats: Value)
      ensures stats == StatsSpec(State())
    {
      if sessionId.None? || sessionId.value == "" || !connected {
        return EMPTY;
      }
      var keys := SessionKeys(db, sessionId.value);
      var conversations, extracted, workflows := CountCategories(keys);
      stats := Dict([("total_keys", Int(|keys|)),
                     ("conversation_turns", Int(conversations)),
                     ("extracted_data_types", Int(extracted)),
                     ("workflows", Int(workflows))]);
    }
  }

  /** The counting loop of `get_session_stats`, over the keys in whatever order KEYS gives them. */
  method CountCategories(keys: set<string>) returns (conversations: nat, extracted: nat, workflows: nat)
    ensures conversations == CountOf(keys, Conversation)
    ensures extracted == CountOf(keys, Extracted)
    ensures workflows == CountOf(keys, Workflow)
  {
    conversations, extracted, workflows := 0, 0, 0;
    var rest := keys;
    ghost var seen: set<string> := {};
    while rest != {}
      invariant rest + seen == keys && rest !! seen
      invariant conversations == CountOf(seen, Conversation)
      invariant extracted == CountOf(seen, Extracted)
      invariant workflows == CountOf(seen, Workflow)
      decreases |rest|
    {
      var key :| key in rest;
      assert key !in seen;
      var category := CategoryOf(key);
      CountOfStep(seen, key);
      MoveKey(rest, seen, keys, key);
      match category {
        case Conversation => conversations := conversations + 1;
        case Extracted => extracted := extracted + 1;
        case Workflow => workflows := workflows + 1;
        case Other =>
      }
      rest := rest - {key};
      seen := seen + {key};
    }
  }

  /** Moving one key from the keys left to the keys seen keeps them a split of all the keys. */
  lemma MoveKey(rest: set<string>, seen: set<string>, keys: set<string>, key: string)
    requires rest + seen == keys && rest !! seen && key in rest
    ensures (rest - {key}) + (seen + {key}) == keys && (rest - {key}) !! (seen + {key})
  {
  }

  /** Adding one key to the keys seen adds one to the count of its own category only. */
  lemma CountOfStep(seen: set<string>, key: string)
    requires key !in seen
    ensures CountOf(seen + {key}, Conversation) == CountOf(seen, Conversation) + if CategoryOf(key) == Conversation then 1 else 0
    ensures CountOf(seen + {key}, Extracted) == CountOf(seen, Extracted) + if CategoryOf(key) == Extracted then 1 else 0
    ensures CountOf(seen + {key}, Workflow) == CountOf(seen, Workflow) + if CategoryOf(key) == Workflow then 1 else 0
  {
    CountStep(seen, CategoryOf, key, Conversation);
    CountStep(seen, CategoryOf, key, Extracted);
    CountStep(seen, CategoryOf, key, Workflow);
  }

  /** Visiting one more key adds one to its own class's count and nothing to the others. */
  lemma CountStep(seen: set<string>, f: string -> Category, key: string, c: Category)
    requires key !in seen
    ensures CountIn(seen + {key}, f, c) == CountIn(seen, f, c) + if f(key) == c then 1 else 0
  {
    var before := set k | k in seen && f(k) == c;
    var after := set k | k in seen + {key} && f(k) == c;
    if f(key) == c {
      assert after == before + {key};
    } else {
      assert after == before;
    }
  }
}
