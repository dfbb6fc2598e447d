// The reader of a replay inverts its writer: nothing of a thread is lost between
// being serialised here and being rebuilt there.

module ReplayLaws {
  import opened Wrappers
  import opened ThreadModel
  import opened Replay
  import S = ServerThread
  import B = BrowserThread

  // ===== Reading back what was written =====

  // The browser's picture of a server entry at a position.
  function Shown(e: S.Entry, index: nat): B.Entry {
    match e
    case User(_, protocolId, isOptimistic, content) =>
      B.User(B.Placed("user", index), content, isOptimistic, protocolId)
    case Assistant(_, chunks) => B.Assistant(B.Placed("assistant", index), chunks)
    case Tool(call) => B.Tool(call.id, B.CardCall(call, None))
    case Asked(asked) => B.Asked(B.Placed("elicitation", index), asked)
  }

  function Viewed(t: S.ThreadState): B.ThreadState {
    B.ThreadState(seq(|t.entries|, i requires 0 <= i < |t.entries| => Shown(t.entries[i], i)),
                  t.plan, t.status, t.stopReason, t.usage, t.availableCommands, t.modes, t.configOptions)
  }

  lemma {:induction false} AllReadable<T>(items: seq<Json>, read: Json -> Option<T>, xs: seq<T>)
    requires |items| == |xs|
    requires forall i | 0 <= i < |items| :: read(items[i]) == Some(xs[i])
    ensures Readable(items, read) == xs
  {
    if items != [] {
      var n := |items| - 1;
      AllReadable(items[..n], read, xs[..n]);
      assert xs == xs[..n] + [xs[n]];
    }
  }

  lemma BlocksRead(content: seq<ContentBlock>)
    ensures AsBlocks(AsArray(Some(BlocksJson(content)))) == content
  {
  }

  lemma ChunkRead(c: Chunk)
    ensures ToChunk(ChunkJson(c)) == Some(c)
  {
    BlocksRead(c.content);
    assert "thought"[0] != "message"[0];
  }

  lemma CallNames(c: ToolCall)
    ensures var json := JObj(CallFields(c));
            && Get(json, KId) == Some(JStr(c.id)) && Get(json, KTitle) == Some(JStr(c.title))
            && Get(json, KKind) == Some(JStr(c.kind)) && Get(json, KStatus) == Some(JStr(c.status))
  {
  }

  lemma CallParts(c: ToolCall)
    ensures var json := JObj(CallFields(c));
            && AsArray(Get(json, KContent)) == c.content && AsArray(Get(json, KLocations)) == c.locations
            && Get(json, KRawInput) == c.rawInput && Get(json, KRawOutput) == c.rawOutput
  {
  }

  lemma CallRead(c: ToolCall)
    ensures ToToolCall(EntryJson(S.Tool(c))) == Some(c)
  {
    CallNames(c);
    CallParts(c);
  }

  lemma StateRead(s: ElicitationState)
    ensures ToState(Some(StateName(s))) == s
  {
    assert "accepted"[0] != "declined"[0] && "accepted"[0] != "pending"[0];
  }

  lemma QuestionFields(a: Elicitation)
    ensures var json := JObj(AskedFields(a));
            && Get(json, KType) == Some(JStr("elicitation")) && Get(json, KId) == Some(JStr(a.id))
            && Get(json, KRequestId) == Some(IdJson(a.requestId)) && Get(json, KMessage) == Some(JStr(a.message))
            && Get(json, KState) == Some(JStr(StateName(a.state))) && Get(json, KToolCallId) == Str(a.toolCallId)
            && Get(json, KContent) == (if a.content.Some? then Some(JObj(a.content.value)) else None)
  {
  }

  lemma QuestionMode(a: Elicitation)
    ensures ToMode(JObj(AskedFields(a))) == Some(a.mode)
  {
    match a.mode
    case Form(schema) =>
      var json := JObj(AskedFields(a));
      assert Get(json, KMode) == Some(JStr("form")) && Get(json, KRequestedSchema) == Some(JObj(schema));
    case Url(id, url) =>
      var json := JObj(AskedFields(a));
      assert Get(json, KMode) == Some(JStr("url")) && Get(json, KElicitationId) == Some(JStr(id));
      assert Get(json, KUrl) == Some(JStr(url));
  }

  lemma QuestionRead(a: Elicitation)
    ensures ToElicitation(EntryJson(S.Asked(a))) == Some(a)
  {
    QuestionFields(a);
    QuestionMode(a);
    StateRead(a.state);
  }

  // A request id that is neither a string nor a number, a null one among them,
  // leaves the question out, and nothing else about the id does.
  lemma QuestionDropped(a: Elicitation, requestId: Json)
    ensures ToElicitation(JObj(AskedFields(a)[KRequestId := requestId])).Some? <==> requestId.JStr? || requestId.JNum?
  {
    var json := JObj(AskedFields(a)[KRequestId := requestId]);
    assert Get(json, KId) == Some(JStr(a.id)) && Get(json, KMessage) == Some(JStr(a.message));
    match a.mode
    case Form(schema) => assert Get(json, KMode) == Some(JStr("form"))
        && Get(json, KRequestedSchema) == Some(JObj(schema));
    case Url(id, url) =>
      assert Get(json, KMode) == Some(JStr("url")) && Get(json, KElicitationId) == Some(JStr(id));
      assert Get(json, KUrl) == Some(JStr(url));
  }

  lemma ChunksRead(chunks: seq<Chunk>)
    ensures Readable(seq(|chunks|, i requires 0 <= i < |chunks| => ChunkJson(chunks[i])), ToChunk) == chunks
  {
    forall i | 0 <= i < |chunks|
      ensures ToChunk(ChunkJson(chunks[i])) == Some(chunks[i])
    {
      ChunkRead(chunks[i]);
    }
    AllReadable(seq(|chunks|, i requires 0 <= i < |chunks| => ChunkJson(chunks[i])), ToChunk, chunks);
  }

  // An entry before it is given its position.
  function Unplaced(e: S.Entry): B.Entry {
    match e
    case User(_, protocolId, isOptimistic, content) => B.User("", content, isOptimistic, protocolId)
    case Assistant(_, chunks) => B.Assistant("", chunks)
    case Tool(call) => B.Tool(call.id, B.CardCall(call, None))
    case Asked(asked) => B.Asked(asked.id, asked)
  }

  lemma TypesDiffer()
    ensures "user" != "assistant" && "user" != "toolCall" && "user" != "elicitation"
    ensures "assistant" != "toolCall" && "assistant" != "elicitation" && "toolCall" != "elicitation"
  {
  }

  lemma UserRead(e: S.Entry)
    requires e.User?
    ensures ToEntry(EntryJson(e)) == Some(Unplaced(e))
  {
    BlocksRead(e.content);
    var json := JObj(UserFields(e));
    assert Get(json, KType) == Some(JStr("user")) && Get(json, KContent) == Some(BlocksJson(e.content));
    assert Get(json, KProtocolId) == Str(e.protocolId);
    assert Get(json, KIsOptimistic) == Some(JBool(e.isOptimistic));
  }

  lemma MessageRead(e: S.Entry)
    requires e.Assistant?
    ensures ToEntry(EntryJson(e)) == Some(Unplaced(e))
  {
    TypesDiffer();
    ChunksRead(e.chunks);
    assert Get(EntryJson(e), KType) == Some(JStr("assistant"));
  }

  lemma ToolRead(e: S.Entry)
    requires e.Tool?
    ensures ToEntry(EntryJson(e)) == Some(Unplaced(e))
  {
    TypesDiffer();
    CallRead(e.call);
    assert Get(EntryJson(e), KType) == Some(JStr("toolCall"));
  }

  lemma AskedRead(e: S.Entry)
    requires e.Asked?
    ensures ToEntry(EntryJson(e)) == Some(Unplaced(e))
  {
    TypesDiffer();
    QuestionRead(e.asked);
    QuestionFields(e.asked);
  }

  lemma EntryRead(e: S.Entry)
    ensures ToEntry(EntryJson(e)) == Some(Unplaced(e))
  {
    match e
    case User(_, _, _, _) => UserRead(e);
    case Assistant(_, _) => MessageRead(e);
    case Tool(_) => ToolRead(e);
    case Asked(_) => AskedRead(e);
  }

  lemma UsageRead(u: Usage)
    ensures ToUsage(Some(UsageJson(u))) == Some(u)
  {
  }

  lemma OptionRead(o: ConfigOption)
    ensures ToConfigOption(OptionJson(o)) == Some(o)
  {
    assert "select"[0] != "boolean"[0];
  }

  lemma OptionsRead(options: seq<ConfigOption>)
    ensures Readable(OptionsJson(options), ToConfigOption) == options
  {
    forall i | 0 <= i < |options|
      ensures ToConfigOption(OptionsJson(options)[i]) == Some(options[i])
    {
      OptionRead(options[i]);
    }
    AllReadable(OptionsJson(options), ToConfigOption, options);
  }

  lemma StopRead(r: StopReason)
    ensures ToStopReason(Some(StopName(r))) == Some(r)
  {
  }

  lemma StatusRead(s: Status)
    ensures ToStatus(Some(StatusName(s))) == s
  {
  }

  lemma ListsKept(t: S.ThreadState)
    ensures var json := JObj(ListFields(t));
            && AsArray(Get(json, KEntries)) == EntriesJson(t.entries)
            && AsArray(Get(json, KPlan)) == t.plan
            && AsArray(Get(json, KAvailableCommands)) == t.availableCommands
            && AsArray(Get(json, KConfigOptions)) == OptionsJson(t.configOptions)
            && Get(json, KStopReason).None? && Get(json, KUsage).None? && Get(json, KModes).None?
  {
  }

  lemma SettingsKept(t: S.ThreadState)
    ensures var json, lists := Serialised(t), JObj(ListFields(t));
            && Get(json, KEntries) == Get(lists, KEntries) && Get(json, KPlan) == Get(lists, KPlan)
            && Get(json, KAvailableCommands) == Get(lists, KAvailableCommands)
            && Get(json, KConfigOptions) == Get(lists, KConfigOptions)
            && Get(json, KStatus) == Some(JStr(StatusName(t.status)))
  {
  }

  lemma StopKept(t: S.ThreadState)
    ensures ToStopReason(AsString(Get(Serialised(t), KStopReason))) == t.stopReason
  {
    ListsKept(t);
    if t.stopReason.Some? {
      StopRead(t.stopReason.value);
    }
  }

  lemma UsageAndModesKept(t: S.ThreadState)
    ensures ToUsage(Get(Serialised(t), KUsage)) == t.usage
    ensures ToModes(Get(Serialised(t), KModes)) == t.modes
  {
    ListsKept(t);
    if t.usage.Some? {
      UsageRead(t.usage.value);
    }
  }

  lemma EntriesRead(t: S.ThreadState)
    ensures |Readable(EntriesJson(t.entries), ToEntry)| == |t.entries|
    ensures forall i | 0 <= i < |t.entries| :: Readable(EntriesJson(t.entries), ToEntry)[i] == Unplaced(t.entries[i])
  {
    var n := |t.entries|;
    var unplaced := seq(n, i requires 0 <= i < n => Unplaced(t.entries[i]));
    forall i | 0 <= i < n
      ensures ToEntry(EntriesJson(t.entries)[i]) == Some(unplaced[i])
    {
      assert t.entries[i] in t.entries;
      EntryRead(t.entries[i]);
    }
    AllReadable(EntriesJson(t.entries), ToEntry, unplaced);
  }

  lemma CollectionsKept(t: S.ThreadState)
    ensures AsArray(Get(Serialised(t), KEntries)) == EntriesJson(t.entries)
    ensures AsArray(Get(Serialised(t), KConfigOptions)) == OptionsJson(t.configOptions)
  {
    ListsKept(t);
    SettingsKept(t);
  }

  lemma EntriesKept(t: S.ThreadState)
    ensures ReadEntries(Serialised(t)) == Viewed(t).entries
  {
    CollectionsKept(t);
    var json := Serialised(t);
    ReadEntriesOf(json, t);
  }

  lemma ReadEntriesOf(json: Json, t: S.ThreadState)
    requires AsArray(Get(json, KEntries)) == EntriesJson(t.entries)
    ensures ReadEntries(json) == Viewed(t).entries
  {
    EntriesRead(t);
  }

  lemma ConfigKept(t: S.ThreadState)
    ensures Readable(AsArray(Get(Serialised(t), KConfigOptions)), ToConfigOption) == t.configOptions
  {
    CollectionsKept(t);
    OptionsRead(t.configOptions);
  }

  lemma PlainFieldsKept(t: S.ThreadState)
    ensures Serialised(t).JObj?
    ensures AsArray(Get(Serialised(t), KPlan)) == t.plan
    ensures AsArray(Get(Serialised(t), KAvailableCommands)) == t.availableCommands
    ensures ToStatus(AsString(Get(Serialised(t), KStatus))) == t.status
  {
    ListsKept(t);
    SettingsKept(t);
    StatusRead(t.status);
  }

  // The replay reader inverts the server's serialisation, position by position.
  lemma ReplayReads(t: S.ThreadState)
    ensures ThreadFromReplay(Serialised(t)) == Some(Viewed(t))
  {
    EntriesKept(t);
    PlainFieldsKept(t);
    StopKept(t);
    UsageAndModesKept(t);
    ConfigKept(t);
  }

  // Whatever arrives, every entry of the rebuilt thread but a tool call
  // carries the id the live reducer would have given that position.
  lemma ReplayRenumbers(payload: Json, i: nat)
    requires ThreadFromReplay(payload).Some? && i < |ThreadFromReplay(payload).value.entries|
    ensures var e := ThreadFromReplay(payload).value.entries[i];
            && (e.User? ==> e.id == B.Placed("user", i))
            && (e.Assistant? ==> e.id == B.Placed("assistant", i))
            && (e.Asked? ==> e.id == B.Placed("elicitation", i))
  {
    var readable := Readable(AsArray(Get(payload, KEntries)), ToEntry);
    assert ThreadFromReplay(payload).value.entries[i] == Renumber(readable[i], i);
  }
}
