// The browser's thread: the pure reducer of `web/src/acp/thread.ts`.

module BrowserThread {
  import opened Wrappers
  import opened ThreadModel
  import Decimal

  // The prompt waiting on a tool call is the browser's own; the protocol's
  // part of the call is `call`.
  datatype CardCall = CardCall(call: ToolCall, awaitingPermission: Option<Json>)

  datatype Entry =
    | User(id: string, content: seq<ContentBlock>, isOptimistic: bool, protocolId: Option<string>)
    | Assistant(id: string, chunks: seq<Chunk>)
    | Tool(id: string, toolCall: CardCall)
    | Asked(id: string, asked: Elicitation)

  datatype ThreadState = ThreadState(
    entries: seq<Entry>, plan: seq<Json>, status: Status, stopReason: Option<StopReason>,
    usage: Option<Usage>, availableCommands: seq<Json>, modes: Option<Modes>,
    configOptions: seq<ConfigOption>)

  const EMPTY := ThreadState([], [], Idle, None, None, [], None, [])

  // An id minted from the entry's position.
  function Placed(prefix: string, index: nat): string {
    prefix + "-" + Decimal.Print(index)
  }

  function Last(entries: seq<Entry>): Option<Entry> {
    if entries == [] then None else Some(entries[|entries| - 1])
  }

  function ReplaceLast(t: ThreadState, e: Entry): ThreadState
    requires t.entries != []
  {
    t.(entries := t.entries[..|t.entries| - 1] + [e])
  }

  function Append(t: ThreadState, e: Entry): ThreadState {
    t.(entries := t.entries + [e])
  }

  function AppendUserContent(t: ThreadState, content: ContentBlock, messageId: Option<string>): ThreadState {
    var started := Append(t, User(Placed("user", |t.entries|), [content], false, messageId));
    match Last(t.entries)
    case Some(User(id, shown, isOptimistic, protocolId)) =>
      if isOptimistic && (exists b | b in shown :: SameBlock(b, content)) && CanMerge(protocolId, messageId) then
        if protocolId.None? && messageId.Some? then
          ReplaceLast(t, User(id, shown, isOptimistic, messageId))
        else t
      else if !isOptimistic && CanMerge(protocolId, messageId) then
        ReplaceLast(t, User(id, shown + [content], isOptimistic, protocolId))
      else started
    case _ => started
  }

  function AppendAssistantChunk(t: ThreadState, kind: ChunkKind, content: ContentBlock,
                                messageId: Option<string>): ThreadState {
    match Last(t.entries)
    case Some(Assistant(id, chunks)) =>
      var n := |chunks|;
      if n > 0 && chunks[n - 1].kind == kind && CanMerge(chunks[n - 1].id, messageId) then
        var last := chunks[n - 1];
        var merged := Chunk(kind, if last.id.Some? then last.id else messageId, AppendContent(last.content, content));
        ReplaceLast(t, Assistant(id, chunks[n - 1 := merged]))
      else
        ReplaceLast(t, Assistant(id, chunks + [Chunk(kind, messageId, [content])]))
    case _ =>
      Append(t, Assistant(Placed("assistant", |t.entries|), [Chunk(kind, messageId, [content])]))
  }

  predicate IsCall(e: Entry, id: string) {
    e.Tool? && e.toolCall.call.id == id
  }

  // The position of the first entry for a call, or the length.
  function IndexOfCall(entries: seq<Entry>, id: string): (i: nat)
    ensures i <= |entries|
    ensures i < |entries| ==> IsCall(entries[i], id)
    ensures forall k | 0 <= k < i :: !IsCall(entries[k], id)
  {
    if entries == [] || IsCall(entries[0], id) then 0 else 1 + IndexOfCall(entries[1..], id)
  }

  function UpsertToolCall(t: ThreadState, call: ToolCall): ThreadState {
    var i := IndexOfCall(t.entries, call.id);
    if i == |t.entries| then Append(t, Tool(call.id, CardCall(call, None)))
    else
      var existing := t.entries[i];
      t.(entries := t.entries[i := existing.(toolCall := CardCall(call, existing.toolCall.awaitingPermission))])
  }

  function UpdateToolCall(t: ThreadState, id: string, f: ToolCallFields): ThreadState {
    var i := IndexOfCall(t.entries, id);
    if i == |t.entries| then UpsertToolCall(t, FromFields(id, f))
    else
      var existing := t.entries[i];
      var was := existing.toolCall.call;
      var merged := ToolCall(was.id, OrElse(f.title, was.title), OrElse(f.kind, was.kind),
                             OrElse(f.status, was.status), OrElse(f.content, was.content),
                             OrElse(f.locations, was.locations),
                             if f.rawInput.Some? then f.rawInput else was.rawInput,
                             if f.rawOutput.Some? then f.rawOutput else was.rawOutput);
      var prompt := if merged.status == "pending" || merged.status == "in_progress"
                    then existing.toolCall.awaitingPermission else None;
      t.(entries := t.entries[i := existing.(toolCall := CardCall(merged, prompt))])
  }

  function AttachPermission(t: ThreadState, id: string, request: Json, fallbackTitle: string): ThreadState {
    var i := IndexOfCall(t.entries, id);
    if i == |t.entries| then
      Append(t, Tool(id, CardCall(ToolCall(id, fallbackTitle, "other", "pending", [], [], None, None), Some(request))))
    else
      var card := t.entries[i].toolCall.(awaitingPermission := Some(request));
      t.(entries := t.entries[i := t.entries[i].(toolCall := card)])
  }

  function ClearPermission(t: ThreadState, id: string): ThreadState {
    var i := IndexOfCall(t.entries, id);
    if i == |t.entries| then t
    else
      t.(entries := t.entries[i := t.entries[i].(toolCall := t.entries[i].toolCall.(awaitingPermission := None))])
  }

  predicate IsQuestion(e: Entry, requestId: RequestId) {
    e.Asked? && e.asked.requestId == requestId
  }

  // The position of the first entry carrying a question, or the length.
  function IndexOfQuestion(entries: seq<Entry>, requestId: RequestId): (i: nat)
    ensures i <= |entries|
    ensures i < |entries| ==> IsQuestion(entries[i], requestId)
    ensures forall k | 0 <= k < i :: !IsQuestion(entries[k], requestId)
  {
    if entries == [] || IsQuestion(entries[0], requestId) then 0
    else 1 + IndexOfQuestion(entries[1..], requestId)
  }

  // Adds a question, or refreshes the one already here for the same request.
  function AttachElicitation(t: ThreadState, asked: Elicitation): ThreadState {
    var i := IndexOfQuestion(t.entries, asked.requestId);
    if i == |t.entries| then Append(t, Asked(asked.id, asked))
    else
      t.(entries := t.entries[i := Asked(t.entries[i].id, asked.(id := t.entries[i].id))])
  }

  function MapElicitations(t: ThreadState, revise: Elicitation -> Elicitation): ThreadState {
    t.(entries := seq(|t.entries|, i requires 0 <= i < |t.entries| =>
         if t.entries[i].Asked? then t.entries[i].(asked := revise(t.entries[i].asked)) else t.entries[i]))
  }

  function SettleElicitation(t: ThreadState, requestId: RequestId, state: Settled,
                             content: Option<map<Key, Json>>): ThreadState {
    MapElicitations(t, (asked: Elicitation) =>
      if asked.state == Pending && asked.requestId == requestId then
        asked.(state := state, content := if content.Some? then content else asked.content)
      else asked)
  }

  function CompleteElicitation(t: ThreadState, elicitationId: string): ThreadState {
    MapElicitations(t, (asked: Elicitation) =>
      if asked.state == Pending && asked.mode.Url? && asked.mode.elicitationId == elicitationId then
        asked.(state := Accepted)
      else asked)
  }

  function CancelPendingElicitations(t: ThreadState): ThreadState {
    MapElicitations(t, (asked: Elicitation) =>
      if asked.state == Pending then asked.(state := Cancelled) else asked)
  }

  function AppendUserPrompt(t: ThreadState, content: seq<ContentBlock>): ThreadState {
    Append(t, User(Placed("user", |t.entries|), content, true, None))
      .(status := Generating, stopReason := None)
  }

  function ApplyUpdate(t: ThreadState, u: Update): ThreadState {
    match u
    case UserChunk(content, id) => AppendUserContent(t, content, id)
    case AgentChunk(kind, content, id) => AppendAssistantChunk(t, kind, content, id)
    case ToolCalled(call) => UpsertToolCall(t, call)
    case ToolCallUpdated(id, f) => UpdateToolCall(t, id, f)
    case PlanChanged(plan) => t.(plan := plan)
    case CommandsChanged(commands) => t.(availableCommands := commands)
    case ModeChanged(modeId) =>
      if t.modes.Some? then t.(modes := Some(t.modes.value.(currentModeId := modeId))) else t
    case ConfigChanged(options) => t.(configOptions := options)
    case UsageChanged(usage) => t.(usage := Some(usage))
    case Unmodelled => t
  }

  // One event, as `web/src/acp/session.ts` hands it to the reducer. A question
  // in a mode the browser cannot draw is declined without being shown.
  function Step(t: ThreadState, e: Event): ThreadState {
    match e
    case Prompted(blocks) => AppendUserPrompt(t, blocks)
    case Updated(update) => ApplyUpdate(t, update)
    case Questioned(requestId, message, call, mode) =>
      if mode.Unknown? then t
      else AttachElicitation(t, Elicitation(Placed("elicitation", |t.entries|), requestId, message, call,
                                            mode.mode, Pending, None))
    case Answered(requestId, state, content) => SettleElicitation(t, requestId, state, content)
    case Completed(elicitationId) => CompleteElicitation(t, elicitationId)
    case TurnEnded(reason) =>
      CancelPendingElicitations(t).(status := Idle, stopReason := Some(reason))
    case TurnFailed => CancelPendingElicitations(t).(status := Idle)
    case TurnUnread(shown) => CancelPendingElicitations(t).(status := Idle, stopReason := shown)
    case SessionStated(modes, options) =>
      t.(configOptions := OrElse(options, t.configOptions),
         modes := if modes.Some? then modes else t.modes)
    case PermissionAsked(id, request, fallback) => AttachPermission(t, id, request, fallback)
    case PermissionCleared(id) => ClearPermission(t, id)
    case ModeSwitched(modeId) => ApplyUpdate(t, ModeChanged(modeId))
  }

  function Run(t: ThreadState, events: seq<Event>): ThreadState {
    if events == [] then t
    else Step(Run(t, events[..|events| - 1]), events[|events| - 1])
  }
}
