// The server's thread: what `crates/mjx-acp-thread` folds every update into.
// `ThreadState` and the functions on it say what each operation means; the
// class performs them in place, as the crate does.

module ServerThread {
  import opened Wrappers
  import opened ThreadModel
  import Decimal

  datatype Entry =
    | User(id: string, protocolId: Option<string>, isOptimistic: bool, content: seq<ContentBlock>)
    | Assistant(id: string, chunks: seq<Chunk>)
    | Tool(call: ToolCall)
    | Asked(asked: Elicitation)

  datatype ThreadState = ThreadState(
    entries: seq<Entry>, plan: seq<Json>, status: Status, stopReason: Option<StopReason>,
    usage: Option<Usage>, availableCommands: seq<Json>, modes: Option<Modes>,
    configOptions: seq<ConfigOption>, nextId: nat)

  const EMPTY := ThreadState([], [], Idle, None, None, [], None, [], 0)

  datatype ThreadEvent =
    | EntryAdded(index: nat) | EntryUpdated(index: nat)
    | PlanUpdated | CommandsUpdated | ModeUpdated | ConfigOptionsUpdated | UsageUpdated

  function Mint(prefix: string, n: nat): string {
    prefix + "-" + Decimal.Print(n)
  }

  // ----- What one user chunk does -----

  predicate AbsorbsEcho(e: Entry, content: ContentBlock, messageId: Option<string>) {
    && e.User? && e.isOptimistic
    && (exists b | b in e.content :: SameBlock(b, content))
    && CanMerge(e.protocolId, messageId)
  }

  predicate ExtendsUser(e: Entry, messageId: Option<string>) {
    e.User? && !e.isOptimistic && CanMerge(e.protocolId, messageId)
  }

  function WithUserChunk(t: ThreadState, content: ContentBlock, messageId: Option<string>): ThreadState {
    var n := |t.entries|;
    if n > 0 && AbsorbsEcho(t.entries[n - 1], content, messageId) then
      if t.entries[n - 1].protocolId.None? then
        t.(entries := t.entries[n - 1 := t.entries[n - 1].(protocolId := messageId)])
      else t
    else if n > 0 && ExtendsUser(t.entries[n - 1], messageId) then
      t.(entries := t.entries[n - 1 := t.entries[n - 1].(content := t.entries[n - 1].content + [content])])
    else
      t.(entries := t.entries + [User(Mint("user", t.nextId + 1), messageId, false, [content])],
         nextId := t.nextId + 1)
  }

  // ----- What one assistant chunk does -----

  function WithChunk(chunks: seq<Chunk>, kind: ChunkKind, content: ContentBlock,
                     messageId: Option<string>): seq<Chunk> {
    var n := |chunks|;
    if n > 0 && chunks[n - 1].kind == kind && CanMerge(chunks[n - 1].id, messageId) then
      chunks[n - 1 := Chunk(kind, if chunks[n - 1].id.None? then messageId else chunks[n - 1].id,
                            AppendContent(chunks[n - 1].content, content))]
    else
      chunks + [Chunk(kind, messageId, [content])]
  }

  function WithAssistantChunk(t: ThreadState, kind: ChunkKind, content: ContentBlock,
                              messageId: Option<string>): ThreadState {
    var n := |t.entries|;
    if n > 0 && t.entries[n - 1].Assistant? then
      t.(entries := t.entries[n - 1 := t.entries[n - 1].(chunks :=
           WithChunk(t.entries[n - 1].chunks, kind, content, messageId))])
    else
      t.(entries := t.entries + [Assistant(Mint("assistant", t.nextId + 1), [Chunk(kind, messageId, [content])])],
         nextId := t.nextId + 1)
  }

  // ----- Tool calls -----

  predicate IsCall(e: Entry, id: string) {
    e.Tool? && e.call.id == id
  }

  // The position of the first entry for a call, or the length when there is none.
  function IndexOfCall(entries: seq<Entry>, id: string): (i: nat)
    ensures i <= |entries|
    ensures i < |entries| ==> IsCall(entries[i], id)
    ensures forall k | 0 <= k < i :: !IsCall(entries[k], id)
  {
    if entries == [] then 0
    else if IsCall(entries[0], id) then 0
    else 1 + IndexOfCall(entries[1..], id)
  }

  function WithCall(t: ThreadState, call: ToolCall): ThreadState {
    var i := IndexOfCall(t.entries, call.id);
    if i < |t.entries| then t.(entries := t.entries[i := Tool(call)])
    else t.(entries := t.entries + [Tool(call)])
  }

  function Merged(call: ToolCall, f: ToolCallFields): ToolCall {
    ToolCall(call.id, OrElse(f.title, call.title), OrElse(f.kind, call.kind),
             OrElse(f.status, call.status), OrElse(f.content, call.content),
             OrElse(f.locations, call.locations),
             if f.rawInput.Some? then f.rawInput else call.rawInput,
             if f.rawOutput.Some? then f.rawOutput else call.rawOutput)
  }

  function WithCallUpdate(t: ThreadState, id: string, f: ToolCallFields): ThreadState {
    var i := IndexOfCall(t.entries, id);
    if i < |t.entries| then t.(entries := t.entries[i := Tool(Merged(t.entries[i].call, f))])
    else t.(entries := t.entries + [Tool(FromFields(id, f))])
  }

  // ----- One `session/update` -----

  function Folded(t: ThreadState, u: Update): ThreadState {
    match u
    case UserChunk(content, id) => WithUserChunk(t, content, id)
    case AgentChunk(kind, content, id) => WithAssistantChunk(t, kind, content, id)
    case ToolCalled(call) => WithCall(t, call)
    case ToolCallUpdated(id, f) => WithCallUpdate(t, id, f)
    case PlanChanged(plan) => t.(plan := plan)
    case CommandsChanged(commands) => t.(availableCommands := commands)
    case ModeChanged(modeId) =>
      if t.modes.Some? then t.(modes := Some(t.modes.value.(currentModeId := modeId))) else t
    case ConfigChanged(options) => t.(configOptions := options)
    case UsageChanged(usage) => t.(usage := Some(usage))
    case Unmodelled => t
  }

  // ----- Prompts, questions and turn ends -----

  function WithPrompt(t: ThreadState, content: seq<ContentBlock>): ThreadState {
    t.(entries := t.entries + [User(Mint("user", t.nextId + 1), None, true, content)],
       status := Generating, stopReason := None, nextId := t.nextId + 1)
  }

  function WithQuestion(t: ThreadState, requestId: CallId, message: string,
                        toolCallId: Option<string>, mode: AskedMode): ThreadState {
    if mode.Unknown? then t
    else
      t.(entries := t.entries + [Asked(Elicitation(Mint("elicitation", t.nextId + 1), requestId,
                                                   message, toolCallId, mode.mode, Pending, None))],
         nextId := t.nextId + 1)
  }

  predicate IsPending(e: Entry) {
    e.Asked? && e.asked.state == Pending
  }

  predicate PendingFor(e: Entry, requestId: RequestId) {
    IsPending(e) && e.asked.requestId == requestId
  }

  predicate PendingUrl(e: Entry, elicitationId: string) {
    IsPending(e) && e.asked.mode.Url? && e.asked.mode.elicitationId == elicitationId
  }

  // The first position where `p` holds, or the length.
  function First(entries: seq<Entry>, p: Entry -> bool): (i: nat)
    ensures i <= |entries|
    ensures i < |entries| ==> p(entries[i])
    ensures forall k | 0 <= k < i :: !p(entries[k])
  {
    if entries == [] || p(entries[0]) then 0 else 1 + First(entries[1..], p)
  }

  function WithSettled(t: ThreadState, requestId: RequestId, state: Settled,
                       content: Option<map<Key, Json>>): ThreadState {
    var i := First(t.entries, e => PendingFor(e, requestId));
    if i < |t.entries| then
      t.(entries := t.entries[i := Asked(t.entries[i].asked.(state := state, content := content))])
    else t
  }

  predicate CanComplete(t: ThreadState, elicitationId: string) {
    exists e | e in t.entries :: PendingUrl(e, elicitationId)
  }

  function WithCompleted(t: ThreadState, elicitationId: string): ThreadState {
    var i := First(t.entries, e => PendingUrl(e, elicitationId));
    if i < |t.entries| then t.(entries := t.entries[i := Asked(t.entries[i].asked.(state := Accepted))])
    else t
  }

  function GivenUp(e: Entry): Entry {
    if IsPending(e) then Asked(e.asked.(state := Cancelled)) else e
  }

  function WithCancelled(t: ThreadState): ThreadState {
    t.(entries := seq(|t.entries|, i requires 0 <= i < |t.entries| => GivenUp(t.entries[i])))
  }

  function CountPending(entries: seq<Entry>): nat {
    if entries == [] then 0
    else CountPending(entries[..|entries| - 1]) + if IsPending(entries[|entries| - 1]) then 1 else 0
  }

  function WithTurnFinished(t: ThreadState, reason: StopReason): ThreadState {
    t.(status := Idle, stopReason := Some(reason))
  }

  // ----- One event, and a whole conversation -----

  function Step(t: ThreadState, e: Event): ThreadState {
    match e
    case Prompted(blocks) => WithPrompt(t, blocks)
    case Updated(update) => Folded(t, update)
    case Questioned(requestId, message, call, mode) => WithQuestion(t, requestId, message, call, mode)
    case Answered(requestId, state, content) => WithSettled(t, requestId, state, content)
    case Completed(elicitationId) => WithCompleted(t, elicitationId)
    case TurnEnded(reason) => WithCancelled(WithTurnFinished(t, reason))
    case TurnFailed => WithCancelled(WithTurnFinished(t, StopCancelled))
    case TurnUnread(_) => WithCancelled(t)
    case SessionStated(modes, options) =>
      t.(modes := if modes.Some? then modes else t.modes,
         configOptions := OrElse(options, t.configOptions))
    case PermissionAsked(_, _, _) => t
    case PermissionCleared(_) => t
    case ModeSwitched(_) => t
  }

  function Run(t: ThreadState, events: seq<Event>): ThreadState {
    if events == [] then t
    else Step(Run(t, events[..|events| - 1]), events[|events| - 1])
  }

  // ----- What a list of events tells a caller who pushes targeted updates -----

  function CallEvents(t: ThreadState, id: string): seq<ThreadEvent> {
    var i := IndexOfCall(t.entries, id);
    if i < |t.entries| then [EntryUpdated(i)] else [EntryAdded(|t.entries|)]
  }

  function EventsOf(t: ThreadState, u: Update): seq<ThreadEvent> {
    var n := |t.entries|;
    match u
    case UserChunk(content, id) =>
      if n > 0 && AbsorbsEcho(t.entries[n - 1], content, id) then []
      else if n > 0 && ExtendsUser(t.entries[n - 1], id) then [EntryUpdated(n - 1)]
      else [EntryAdded(n)]
    case AgentChunk(_, _, _) => if n > 0 && t.entries[n - 1].Assistant? then [EntryUpdated(n - 1)] else [EntryAdded(n)]
    case ToolCalled(call) => CallEvents(t, call.id)
    case ToolCallUpdated(id, _) => CallEvents(t, id)
    case PlanChanged(_) => [PlanUpdated]
    case CommandsChanged(_) => [CommandsUpdated]
    case ModeChanged(_) => if t.modes.Some? then [ModeUpdated] else []
    case ConfigChanged(_) => [ConfigOptionsUpdated]
    case UsageChanged(_) => [UsageUpdated]
    case Unmodelled => []
  }

  // Everything that differs between two states is named by an event.
  ghost predicate Accounts(before: ThreadState, after: ThreadState, events: seq<ThreadEvent>) {
    && |before.entries| <= |after.entries| <= |before.entries| + 1
    && (|before.entries| < |after.entries| <==> EntryAdded(|before.entries|) in events)
    && (forall i | 0 <= i < |before.entries| :: before.entries[i] == after.entries[i] || EntryUpdated(i) in events)
    && (before.plan != after.plan ==> PlanUpdated in events)
    && (before.availableCommands != after.availableCommands ==> CommandsUpdated in events)
    && (before.modes != after.modes ==> ModeUpdated in events)
    && (before.configOptions != after.configOptions ==> ConfigOptionsUpdated in events)
    && (before.usage != after.usage ==> UsageUpdated in events)
    && before.status == after.status && before.stopReason == after.stopReason
  }

  // An echo of a prompt that has no label yet lends it the agent's.
  predicate LendsLabel(t: ThreadState, u: Update) {
    && u.UserChunk? && u.messageId.Some? && t.entries != []
    && AbsorbsEcho(t.entries[|t.entries| - 1], u.content, u.messageId)
    && t.entries[|t.entries| - 1].protocolId.None?
  }

  class Thread {
    var entries: seq<Entry>
    var plan: seq<Json>
    var status: Status
    var stopReason: Option<StopReason>
    var usage: Option<Usage>
    var availableCommands: seq<Json>
    var modes: Option<Modes>
    var configOptions: seq<ConfigOption>
    var nextId: nat

    function Value(): ThreadState
      reads this
    {
      ThreadState(entries, plan, status, stopReason, usage, availableCommands, modes, configOptions, nextId)
    }

    constructor ()
      ensures Value() == EMPTY
    {
      entries, plan, status, stopReason := [], [], Idle, None;
      usage, availableCommands, modes, configOptions, nextId := None, [], None, [], 0;
    }

    method MintId(prefix: string) returns (id: string)
      modifies this`nextId
      ensures nextId == old(nextId) + 1 && id == Mint(prefix, nextId)
    {
      nextId := nextId + 1;
      id := Mint(prefix, nextId);
    }

    method Apply(update: Update) returns (events: seq<ThreadEvent>)
      modifies this
      ensures Value() == Folded(old(Value()), update)
      ensures events == EventsOf(old(Value()), update)
    {
      match update {
        case UserChunk(content, id) => events := PushUserChunk(content, id);
        case AgentChunk(kind, content, id) => events := PushAssistantChunk(kind, content, id);
        case ToolCalled(call) => events := UpsertToolCall(call);
        case ToolCallUpdated(id, fields) => events := UpdateToolCall(id, fields);
        case PlanChanged(p) =>
          plan := p;
          events := [PlanUpdated];
        case CommandsChanged(commands) =>
          availableCommands := commands;
          events := [CommandsUpdated];
        case ModeChanged(modeId) =>
          if modes.Some? {
            modes := Some(modes.value.(currentModeId := modeId));
            events := [ModeUpdated];
          } else {
            events := [];
          }
        case ConfigChanged(options) =>
          configOptions := options;
          events := [ConfigOptionsUpdated];
        case UsageChanged(u) =>
          usage := Some(u);
          events := [UsageUpdated];
        case Unmodelled =>
          events := [];
      }
    }

    method PushUserChunk(content: ContentBlock, messageId: Option<string>) returns (events: seq<ThreadEvent>)
      modifies this
      ensures Value() == WithUserChunk(old(Value()), content, messageId)
      ensures events == EventsOf(old(Value()), UserChunk(content, messageId))
    {
      if |entries| > 0 {
        var last := entries[|entries| - 1];
        if AbsorbsEcho(last, content, messageId) {
          if last.protocolId.None? {
            entries := entries[|entries| - 1 := last.(protocolId := messageId)];
          }
          return [];
        }
        if ExtendsUser(last, messageId) {
          entries := entries[|entries| - 1 := last.(content := last.content + [content])];
          return [EntryUpdated(|entries| - 1)];
        }
      }
      var id := MintId("user");
      entries := entries + [User(id, messageId, false, [content])];
      return [EntryAdded(|entries| - 1)];
    }

    method PushAssistantChunk(kind: ChunkKind, content: ContentBlock, messageId: Option<string>)
      returns (events: seq<ThreadEvent>)
      modifies this
      ensures Value() == WithAssistantChunk(old(Value()), kind, content, messageId)
      ensures events == EventsOf(old(Value()), AgentChunk(kind, content, messageId))
    {
      if |entries| > 0 && entries[|entries| - 1].Assistant? {
        var index := |entries| - 1;
        var chunks := entries[index].chunks;
        if |chunks| > 0 && chunks[|chunks| - 1].kind == kind && CanMerge(chunks[|chunks| - 1].id, messageId) {
          var chunk := chunks[|chunks| - 1];
          if chunk.id.None? {
            chunk := chunk.(id := messageId);
          }
          chunk := chunk.(content := AppendContent(chunk.content, content));
          entries := entries[index := entries[index].(chunks := chunks[|chunks| - 1 := chunk])];
          return [EntryUpdated(index)];
        }
        entries := entries[index := entries[index].(chunks := chunks + [Chunk(kind, messageId, [content])])];
        return [EntryUpdated(index)];
      }
      var id := MintId("assistant");
      entries := entries + [Assistant(id, [Chunk(kind, messageId, [content])])];
      return [EntryAdded(|entries| - 1)];
    }

    method PositionOfCall(id: string) returns (index: Option<nat>)
      ensures index == var i := IndexOfCall(entries, id); if i < |entries| then Some(i) else None
    {
      var i := 0;
      while i < |entries|
        invariant i <= |entries|
        invariant forall k | 0 <= k < i :: !IsCall(entries[k], id)
      {
        if IsCall(entries[i], id) {
          return Some(i);
        }
        i := i + 1;
      }
      return None;
    }

    method UpsertToolCall(call: ToolCall) returns (events: seq<ThreadEvent>)
      modifies this
      ensures Value() == WithCall(old(Value()), call)
      ensures events == CallEvents(old(Value()), call.id)
    {
      var index := PositionOfCall(call.id);
      if index.Some? {
        entries := entries[index.value := Tool(call)];
        return [EntryUpdated(index.value)];
      }
      entries := entries + [Tool(call)];
      return [EntryAdded(|entries| - 1)];
    }

    method UpdateToolCall(id: string, fields: ToolCallFields) returns (events: seq<ThreadEvent>)
      modifies this
      ensures Value() == WithCallUpdate(old(Value()), id, fields)
      ensures events == CallEvents(old(Value()), id)
    {
      var index := PositionOfCall(id);
      if index.None? {
        entries := entries + [Tool(FromFields(id, fields))];
        return [EntryAdded(|entries| - 1)];
      }
      var call := entries[index.value].call;
      if fields.title.Some? { call := call.(title := fields.title.value); }
      if fields.kind.Some? { call := call.(kind := fields.kind.value); }
      if fields.status.Some? { call := call.(status := fields.status.value); }
      if fields.content.Some? { call := call.(content := fields.content.value); }
      if fields.locations.Some? { call := call.(locations := fields.locations.value); }
      if fields.rawInput.Some? { call := call.(rawInput := fields.rawInput); }
      if fields.rawOutput.Some? { call := call.(rawOutput := fields.rawOutput); }
      assert call == Merged(old(entries)[index.value].call, fields);
      entries := entries[index.value := Tool(call)];
      return [EntryUpdated(index.value)];
    }

    method PushUserPrompt(content: seq<ContentBlock>)
      modifies this
      ensures Value() == WithPrompt(old(Value()), content)
    {
      var id := MintId("user");
      status := Generating;
      stopReason := None;
      entries := entries + [User(id, None, true, content)];
    }

    method PushElicitation(requestId: CallId, message: string, toolCallId: Option<string>, mode: AskedMode)
      returns (modelled: bool)
      modifies this
      ensures modelled == mode.Known?
      ensures Value() == WithQuestion(old(Value()), requestId, message, toolCallId, mode)
    {
      if mode.Unknown? {
        return false;
      }
      var id := MintId("elicitation");
      entries := entries + [Asked(Elicitation(id, requestId, message, toolCallId, mode.mode, Pending, None))];
      return true;
    }

    method SettleElicitation(requestId: RequestId, state: Settled, content: Option<map<Key, Json>>)
      returns (found: bool)
      modifies this
      ensures Value() == WithSettled(old(Value()), requestId, state, content)
      ensures found == exists e | e in old(entries) :: PendingFor(e, requestId)
    {
      var i := 0;
      while i < |entries|
        invariant i <= |entries| && Value() == old(Value())
        invariant forall k | 0 <= k < i :: !PendingFor(entries[k], requestId)
      {
        if PendingFor(entries[i], requestId) {
          entries := entries[i := Asked(entries[i].asked.(state := state, content := content))];
          return true;
        }
        i := i + 1;
      }
      return false;
    }

    method CompleteElicitation(elicitationId: string) returns (found: bool)
      modifies this
      ensures Value() == WithCompleted(old(Value()), elicitationId)
      ensures found == CanComplete(old(Value()), elicitationId)
    {
      var i := 0;
      while i < |entries|
        invariant i <= |entries| && Value() == old(Value())
        invariant forall k | 0 <= k < i :: !PendingUrl(entries[k], elicitationId)
      {
        if PendingUrl(entries[i], elicitationId) {
          entries := entries[i := Asked(entries[i].asked.(state := Accepted))];
          return true;
        }
        i := i + 1;
      }
      return false;
    }

    method CancelPendingElicitations() returns (cancelled: nat)
      modifies this
      ensures Value() == WithCancelled(old(Value()))
      ensures cancelled == CountPending(old(entries))
    {
      cancelled := 0;
      var i := 0;
      while i < |entries|
        invariant i <= |entries| == |old(entries)|
        invariant Value() == old(Value()).(entries := entries)
        invariant forall k | 0 <= k < i :: entries[k] == GivenUp(old(entries)[k])
        invariant forall k | i <= k < |entries| :: entries[k] == old(entries)[k]
        invariant cancelled == CountPending(old(entries)[..i])
      {
        assert old(entries)[..i + 1][..i] == old(entries)[..i];
        if IsPending(entries[i]) {
          entries := entries[i := Asked(entries[i].asked.(state := Cancelled))];
          cancelled := cancelled + 1;
        }
        i := i + 1;
      }
      assert old(entries)[..i] == old(entries);
    }

    method FinishTurn(reason: StopReason)
      modifies this
      ensures Value() == WithTurnFinished(old(Value()), reason)
    {
      status := Idle;
      stopReason := Some(reason);
    }

    method SetModes(m: Modes)
      modifies this
      ensures Value() == old(Value()).(modes := Some(m))
    {
      modes := Some(m);
    }

    method SetConfigOptions(options: seq<ConfigOption>)
      modifies this
      ensures Value() == old(Value()).(configOptions := options)
    {
      configOptions := options;
    }
  }
}
