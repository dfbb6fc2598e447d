// The conversation data both thread models share: what the protocol carries
// (`session/update` and friends) and what both sides show.

module ThreadModel {
  import opened Wrappers

  // Section 4 of JSON-RPC 2.0 allows these three kinds of identifier.
  datatype RequestId = Null | Number(n: int) | Name(s: string)

  // The id of a request. A call whose id is null is read as a notification, so
  // only a response can carry none.
  type CallId = id: RequestId | !id.Null? witness Number(0)

  // The five content blocks of the protocol, and a value of no known kind.
  // `extra` stands for the optional fields an agent may add (annotations,
  // titles, sizes), which no rule reads, or for the whole of a foreign value.
  datatype ContentBlock =
    | Text(text: string, extra: string)
    | ResourceLink(uri: string, extra: string)
    | Image(data: string, mimeType: string, extra: string)
    | Audio(data: string, mimeType: string, extra: string)
    | Resource(uri: string, extra: string)
    | Foreign(extra: string)

  // The property names the replay reader looks at; every other name is `Other`.
  datatype Key =
    | KType | KId | KProtocolId | KIsOptimistic | KContent | KChunks | KKind
    | KTitle | KStatus | KLocations | KRawInput | KRawOutput
    | KRequestId | KMessage | KToolCallId | KMode | KRequestedSchema
    | KElicitationId | KUrl | KState
    | KEntries | KPlan | KStopReason | KUsage | KAvailableCommands | KModes
    | KConfigOptions | KUsed | KSize | KCost | KAmount | KCurrency
    | KCurrentModeId | KAvailableModes | KName | KDescription | KCategory
    | KCurrentValue | KOptions
    | Other(name: string)

  // JSON, with content blocks as leaves: both models carry those verbatim.
  // A number is kept as a token; nothing computes with one.
  datatype Json =
    | JNull
    | JBool(b: bool)
    | JNum(n: int)
    | JStr(s: string)
    | JArr(items: seq<Json>)
    | JObj(fields: map<Key, Json>)
    | JBlock(block: ContentBlock)

  datatype ChunkKind = Message | Thought

  datatype Chunk = Chunk(kind: ChunkKind, id: Option<string>, content: seq<ContentBlock>)

  datatype ToolCall = ToolCall(
    id: string, title: string, kind: string, status: string,
    content: seq<Json>, locations: seq<Json>,
    rawInput: Option<Json>, rawOutput: Option<Json>)

  datatype ElicitationMode =
    | Form(requestedSchema: map<Key, Json>)
    | Url(elicitationId: string, url: string)

  datatype ElicitationState = Pending | Accepted | Declined | Cancelled

  // How a question can have ended.
  type Settled = s: ElicitationState | s != Pending witness Accepted

  datatype Elicitation = Elicitation(
    id: string, requestId: CallId, message: string, toolCallId: Option<string>,
    mode: ElicitationMode, state: ElicitationState, content: Option<map<Key, Json>>)

  datatype Status = Idle | Generating

  datatype StopReason = EndTurn | MaxTokens | MaxTurnRequests | Refusal | StopCancelled

  datatype Cost = Cost(amount: int, currency: string)
  datatype Usage = Usage(used: int, size: int, cost: Option<Cost>)
  datatype Modes = Modes(currentModeId: string, availableModes: seq<Json>)

  datatype ConfigValue = Select(current: string, options: seq<Json>) | Toggle(on: bool)
  datatype ConfigOption = ConfigOption(
    id: string, name: string, description: Option<string>, category: Option<string>,
    value: ConfigValue)

  // The fields a `tool_call_update` may carry; an absent one is `None`.
  datatype ToolCallFields = ToolCallFields(
    title: Option<string>, kind: Option<string>, status: Option<string>,
    content: Option<seq<Json>>, locations: Option<seq<Json>>,
    rawInput: Option<Json>, rawOutput: Option<Json>)

  datatype Update =
    | UserChunk(content: ContentBlock, messageId: Option<string>)
    | AgentChunk(kind: ChunkKind, content: ContentBlock, messageId: Option<string>)
    | ToolCalled(call: ToolCall)
    | ToolCallUpdated(toolCallId: string, fields: ToolCallFields)
    | PlanChanged(plan: seq<Json>)
    | CommandsChanged(commands: seq<Json>)
    | ModeChanged(modeId: string)
    | ConfigChanged(options: seq<ConfigOption>)
    | UsageChanged(usage: Usage)
    | Unmodelled

  // How the agent asks, when the way of asking is one that can be drawn.
  datatype AskedMode = Known(mode: ElicitationMode) | Unknown

  // One thing that happens to a conversation, as both sides come to hear of it.
  // Permission prompts, and the mode a browser's user switches to, touch the
  // browser's thread only. A turn ends with a result both sides can read, with an
  // error, or with a result the server cannot read, of which the browser may
  // still make out a reason.
  datatype Event =
    | Prompted(blocks: seq<ContentBlock>)
    | Updated(update: Update)
    | Questioned(requestId: CallId, message: string, toolCallId: Option<string>, mode: AskedMode)
    | Answered(answers: RequestId, state: Settled, content: Option<map<Key, Json>>)
    | Completed(elicitationId: string)
    | TurnEnded(reason: StopReason)
    | TurnFailed
    | TurnUnread(shown: Option<StopReason>)
    | SessionStated(modes: Option<Modes>, options: Option<seq<ConfigOption>>)
    | PermissionAsked(forCall: string, request: Json, fallbackTitle: string)
    | PermissionCleared(forCall: string)
    | ModeSwitched(chosen: string)

  function OrElse<T>(o: Option<T>, default: T): T {
    if o.Some? then o.value else default
  }

  // A tool call made out of an update for a call nobody announced.
  function FromFields(id: string, f: ToolCallFields): ToolCall {
    ToolCall(id, OrElse(f.title, ""), OrElse(f.kind, "other"), OrElse(f.status, "pending"),
             OrElse(f.content, []), OrElse(f.locations, []), f.rawInput, f.rawOutput)
  }

  // Two chunks belong to one message unless two different labels say otherwise.
  predicate CanMerge(existing: Option<string>, incoming: Option<string>) {
    existing.Some? && incoming.Some? ==> existing.value == incoming.value
  }

  // Equality up to the fields an agent may fill in when it repeats a block.
  predicate SameBlock(a: ContentBlock, b: ContentBlock) {
    match (a, b)
    case (Text(x, _), Text(y, _)) => x == y
    case (ResourceLink(x, _), ResourceLink(y, _)) => x == y
    case (Image(x, m, _), Image(y, n, _)) => x == y && m == n
    case (Audio(x, m, _), Audio(y, n, _)) => x == y && m == n
    case (Resource(x, _), Resource(y, _)) => x == y
    case (Foreign(x), Foreign(y)) => x == y
    case _ => false
  }

  // Adjacent text blocks are kept as one; anything else stands alone.
  function AppendContent(content: seq<ContentBlock>, incoming: ContentBlock): seq<ContentBlock> {
    if content != [] && content[|content| - 1].Text? && incoming.Text? then
      var last := content[|content| - 1];
      content[..|content| - 1] + [last.(text := last.text + incoming.text)]
    else
      content + [incoming]
  }
}
