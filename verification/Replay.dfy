// The bridge between the two thread models: what the server serialises for
// `_mjx/session/replay`, and what `web/src/acp/replay.ts` reads back.

module Replay {
  import opened Wrappers
  import opened ThreadModel
  import S = ServerThread
  import B = BrowserThread

  // ===== What the server writes =====

  // A field left out when there is nothing to say.
  function Maybe(fields: map<Key, Json>, key: Key, value: Option<Json>): map<Key, Json> {
    if value.Some? then fields[key := value.value] else fields
  }

  function NonEmpty(fields: map<Key, Json>, key: Key, items: seq<Json>): map<Key, Json> {
    if items != [] then fields[key := JArr(items)] else fields
  }

  function Str(o: Option<string>): Option<Json> {
    if o.Some? then Some(JStr(o.value)) else None
  }

  function BlocksJson(content: seq<ContentBlock>): Json {
    JArr(seq(|content|, i requires 0 <= i < |content| => JBlock(content[i])))
  }

  function KindName(kind: ChunkKind): string {
    if kind == Thought then "thought" else "message"
  }

  function ChunkJson(c: Chunk): Json {
    JObj(Maybe(map[KKind := JStr(KindName(c.kind)), KContent := BlocksJson(c.content)], KId, Str(c.id)))
  }

  function IdJson(id: RequestId): Json {
    match id
    case Null => JNull
    case Number(n) => JNum(n)
    case Name(s) => JStr(s)
  }

  function StateName(s: ElicitationState): string {
    match s
    case Pending => "pending"
    case Accepted => "accepted"
    case Declined => "declined"
    case Cancelled => "cancelled"
  }

  function CallFields(c: ToolCall): map<Key, Json> {
    var always := map[KType := JStr("toolCall"), KId := JStr(c.id), KTitle := JStr(c.title),
                      KKind := JStr(c.kind), KStatus := JStr(c.status)];
    Maybe(Maybe(NonEmpty(NonEmpty(always, KContent, c.content), KLocations, c.locations),
                KRawInput, c.rawInput), KRawOutput, c.rawOutput)
  }

  // The mode's fields lie beside the question's own.
  function AskedFields(a: Elicitation): map<Key, Json> {
    var always := map[KType := JStr("elicitation"), KId := JStr(a.id), KRequestId := IdJson(a.requestId),
                      KMessage := JStr(a.message), KState := JStr(StateName(a.state))];
    var asked := match a.mode
      case Form(schema) => always[KMode := JStr("form")][KRequestedSchema := JObj(schema)]
      case Url(elicitationId, url) =>
        always[KMode := JStr("url")][KElicitationId := JStr(elicitationId)][KUrl := JStr(url)];
    Maybe(Maybe(asked, KToolCallId, Str(a.toolCallId)),
          KContent, if a.content.Some? then Some(JObj(a.content.value)) else None)
  }

  function UserFields(e: S.Entry): map<Key, Json>
    requires e.User?
  {
    Maybe(map[KType := JStr("user"), KId := JStr(e.id), KIsOptimistic := JBool(e.isOptimistic),
              KContent := BlocksJson(e.content)], KProtocolId, Str(e.protocolId))
  }

  function EntryJson(e: S.Entry): Json {
    match e
    case User(_, _, _, _) => JObj(UserFields(e))
    case Assistant(id, chunks) =>
      JObj(map[KType := JStr("assistant"), KId := JStr(id),
               KChunks := JArr(seq(|chunks|, i requires 0 <= i < |chunks| => ChunkJson(chunks[i])))])
    case Tool(call) => JObj(CallFields(call))
    case Asked(asked) => JObj(AskedFields(asked))
  }

  function StatusName(s: Status): string {
    if s == Generating then "generating" else "idle"
  }

  function StopName(r: StopReason): string {
    match r
    case EndTurn => "end_turn"
    case MaxTokens => "max_tokens"
    case MaxTurnRequests => "max_turn_requests"
    case Refusal => "refusal"
    case StopCancelled => "cancelled"
  }

  function CostJson(c: Cost): Json {
    JObj(map[KAmount := JNum(c.amount), KCurrency := JStr(c.currency)])
  }

  function UsageJson(u: Usage): Json {
    JObj(Maybe(map[KUsed := JNum(u.used), KSize := JNum(u.size)],
               KCost, if u.cost.Some? then Some(CostJson(u.cost.value)) else None))
  }

  function ModesJson(m: Modes): Json {
    JObj(map[KCurrentModeId := JStr(m.currentModeId), KAvailableModes := JArr(m.availableModes)])
  }

  function OptionJson(o: ConfigOption): Json {
    var named := Maybe(Maybe(map[KId := JStr(o.id), KName := JStr(o.name)],
                             KDescription, Str(o.description)), KCategory, Str(o.category));
    JObj(match o.value
         case Select(current, options) =>
           named[KType := JStr("select")][KCurrentValue := JStr(current)][KOptions := JArr(options)]
         case Toggle(on) => named[KType := JStr("boolean")][KCurrentValue := JBool(on)])
  }

  function EntriesJson(entries: seq<S.Entry>): seq<Json> {
    seq(|entries|, i requires 0 <= i < |entries| => EntryJson(entries[i]))
  }

  function OptionsJson(options: seq<ConfigOption>): seq<Json> {
    seq(|options|, i requires 0 <= i < |options| => OptionJson(options[i]))
  }

  // The collections, each left out when empty.
  function ListFields(t: S.ThreadState): map<Key, Json> {
    NonEmpty(NonEmpty(NonEmpty(map[KEntries := JArr(EntriesJson(t.entries))], KPlan, t.plan),
                      KAvailableCommands, t.availableCommands), KConfigOptions, OptionsJson(t.configOptions))
  }

  function Serialised(t: S.ThreadState): Json {
    var stop := if t.stopReason.Some? then Some(JStr(StopName(t.stopReason.value))) else None;
    var usage := if t.usage.Some? then Some(UsageJson(t.usage.value)) else None;
    var modes := if t.modes.Some? then Some(ModesJson(t.modes.value)) else None;
    JObj(Maybe(Maybe(Maybe(ListFields(t)[KStatus := JStr(StatusName(t.status))],
                           KStopReason, stop), KUsage, usage), KModes, modes))
  }

  // ===== What the browser reads =====

  function Get(raw: Json, key: Key): Option<Json> {
    if raw.JObj? && key in raw.fields then Some(raw.fields[key]) else None
  }

  function AsArray(o: Option<Json>): seq<Json> {
    if o.Some? && o.value.JArr? then o.value.items else []
  }

  function AsString(o: Option<Json>): Option<string> {
    if o.Some? && o.value.JStr? then Some(o.value.s) else None
  }

  function AsBlocks(items: seq<Json>): seq<ContentBlock> {
    seq(|items|, i requires 0 <= i < |items| => if items[i].JBlock? then items[i].block else Foreign(""))
  }

  // The readable items, in order: a shape nobody expected costs one of them.
  function Readable<T>(items: seq<Json>, read: Json -> Option<T>): (r: seq<T>)
    ensures |r| <= |items|
  {
    if items == [] then []
    else
      Readable(items[..|items| - 1], read) +
      match read(items[|items| - 1])
      case None => []
      case Some(x) => [x]
  }

  function ToChunk(raw: Json): Option<Chunk> {
    if !raw.JObj? then None
    else Some(Chunk(if AsString(Get(raw, KKind)) == Some("thought") then Thought else Message,
                    AsString(Get(raw, KId)), AsBlocks(AsArray(Get(raw, KContent)))))
  }

  function ToToolCall(raw: Json): Option<ToolCall> {
    match AsString(Get(raw, KId))
    case None => None
    case Some(id) =>
      Some(ToolCall(id, OrElse(AsString(Get(raw, KTitle)), id),
                    OrElse(AsString(Get(raw, KKind)), "other"), OrElse(AsString(Get(raw, KStatus)), "pending"),
                    AsArray(Get(raw, KContent)), AsArray(Get(raw, KLocations)),
                    Get(raw, KRawInput), Get(raw, KRawOutput)))
  }

  function ToMode(raw: Json): Option<ElicitationMode> {
    var mode := AsString(Get(raw, KMode));
    var schema, url, id := Get(raw, KRequestedSchema), AsString(Get(raw, KUrl)), AsString(Get(raw, KElicitationId));
    if mode == Some("form") && schema.Some? && schema.value.JObj? then Some(Form(schema.value.fields))
    else if mode == Some("url") && url.Some? && id.Some? then Some(Url(id.value, url.value))
    else None
  }

  function ToState(o: Option<string>): ElicitationState {
    if o == Some("accepted") then Accepted
    else if o == Some("declined") then Declined
    else if o == Some("cancelled") then Cancelled
    else Pending
  }

  function ToRequestId(o: Option<Json>): Option<CallId> {
    if o.Some? && o.value.JStr? then Some(Name(o.value.s))
    else if o.Some? && o.value.JNum? then Some(Number(o.value.n))
    else None
  }

  function ToElicitation(raw: Json): Option<Elicitation> {
    var id, message := AsString(Get(raw, KId)), AsString(Get(raw, KMessage));
    var requestId, mode := ToRequestId(Get(raw, KRequestId)), ToMode(raw);
    if id.None? || message.None? || requestId.None? || mode.None? then None
    else
      var content := Get(raw, KContent);
      Some(Elicitation(id.value, requestId.value, message.value, AsString(Get(raw, KToolCallId)), mode.value,
                       ToState(AsString(Get(raw, KState))),
                       if content.Some? && content.value.JObj? then Some(content.value.fields) else None))
  }

  function ToEntry(raw: Json): Option<B.Entry> {
    var kind := AsString(Get(raw, KType));
    if kind == Some("user") then
      Some(B.User("", AsBlocks(AsArray(Get(raw, KContent))), Get(raw, KIsOptimistic) == Some(JBool(true)),
                  AsString(Get(raw, KProtocolId))))
    else if kind == Some("assistant") then
      Some(B.Assistant("", Readable(AsArray(Get(raw, KChunks)), ToChunk)))
    else if kind == Some("toolCall") then
      match ToToolCall(raw)
      case None => None
      case Some(call) => Some(B.Tool(call.id, B.CardCall(call, None)))
    else if kind == Some("elicitation") then
      match ToElicitation(raw)
      case None => None
      case Some(asked) => Some(B.Asked(asked.id, asked))
    else None
  }

  function Renumber(e: B.Entry, index: nat): B.Entry {
    match e
    case User(_, content, isOptimistic, protocolId) =>
      B.User(B.Placed("user", index), content, isOptimistic, protocolId)
    case Assistant(_, chunks) => B.Assistant(B.Placed("assistant", index), chunks)
    case Tool(_, _) => e
    case Asked(_, asked) => B.Asked(B.Placed("elicitation", index), asked)
  }

  function ToStatus(o: Option<string>): Status {
    if o == Some("generating") then Generating else Idle
  }

  function ToStopReason(o: Option<string>): Option<StopReason> {
    if o == Some("end_turn") then Some(EndTurn)
    else if o == Some("max_tokens") then Some(MaxTokens)
    else if o == Some("max_turn_requests") then Some(MaxTurnRequests)
    else if o == Some("refusal") then Some(Refusal)
    else if o == Some("cancelled") then Some(StopCancelled)
    else None
  }

  function ToUsage(o: Option<Json>): Option<Usage> {
    if o.None? then None
    else
      var used, size := Get(o.value, KUsed), Get(o.value, KSize);
      if used.None? || size.None? || !used.value.JNum? || !size.value.JNum? then None
      else Some(Usage(used.value.n, size.value.n, ToCost(Get(o.value, KCost))))
  }

  function ToCost(o: Option<Json>): Option<Cost> {
    if o.None? then None
    else
      var amount, currency := Get(o.value, KAmount), AsString(Get(o.value, KCurrency));
      if amount.None? || !amount.value.JNum? || currency.None? then None
      else Some(Cost(amount.value.n, currency.value))
  }

  function ToModes(o: Option<Json>): Option<Modes> {
    if o.None? then None
    else
      match AsString(Get(o.value, KCurrentModeId))
      case None => None
      case Some(id) => Some(Modes(id, AsArray(Get(o.value, KAvailableModes))))
  }

  function ToConfigOption(raw: Json): Option<ConfigOption> {
    var id, name := AsString(Get(raw, KId)), AsString(Get(raw, KName));
    var kind, current := AsString(Get(raw, KType)), Get(raw, KCurrentValue);
    if id.None? || name.None? || current.None? then None
    else
      var description, category := AsString(Get(raw, KDescription)), AsString(Get(raw, KCategory));
      if kind == Some("boolean") && current.value.JBool? then
        Some(ConfigOption(id.value, name.value, description, category, Toggle(current.value.b)))
      else if kind == Some("select") && current.value.JStr? then
        Some(ConfigOption(id.value, name.value, description, category,
                          Select(current.value.s, AsArray(Get(raw, KOptions)))))
      else None
  }

  function ReadEntries(payload: Json): seq<B.Entry> {
    var readable := Readable(AsArray(Get(payload, KEntries)), ToEntry);
    seq(|readable|, i requires 0 <= i < |readable| => Renumber(readable[i], i))
  }

  // Rebuilds a thread, or says the server has none.
  function ThreadFromReplay(payload: Json): Option<B.ThreadState> {
    if !payload.JObj? then None
    else
      Some(B.ThreadState(
             ReadEntries(payload),
             AsArray(Get(payload, KPlan)),
             ToStatus(AsString(Get(payload, KStatus))),
             ToStopReason(AsString(Get(payload, KStopReason))),
             ToUsage(Get(payload, KUsage)),
             AsArray(Get(payload, KAvailableCommands)),
             ToModes(Get(payload, KModes)),
             Readable(AsArray(Get(payload, KConfigOptions)), ToConfigOption)))
  }
}
