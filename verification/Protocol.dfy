// What travels through the relay: JSON-RPC 2.0 frames (section 4 for requests,
// 4.1 for notifications, 5 for responses) with opaque bodies, of which only
// the fields the relay and the session store read are visible.

module Protocol {
  import opened Wrappers
  import opened ThreadModel

  datatype Method =
    | Initialize | SessionNew | SessionFork | SessionLoad | SessionResume
    | SessionDelete | SessionClose | SessionSetConfigOption | SessionSetMode | SessionPrompt
    | SessionUpdate | ElicitationCreate | ElicitationComplete | RequestPermission
    | Capability(name: string)    // fs/* and terminal/*, which the server provides
    | McpOverAcp(name: string)    // mcp/connect, mcp/disconnect, mcp/message
    | SessionReplay               // _mjx/session/replay
    | Extension(name: string)     // any other method beginning with an underscore
    | Plain(name: string)

  predicate IsExtension(m: Method) {
    m.SessionReplay? || m.Extension?
  }

  // An elicitation, read out of its request. It belongs to the session the
  // request names, or to a JSON-RPC request and so to no session.
  datatype Question = Question(sessionScoped: bool, message: string, toolCallId: Option<string>, mode: AskedMode)

  // A permission prompt, read out of its request.
  datatype Permission = Permission(toolCallId: string, request: Json, title: string)

  // The body of a request or notification. `sessionId` is the string under that
  // name; `servers` the names of the MCP servers listed, an absent list being an
  // empty one and anything but a list being none; `typed` and `typedWithServers`
  // whether the body reads as the type its method calls for, as it came and once
  // it lists servers; the rest is what its other readers make of it.
  datatype Params = Params(
    text: string, isObject: bool, capable: bool, servers: Option<seq<string>>, sessionId: Option<string>,
    typed: bool, typedWithServers: bool, prompt: Option<seq<ContentBlock>>, question: Option<Question>,
    permission: Option<Permission>, completes: Option<string>, update: Option<Update>, modeId: Option<string>)

  const NO_PARAMS := Params("{}", true, false, Some([]), None, false, false, None, None, None, None, None, None)

  datatype Action = Accept(content: Option<map<Key, Json>>) | Decline | Cancel | UnknownAction

  datatype Created = Created(sessionId: string, modes: Option<Modes>, options: Option<seq<ConfigOption>>)
  datatype Stated = Stated(modes: Option<Modes>, options: Option<seq<ConfigOption>>)

  // The ways of reaching an MCP server an agent may say it supports.
  datatype Transports = Transports(http: bool, sse: bool, acp: bool)

  const NO_TRANSPORTS := Transports(false, false, false)

  // A successful result, as each reader that might look at it would read it.
  datatype Body = Body(
    text: string, transports: Transports, stop: Option<StopReason>, stopText: Option<string>, action: Option<Action>,
    created: Option<Created>, stated: Option<Stated>, options: Option<seq<ConfigOption>>)

  datatype Payload = Result(body: Body) | Error(code: int, message: string)

  datatype RawFrame =
    | Request(id: RequestId, verb: Method, params: Option<Params>)
    | Response(id: RequestId, payload: Payload)
    | Notification(verb: Method, params: Option<Params>)

  // What a line is parsed into: a call with no id, or a null one, is a notification.
  type Frame = f: RawFrame | f.Request? ==> !f.id.Null? witness Notification(Initialize, None)

  function MethodOf(f: Frame): Option<Method> {
    if f.Response? then None else Some(f.verb)
  }

  // Read off the body itself, so that it serves every method, modelled or not.
  function SessionOf(f: Frame): Option<string> {
    if f.Response? || f.params.None? then None else f.params.value.sessionId
  }

  // The session a request names, when its body reads as its method's type.
  function TypedSession(f: Frame): Option<string> {
    if f.Response? || f.params.None? || !f.params.value.typed then None else f.params.value.sessionId
  }

  function TypedPrompt(f: Frame): Option<seq<ContentBlock>> {
    if TypedSession(f).None? then None else f.params.value.prompt
  }

  function TypedQuestion(f: Frame): Option<Question> {
    if f.Response? || f.params.None? || !f.params.value.typed then None else f.params.value.question
  }

  // ----- What is written to a browser's socket -----

  datatype Notice =
    | TakenOver
    | TurnOver(sessionId: string, stopReason: string)
    | AgentInfo(resumed: bool)
    | Inspected(fromAgent: bool, frame: Frame)
    | Mirrored(text: string)      // terminal output, file writes, agent stderr

  datatype Line =
    | Wire(frame: Frame)
    | Replayed(id: RequestId, thread: Json)   // the answer to session/replay, null when there is no thread
    | Notify(notice: Notice)
    | Raw(text: string)
}
