// The relay: one agent, and whichever browser socket is attached to it.

module Relay {
  import opened Wrappers
  import opened ThreadModel
  import opened Protocol
  import opened Bridging
  import opened Correlating
  import Handshaking
  import Sinking
  import Sessions
  import Replay
  import Offering

  datatype AgentLine = ToAgent(frame: Frame) | RawToAgent(text: string)

  // `reader` is the attachment whose socket is being read, if any; `servers` are
  // the MCP servers configured here.
  datatype State = State(
    servers: seq<Offering.Server>, bridge: Bridge, methods: Methods, recording: Handshaking.Recording,
    store: Sessions.Store, unanswered: seq<Frame>, sink: Sinking.Sink,
    toAgent: seq<AgentLine>, reader: Option<nat>)

  function Initially(servers: seq<Offering.Server>): State {
    State(servers, NEW_BRIDGE, NO_METHODS, Handshaking.NOTHING_RECORDED, Sessions.EMPTY_STORE,
          [], Sinking.NO_SOCKET, [], None)
  }

  // ===== Sending =====

  function Hand(s: State, line: Line): State {
    s.(sink := Sinking.Sent(s.sink, line))
  }

  function HandAll(sink: Sinking.Sink, frames: seq<Frame>): Sinking.Sink {
    if frames == [] then sink
    else Sinking.Sent(HandAll(sink, frames[..|frames| - 1]), Wire(frames[|frames| - 1]))
  }

  function Announced(s: State, verb: Method, resumed: bool): State {
    if verb == Initialize then Hand(s, Notify(AgentInfo(resumed))) else s
  }

  // ===== Attachments =====

  function WithAttach(s: State): State {
    var noticed := if s.reader.Some? then Sinking.Sent(s.sink, Notify(TakenOver)) else s.sink;
    s.(bridge := s.bridge.(outstanding := map[]),
       recording := Handshaking.Reattached(s.recording),
       sink := Sinking.Attached(noticed),
       reader := Some(s.sink.generation + 1))
  }

  function WithDetach(s: State, generation: nat): State {
    s.(sink := Sinking.Detached(s.sink, generation),
       reader := if s.reader == Some(generation) then None else s.reader)
  }

  // ===== The re-ask list =====

  function WithoutId(frames: seq<Frame>, id: RequestId): seq<Frame> {
    if frames == [] then []
    else
      WithoutId(frames[..|frames| - 1], id) +
      if !frames[|frames| - 1].Notification? && frames[|frames| - 1].id == id then [] else [frames[|frames| - 1]]
  }

  function WithoutSession(frames: seq<Frame>, session: string): seq<Frame> {
    if frames == [] then []
    else
      WithoutSession(frames[..|frames| - 1], session) +
      if SessionOf(frames[|frames| - 1]) == Some(session) then [] else [frames[|frames| - 1]]
  }

  // ===== Frames from the browser =====

  function ThreadJson(store: Sessions.Store, session: string): Json {
    if session in store.threads then Replay.Serialised(store.threads[session]) else JNull
  }

  function ExtensionReply(store: Sessions.Store, f: Frame): Line
    requires f.Request?
  {
    if f.verb != SessionReplay then Wire(Response(f.id, Error(-32601, "method not found")))
    else if TypedSession(f).None? then Wire(Response(f.id, Error(-32602, "invalid params")))
    else Replayed(f.id, ThreadJson(store, TypedSession(f).value))
  }

  function WithExtension(s: State, f: Frame): State
    requires MethodOf(f).Some? && IsExtension(f.verb)
  {
    if f.Notification? then s
    else
      var replied := Hand(s, ExtensionReply(s.store, f));
      if f.verb == SessionReplay then replied.(sink := HandAll(replied.sink, s.unanswered)) else replied
  }

  // What the interceptor makes of a frame for the agent: `initialize` is
  // given the server's own capabilities, if its body is an object.
  function Rewritten(f: Frame): Frame {
    if f.Request? && f.verb == Initialize && (f.params.None? || f.params.value.isObject) then
      Request(f.id, f.verb, Some(OrElse(f.params, NO_PARAMS).(capable := true)))
    else f
  }

  function Rebound(b: Bridge, f: Frame): Frame {
    if f.Request? then Request(Minted(b), f.verb, f.params) else f
  }

  // The frame as everything from here on sees it: rebound, and offering the
  // agent the configured servers if it opens a session.
  function Presented(s: State, f: Frame): Frame {
    Offering.Merged(Rebound(s.bridge, f), s.servers, TransportsOf(s.recording))
  }

  // What the agent said it supports, once it has said anything.
  function TransportsOf(r: Handshaking.Recording): Transports {
    if r.initialize.Some? then r.initialize.value.transports else NO_TRANSPORTS
  }

  function WithRelayed(s: State, f: Frame): State {
    var g := Presented(s, f);
    s.(bridge := if f.Request? then WithRequest(s.bridge, f.id) else s.bridge,
       methods := Observed(s.methods, ClientToAgent, g),
       store := Sessions.FromClient(s.store, g),
       unanswered := if g.Response? then WithoutId(s.unanswered, g.id) else s.unanswered,
       toAgent := s.toAgent + [ToAgent(Rewritten(g))])
  }

  function WithRecorded(s: State, f: Frame, answer: Body): State
    requires f.Request?
  {
    Announced(Hand(s, Wire(Response(f.id, Result(answer)))), f.verb, true)
  }

  function WithClientFrame(s: State, f: Frame): State {
    if MethodOf(f).Some? && IsExtension(f.verb) then WithExtension(s, f)
    else if !f.Request? then WithRelayed(s, f)
    else
      var answer := Handshaking.Answer(s.recording, f.verb);
      var asked := s.(recording := Handshaking.Answered(s.recording, f.verb));
      if answer.Some? then WithRecorded(asked, f, answer.value) else WithRelayed(asked, f)
  }

  // ===== Frames from the agent =====

  // Ids this server gives the requests it puts to the agent for MCP servers.
  predicate OwnedByName(id: RequestId) {
    id.Name? && |id.s| >= 8 && id.s[..8] == "mjx-mcp-"
  }

  predicate IsOurs(servers: seq<Offering.Server>, verb: Method) {
    verb.Capability? || (verb.McpOverAcp? && Offering.Hosts(servers))
  }

  predicate Intercepts(servers: seq<Offering.Server>, f: Frame) {
    match f
    case Request(_, verb, _) => IsOurs(servers, verb)
    case Notification(verb, _) => IsOurs(servers, verb)
    case Response(id, _) => OwnedByName(id)
  }

  function Label(methods: Methods, f: Frame): Option<Method> {
    if f.Response? then Answers(methods, AgentToClient, f) else MethodOf(f)
  }

  // The session whose turn an agent's response ends.
  function EndsTurn(s: State, f: Frame): Option<string> {
    if f.Response? && Label(s.methods, f) == Some(SessionPrompt) && f.id in s.store.tables.prompts
    then Some(s.store.tables.prompts[f.id]) else None
  }

  function StopText(p: Payload): string {
    if p.Result? && p.body.stopText.Some? then p.body.stopText.value else "cancelled"
  }

  function WithQuestionsForgotten(s: State, session: string): State {
    s.(unanswered := WithoutSession(s.unanswered, session), store := Sessions.GivenUp(s.store, session))
  }

  // What a frame from the agent changes by being seen, whoever it is for.
  function WithAgentObserved(s: State, f: Frame, order: seq<string>): State {
    var named, ends := Label(s.methods, f), EndsTurn(s, f);
    var seen := s.(methods := Observed(s.methods, AgentToClient, f),
                   store := Sessions.FromAgent(s.store, f, order));
    var settled := if ends.Some? then WithQuestionsForgotten(seen, ends.value) else seen;
    if f.Response? && f.payload.Result? && named.Some? then
      settled.(recording := Handshaking.Recorded(settled.recording, named.value, f.payload.body))
    else settled
  }

  function WithForwarded(s: State, f: Frame, ends: Option<string>): State {
    if !f.Response? then Hand(s, Wire(f))
    else
      var answered := s.(bridge := WithAnswer(s.bridge, f.id));
      match Lookup(s.bridge, f.id)
      case Some(browser) => Hand(answered, Wire(Response(browser, f.payload)))
      case None => if ends.Some? then Hand(answered, Notify(TurnOver(ends.value, StopText(f.payload)))) else answered
  }

  function WithAgentFrame(s: State, f: Frame, order: seq<string>): State {
    var observed := WithAgentObserved(s, f, order);
    if Intercepts(s.servers, f) then Hand(observed, Notify(Inspected(true, f)))
    else
      var listed := if f.Request? then observed.(unanswered := observed.unanswered + [f]) else observed;
      var forwarded := WithForwarded(listed, f, EndsTurn(s, f));
      if f.Response? && Label(s.methods, f).Some? then Announced(forwarded, Label(s.methods, f).value, false)
      else forwarded
  }

  // What a frame from the agent leaves in the store and on the re-ask list.
  function AgentStore(s: State, f: Frame, order: seq<string>): Sessions.Store {
    var read, ends := Sessions.FromAgent(s.store, f, order), EndsTurn(s, f);
    if ends.Some? then Sessions.GivenUp(read, ends.value) else read
  }

  function AgentUnanswered(s: State, f: Frame): seq<Frame> {
    var ends := EndsTurn(s, f);
    if ends.Some? then WithoutSession(s.unanswered, ends.value)
    else if f.Request? && !Intercepts(s.servers, f) then s.unanswered + [f]
    else s.unanswered
  }

  lemma ObservedParts(s: State, f: Frame, order: seq<string>)
    ensures var o := WithAgentObserved(s, f, order);
            && o.methods == Observed(s.methods, AgentToClient, f) && o.store == AgentStore(s, f, order)
            && o.bridge == s.bridge && o.sink == s.sink && o.reader == s.reader && o.servers == s.servers
            && o.toAgent == s.toAgent
            && o.unanswered == (if EndsTurn(s, f).Some? then WithoutSession(s.unanswered, EndsTurn(s, f).value)
                                else s.unanswered)
  {
  }

  lemma ForwardedParts(s: State, f: Frame, ends: Option<string>)
    ensures var w := WithForwarded(s, f, ends);
            && w == s.(bridge := w.bridge, sink := w.sink)
            && w.bridge == (if f.Response? then WithAnswer(s.bridge, f.id) else s.bridge)
            && w.sink.generation == s.sink.generation
  {
  }

  // The tables a frame from the agent leaves behind, one by one.
  lemma AgentFrameParts(s: State, f: Frame, order: seq<string>)
    ensures var s' := WithAgentFrame(s, f, order);
            && s'.methods == Observed(s.methods, AgentToClient, f) && s'.store == AgentStore(s, f, order)
            && s'.bridge == (if f.Response? && !Intercepts(s.servers, f) then WithAnswer(s.bridge, f.id) else s.bridge)
            && s'.unanswered == AgentUnanswered(s, f)
            && s'.reader == s.reader && s'.servers == s.servers && s'.toAgent == s.toAgent
            && s'.sink.generation == s.sink.generation
  {
    ObservedParts(s, f, order);
    var o := WithAgentObserved(s, f, order);
    var listed := if f.Request? then o.(unanswered := o.unanswered + [f]) else o;
    ForwardedParts(listed, f, EndsTurn(s, f));
  }

  // And those a frame from the browser leaves behind when it reaches the agent,
  lemma RelayedParts(s: State, f: Frame)
    requires Relays(s, f)
    ensures var s', g := WithClientFrame(s, f), Presented(s, f);
            && g.Request? == f.Request? && g.Response? == f.Response? && (!f.Request? ==> g == f)
            && (f.Request? ==> g.id == Minted(s.bridge) && g.verb == f.verb)
            && s'.reader == s.reader && s'.servers == s.servers && s'.sink == s.sink
            && s'.bridge == (if f.Request? then WithRequest(s.bridge, f.id) else s.bridge)
            && s'.methods == Observed(s.methods, ClientToAgent, g)
            && s'.store == Sessions.FromClient(s.store, g)
            && s'.unanswered == (if f.Response? then WithoutId(s.unanswered, f.id) else s.unanswered)
            && s'.toAgent == s.toAgent + [ToAgent(Rewritten(g))]
  {
  }

  // and when it is answered here.
  lemma StoppedParts(s: State, f: Frame)
    requires !Relays(s, f)
    ensures var s' := WithClientFrame(s, f);
            && s'.reader == s.reader && s'.servers == s.servers && s'.sink.generation == s.sink.generation
            && s'.bridge == s.bridge && s'.methods == s.methods && s'.store == s.store
            && s'.unanswered == s.unanswered && s'.toAgent == s.toAgent
  {
    if f.Request? {
      HandAllGeneration(Hand(s, ExtensionReply(s.store, f)).sink, s.unanswered);
    }
  }

  // Whether a frame from the browser reaches the agent.
  predicate Relays(s: State, f: Frame) {
    && !(MethodOf(f).Some? && IsExtension(f.verb))
    && (f.Request? ==> Handshaking.Answer(s.recording, f.verb).None?)
  }

  lemma {:induction false} HandAllGeneration(sink: Sinking.Sink, frames: seq<Frame>)
    ensures HandAll(sink, frames).generation == sink.generation
  {
    if frames != [] {
      HandAllGeneration(sink, frames[..|frames| - 1]);
    }
  }

  // ===== One step =====

  datatype Input =
    | Attach
    | Detach(generation: nat)
    | WriterEnds
    | ClientFrame(generation: nat, frame: Frame)
    | ClientText(generation: nat, text: string)
    | AgentFrame(frame: Frame, order: seq<string>)
    | AgentText(text: string)
    | Mirror(text: string)
    | ServerToAgent(frame: Frame)   // answers and MCP traffic from the interceptor's own tasks

  function Step(s: State, i: Input): State {
    match i
    case Attach => WithAttach(s)
    case Detach(generation) => WithDetach(s, generation)
    case WriterEnds => s.(sink := s.sink.(open := false))
    case ClientFrame(_, f) => WithClientFrame(s, f)
    case ClientText(_, text) => s.(toAgent := s.toAgent + [RawToAgent(text)])
    case AgentFrame(f, order) => WithAgentFrame(s, f, order)
    case AgentText(text) => Hand(s, Raw(text))
    case Mirror(text) => Hand(s, Notify(Mirrored(text)))
    case ServerToAgent(f) => s.(toAgent := s.toAgent + [ToAgent(f)])
  }

  function Run(s: State, inputs: seq<Input>): State {
    if inputs == [] then s
    else Step(Run(s, inputs[..|inputs| - 1]), inputs[|inputs| - 1])
  }

  // Only the socket being read sends frames.
  predicate FromReader(s: State, i: Input) {
    i.ClientFrame? || i.ClientText? ==> s.reader == Some(i.generation)
  }

  // The agent does not reuse the id of a question still waiting for its answer.
  predicate AsksAnew(s: State, i: Input) {
    i.AgentFrame? && i.frame.Request? ==> forall f | f in s.unanswered :: f.Request? ==> f.id != i.frame.id
  }

  // Runs in which the first holds throughout, whatever the agent does,
  predicate Attended(s: State, inputs: seq<Input>) {
    inputs == [] ||
    (Attended(s, inputs[..|inputs| - 1]) && FromReader(Run(s, inputs[..|inputs| - 1]), inputs[|inputs| - 1]))
  }

  // and runs in which the second does, whoever sends.
  predicate Considerate(s: State, inputs: seq<Input>) {
    inputs == [] ||
    (Considerate(s, inputs[..|inputs| - 1]) && AsksAnew(Run(s, inputs[..|inputs| - 1]), inputs[|inputs| - 1]))
  }

  // ===== The same, in place =====

  class Connection {
    const servers: seq<Offering.Server>
    const ids: IdBridge
    const correlator: MethodCorrelator
    const handshake: Handshaking.Handshake
    const sessions: Sessions.SessionStore
    const browser: Sinking.BrowserSink
    var unanswered: seq<Frame>
    var toAgent: seq<AgentLine>
    var reader: Option<nat>

    function Value(): State
      reads this, ids, correlator, handshake, sessions, browser
    {
      State(servers, ids.Value(), correlator.Value(), handshake.Value(), sessions.Value(), unanswered,
            browser.Value(), toAgent, reader)
    }

    constructor (servers: seq<Offering.Server>)
      ensures Value() == Initially(servers)
      ensures fresh(ids) && fresh(correlator) && fresh(handshake) && fresh(sessions) && fresh(browser)
    {
      this.servers := servers;
      ids := new IdBridge();
      correlator := new MethodCorrelator();
      handshake := new Handshaking.Handshake();
      sessions := new Sessions.SessionStore();
      browser := new Sinking.BrowserSink();
      unanswered, toAgent, reader := [], [], None;
    }

    method AttachBrowser() returns (generation: nat)
      modifies this, ids, handshake, browser
      ensures Value() == WithAttach(old(Value())) && reader == Some(generation)
    {
      ids.Reattach();
      handshake.Reattach();
      if reader.Some? {
        browser.Send(Notify(TakenOver));
      }
      generation := browser.Attach();
      reader := Some(generation);
    }

    method DetachBrowser(generation: nat)
      modifies this, browser
      ensures Value() == WithDetach(old(Value()), generation)
    {
      browser.Detach(generation);
      if reader == Some(generation) {
        reader := None;
      }
    }

    method HandleClientFrame(f: Frame)
      modifies this, ids, correlator, handshake, sessions, browser
      ensures Value() == WithClientFrame(old(Value()), f)
    {
      if MethodOf(f).Some? && IsExtension(f.verb) {
        HandleExtension(f);
        return;
      }
      if f.Request? {
        var answer := handshake.TakeRecorded(f.verb);
        if answer.Some? {
          browser.Send(Wire(Response(f.id, Result(answer.value))));
          Announce(f.verb, true);
          return;
        }
      }
      var g := f;
      if f.Request? {
        var minted := ids.ForAgent(f.id);
        g := Request(minted, f.verb, f.params);
      }
      if servers != [] {
        g := Offering.Merged(g, servers, TransportsOf(handshake.Value()));
      }
      var _ := correlator.Observe(ClientToAgent, g);
      sessions.ObserveFromClient(g);
      if g.Response? {
        unanswered := WithoutId(unanswered, g.id);
      }
      toAgent := toAgent + [ToAgent(Rewritten(g))];
    }

    method HandleExtension(f: Frame)
      requires MethodOf(f).Some? && IsExtension(f.verb)
      modifies browser
      ensures Value() == WithExtension(old(Value()), f)
    {
      if f.Notification? {
        return;
      }
      browser.Send(ExtensionReply(sessions.Value(), f));
      // Only after the replay: a question arriving first would be wiped by it.
      if f.verb == SessionReplay {
        ReaskUnanswered();
      }
    }

    method ReaskUnanswered()
      modifies browser
      ensures browser.Value() == HandAll(old(browser.Value()), unanswered)
    {
      var i := 0;
      while i < |unanswered|
        invariant i <= |unanswered| && browser.Value() == HandAll(old(browser.Value()), unanswered[..i])
      {
        browser.Send(Wire(unanswered[i]));
        i := i + 1;
        assert unanswered[..i][..i - 1] == unanswered[..i - 1];
      }
      assert unanswered[..i] == unanswered;
    }

    method Announce(verb: Method, resumed: bool)
      modifies browser
      ensures Value() == Announced(old(Value()), verb, resumed)
    {
      if verb == Initialize {
        browser.Send(Notify(AgentInfo(resumed)));
      }
    }

    method ForgetQuestions(session: string)
      modifies this, sessions
      ensures Value() == WithQuestionsForgotten(old(Value()), session)
    {
      unanswered := WithoutSession(unanswered, session);
      var _ := sessions.CancelPendingElicitations(session);
    }

    method HandleAgentFrame(f: Frame, order: seq<string>)
      modifies this, ids, correlator, handshake, sessions, browser
      ensures Value() == WithAgentFrame(old(Value()), f, order)
    {
      var named, ends := ObserveAgentFrame(f, order);
      if Intercepts(servers, f) {
        browser.Send(Notify(Inspected(true, f)));
        return;
      }
      if f.Request? {
        unanswered := unanswered + [f];
      }
      Forward(f, ends);
      if f.Response? && named.Some? {
        Announce(named.value, false);
      }
    }

    method ObserveAgentFrame(f: Frame, order: seq<string>) returns (named: Option<Method>, ends: Option<string>)
      modifies this, correlator, handshake, sessions
      ensures Value() == WithAgentObserved(old(Value()), f, order)
      ensures named == Label(old(Value()).methods, f) && ends == EndsTurn(old(Value()), f)
    {
      var answered := correlator.Observe(AgentToClient, f);
      named := if f.Response? then answered else MethodOf(f);
      ends := if f.Response? && named == Some(SessionPrompt) then sessions.SessionOfPrompt(f.id) else None;
      sessions.ObserveFromAgent(f, order);
      if ends.Some? {
        ForgetQuestions(ends.value);
      }
      if f.Response? && f.payload.Result? && named.Some? {
        handshake.Record(named.value, f.payload.body);
      }
    }

    method Forward(f: Frame, ends: Option<string>)
      modifies ids, browser
      ensures Value() == WithForwarded(old(Value()), f, ends)
    {
      if !f.Response? {
        browser.Send(Wire(f));
        return;
      }
      var id := ids.ForBrowser(f.id);
      if id.None? {
        // Nobody attached is waiting for this, but a turn's end is told all the same.
        if ends.Some? {
          browser.Send(Notify(TurnOver(ends.value, StopText(f.payload))));
        }
        return;
      }
      browser.Send(Wire(Response(id.value, f.payload)));
    }
  }
}
