// Runs after which a page does not show what is stored for its session.

module PageRuns {
  import opened Wrappers
  import opened ThreadModel
  import opened Protocol
  import opened Bridging
  import opened Relay
  import opened RelayTables
  import opened Pages
  import opened RelayPages
  import opened RelayThreads
  import opened PageReload
  import Offering
  import RelayIsolation
  import RelayReload
  import ReloadLaws
  import Sessions
  import B = BrowserThread
  import S = ServerThread

  function Named(session: string): Params {
    NO_PARAMS.(sessionId := Some(session), typed := true, typedWithServers := true)
  }

  function FromPage(s: State, f: Frame): Input {
    ClientFrame(s.sink.generation, f)
  }

  function Loading(id: int, session: string): Frame {
    Request(Number(id), SessionLoad, Some(Named(session)))
  }

  function PromptingFor(id: int, session: string, blocks: seq<ContentBlock>): Frame {
    Request(Number(id), SessionPrompt, Some(Named(session).(prompt := Some(blocks))))
  }

  // These inputs, each as it should be, take the relay and the page from here to there.
  ghost predicate Reach(s: State, p: Page, inputs: seq<Input>, s': State, p': Page) {
    && Attachment(s, p, inputs) && Considerate(s, inputs)
    && s' == Run(s, inputs) && p' == Watched(s, p, inputs)
  }

  lemma OneMore(s: State, p: Page, front: seq<Input>, s1: State, p1: Page, last: Input)
    requires Reach(s, p, front, s1, p1) && Stays(s1, last) && Counts(p1, last) && AsksAnew(s1, last)
    ensures Reach(s, p, front + [last], Step(s1, last), Watch(s1, p1, last))
  {
    assert (front + [last])[..|front|] == front;
  }

  // What the relay keeps of a request it passes on.
  predicate PassedOn(s: State, s': State, id: RequestId, verb: Method) {
    && s'.bridge == WithRequest(s.bridge, id) && s'.methods.fromClient == s.methods.fromClient[Minted(s.bridge) := verb]
    && s'.unanswered == s.unanswered && s'.sink == s.sink && s'.servers == s.servers
  }

  lemma PresentedNamed(s: State, id: int, verb: Method, params: Params)
    requires params.isObject && params.typed && params.typedWithServers
    ensures var g := Presented(s, Request(Number(id), verb, Some(params)));
            && g.Request? && g.verb == verb && TypedSession(g) == params.sessionId && PromptOf(g) == params.prompt
            && g.id == Minted(s.bridge)
  {
  }

  lemma LoadStep(s: State, p: Page, id: int, session: string)
    requires RelayIsolation.NoAnswers(s.unanswered)
    ensures var f := Loading(id, session);
            var s', p' := Step(s, FromPage(s, f)), Watch(s, p, FromPage(s, f));
            && PassedOn(s, s', Number(id), SessionLoad)
            && s'.store.threads == s.store.threads[session := S.EMPTY]
                && s'.store.tables.prompts == s.store.tables.prompts
            && p' == Awaiting(p, f).(session := Some(session), thread := B.EMPTY, moving := false, recorded := None)
  {
    var f := Loading(id, session);
    WatchClient(s, p, s.sink.generation, f);
    RelayedParts(s, f);
    PresentedNamed(s, id, SessionLoad, Named(session));
  }

  lemma PromptKept(s: State, id: int, session: string, blocks: seq<ContentBlock>)
    ensures var f := PromptingFor(id, session, blocks);
            Relays(s, f) && TypedSession(Presented(s, f)) == Some(session)
                && TypedPrompt(Presented(s, f)) == Some(blocks)
  {
    PresentedNamed(s, id, SessionPrompt, Named(session).(prompt := Some(blocks)));
  }

  lemma PromptShown(s: State, p: Page, id: int, session: string, blocks: seq<ContentBlock>)
    requires RelayIsolation.NoAnswers(s.unanswered)
    ensures var f := PromptingFor(id, session, blocks);
            Watch(s, p, FromPage(s, f)) == Awaiting(p, f).(thread := B.AppendUserPrompt(p.thread, blocks))
  {
    PromptKept(s, id, session, blocks);
    WatchClient(s, p, s.sink.generation, PromptingFor(id, session, blocks));
  }

  lemma PromptStep(s: State, id: int, session: string, blocks: seq<ContentBlock>)
    ensures var s' := Step(s, FromPage(s, PromptingFor(id, session, blocks)));
            && PassedOn(s, s', Number(id), SessionPrompt)
            && s'.store.threads ==
              s.store.threads[session := S.WithPrompt(Sessions.ThreadOf(s.store.threads, session), blocks)]
            && s'.store.tables.prompts == s.store.tables.prompts[Minted(s.bridge) := session]
  {
    RelayedParts(s, PromptingFor(id, session, blocks));
    PromptKept(s, id, session, blocks);
  }

  // ----- A resumed session of which nothing is stored -----

  function Resuming(id: int, session: string): Frame {
    Request(Number(id), SessionResume, Some(Named(session)))
  }

  function Replaying(id: int, session: string): Frame {
    Request(Number(id), SessionReplay, Some(Named(session)))
  }

  function Stating(id: RequestId, modes: Modes): Frame {
    Response(id, Result(UNREADABLE.(stated := Some(Stated(Some(modes), None)))))
  }

  lemma ResumeStep(s: State, p: Page, id: int, session: string)
    requires RelayIsolation.NoAnswers(s.unanswered)
    ensures var f := Resuming(id, session);
            var s', p' := Step(s, FromPage(s, f)), Watch(s, p, FromPage(s, f));
            && PassedOn(s, s', Number(id), SessionResume)
            && s'.store.threads == s.store.threads && p' == Awaiting(p, f)
            && s'.store.tables.prompts == s.store.tables.prompts
                && s'.store.tables.creations == s.store.tables.creations
            && s'.store.tables.forgets == s.store.tables.forgets
  {
    var f := Resuming(id, session);
    WatchClient(s, p, s.sink.generation, f);
    RelayedParts(s, f);
    PresentedNamed(s, id, SessionResume, Named(session));
  }

  lemma ResumedStep(s: State, m: RequestId, modes: Modes)
    requires s.store.threads == map[] && m.Number?
    requires m !in s.store.tables.prompts && m !in s.store.tables.creations && m !in s.store.tables.forgets
    ensures var s' := Step(s, AgentFrame(Stating(m, modes), []));
            s'.store.threads == map[] && s'.unanswered == s.unanswered && s'.sink.generation == s.sink.generation
  {
    AgentFrameParts(s, Stating(m, modes), []);
    assert EndsTurn(s, Stating(m, modes)).None?;
  }

  lemma ResumedHeard(s: State, p: Page, id: RequestId, m: RequestId, session: string, modes: Modes)
    requires m.Number? && m in s.bridge.outstanding && s.bridge.outstanding[m] == id
    requires id in p.awaiting && p.awaiting[id].verb == SessionResume && p.awaiting[id].target == Some(session)
    ensures var p' := Watch(s, p, AgentFrame(Stating(m, modes), []));
            && p'.session == Some(session) && p'.thread == B.EMPTY.(modes := Some(modes))
                && p'.awaiting == p.awaiting - {id}
            && p'.recorded.None?
  {
    WatchAgent(s, p, Stating(m, modes), []);
  }

  lemma NothingReplayed(s: State, p: Page, id: int, session: string)
    requires s.unanswered == [] && session !in s.store.threads && p.session.Some? && p.recorded.None?
    ensures var f := Replaying(id, session);
            var s', p' := Step(s, FromPage(s, f)), Watch(s, p, FromPage(s, f));
            && s'.store == s.store && s'.unanswered == [] && s'.bridge == s.bridge
                && s'.sink.generation == s.sink.generation
            && p'.session == Some(session) && p'.thread == p.thread && !p'.moving
                && p'.awaiting == p.awaiting - {Number(id)}
  {
    var f := Replaying(id, session);
    WatchClient(s, p, s.sink.generation, f);
    StoppedParts(s, f);
  }

  // The relay, and a page that has just attached to it.
  function Fresh(servers: seq<Offering.Server>): State {
    WithAttach(Initially(servers))
  }

  lemma FreshIs(servers: seq<Offering.Server>)
    ensures var s := Fresh(servers);
            && s.bridge == NEW_BRIDGE && s.store == Sessions.EMPTY_STORE && s.unanswered == [] && s.sink.generation == 1
            && s.methods.fromClient == map[]
  {
  }

  function ResumeRun(session: string, modes: Modes, blocks: seq<ContentBlock>): seq<Input> {
    [] + [ClientFrame(1, Resuming(1, session))] + [AgentFrame(Stating(Number(1), modes), [])]
    + [ClientFrame(1, Replaying(2, session))] + [ClientFrame(1, PromptingFor(3, session, blocks))]
  }

  lemma NothingYet(servers: seq<Offering.Server>)
    ensures Reach(Fresh(servers), OPENED, [], Fresh(servers), OPENED)
  {
  }

  lemma ResumeAsked(servers: seq<Offering.Server>, session: string) returns (s: State, p: Page)
    ensures Reach(Fresh(servers), OPENED, [] + [ClientFrame(1, Resuming(1, session))], s, p)
    ensures s.store.threads == map[] && s.unanswered == [] && s.sink.generation == 1
            && s.bridge.outstanding == map[Number(1) := Number(1)]
    ensures Number(1) !in s.store.tables.prompts && Number(1) !in s.store.tables.creations
            && Number(1) !in s.store.tables.forgets
    ensures p == Awaiting(OPENED, Resuming(1, session))
  {
    var s0, i := Fresh(servers), ClientFrame(1, Resuming(1, session));
    FreshIs(servers);
    NothingYet(servers);
    ResumeStep(s0, OPENED, 1, session);
    OneMore(s0, OPENED, [], s0, OPENED, i);
    s, p := Step(s0, i), Watch(s0, OPENED, i);
  }

  lemma ResumeAnswered(servers: seq<Offering.Server>, session: string, modes: Modes) returns (s: State, p: Page)
    ensures Reach(Fresh(servers), OPENED,
                  [] + [ClientFrame(1, Resuming(1, session))] + [AgentFrame(Stating(Number(1), modes), [])], s, p)
    ensures s.store.threads == map[] && s.unanswered == [] && s.sink.generation == 1
    ensures p.session == Some(session) && p.recorded.None? && p.thread == B.EMPTY.(modes := Some(modes))
            && p.awaiting == map[]
  {
    var s1, p1 := ResumeAsked(servers, session);
    var i := AgentFrame(Stating(Number(1), modes), []);
    ResumedStep(s1, Number(1), modes);
    ResumedHeard(s1, p1, Number(1), Number(1), session, modes);
    OneMore(Fresh(servers), OPENED, [] + [ClientFrame(1, Resuming(1, session))], s1, p1, i);
    s, p := Step(s1, i), Watch(s1, p1, i);
  }

  lemma ThenReplayed(s0: State, p0: Page, front: seq<Input>, s: State, p: Page, session: string)
    returns (s': State, p': Page)
    requires Reach(s0, p0, front, s, p) && s.store.threads == map[] && s.unanswered == [] && s.sink.generation == 1
    requires p.session == Some(session) && p.recorded.None? && p.awaiting == map[]
    ensures Reach(s0, p0, front + [ClientFrame(1, Replaying(2, session))], s', p')
    ensures s'.store.threads == map[] && s'.unanswered == [] && s'.sink.generation == 1
    ensures p'.session == Some(session) && !p'.moving && p'.thread == p.thread && p'.awaiting == map[]
  {
    var i := ClientFrame(1, Replaying(2, session));
    NothingReplayed(s, p, 2, session);
    OneMore(s0, p0, front, s, p, i);
    s', p' := Step(s, i), Watch(s, p, i);
  }

  lemma ThenPrompted(s0: State, p0: Page, front: seq<Input>, s: State, p: Page, id: int, session: string,
                     blocks: seq<ContentBlock>)
    returns (s': State, p': Page)
    requires Reach(s0, p0, front, s, p) && s.unanswered == [] && Number(id) !in p.awaiting
    ensures Reach(s0, p0, front + [ClientFrame(s.sink.generation, PromptingFor(id, session, blocks))], s', p')
    ensures PassedOn(s, s', Number(id), SessionPrompt)
    ensures s'.store.threads ==
              s.store.threads[session := S.WithPrompt(Sessions.ThreadOf(s.store.threads, session), blocks)]
    ensures s'.store.tables.prompts == s.store.tables.prompts[Minted(s.bridge) := session]
    ensures p' == Awaiting(p, PromptingFor(id, session, blocks)).(thread := B.AppendUserPrompt(p.thread, blocks))
  {
    var i := FromPage(s, PromptingFor(id, session, blocks));
    PromptShown(s, p, id, session, blocks);
    PromptStep(s, id, session, blocks);
    OneMore(s0, p0, front, s, p, i);
    s', p' := Step(s, i), Watch(s, p, i);
  }

  // A page resumes a session of which nothing is stored, is told its modes, and
  // prompts it: the page has the modes, and a reload would not.
  lemma ResumeLosesModes(servers: seq<Offering.Server>, session: string, modes: Modes, blocks: seq<ContentBlock>)
    returns (s: State, p: Page)
    ensures Reach(Fresh(servers), OPENED, ResumeRun(session, modes, blocks), s, p)
    ensures p.session == Some(session) && !p.moving && p.thread.modes == Some(modes)
    ensures session in s.store.threads && s.store.threads[session].modes.None? && !Shows(s, p)
  {
    var front := [] + [ClientFrame(1, Resuming(1, session))] + [AgentFrame(Stating(Number(1), modes), [])];
    s, p := ResumeAnswered(servers, session, modes);
    s, p := ThenReplayed(Fresh(servers), OPENED, front, s, p, session);
    s, p := ThenPrompted(Fresh(servers), OPENED, front + [ClientFrame(1, Replaying(2, session))], s, p, 3, session,
        blocks);
  }

  lemma ThenLoaded(s0: State, p0: Page, front: seq<Input>, s: State, p: Page, id: int, session: string)
    returns (s': State, p': Page)
    requires Reach(s0, p0, front, s, p) && RelayIsolation.NoAnswers(s.unanswered) && Number(id) !in p.awaiting
    ensures Reach(s0, p0, front + [ClientFrame(s.sink.generation, Loading(id, session))], s', p')
    ensures PassedOn(s, s', Number(id), SessionLoad)
    ensures s'.store.threads == s.store.threads[session := S.EMPTY] && s'.store.tables.prompts == s.store.tables.prompts
    ensures p' == Awaiting(p, Loading(id, session)).(session := Some(session), thread := B.EMPTY, moving := false,
            recorded := None)
  {
    var i := FromPage(s, Loading(id, session));
    LoadStep(s, p, id, session);
    OneMore(s0, p0, front, s, p, i);
    s', p' := Step(s, i), Watch(s, p, i);
  }

  // ----- A load of the session on screen that fails -----

  function Chunk(session: string, said: ContentBlock): Frame {
    Notification(SessionUpdate, Some(Named(session).(update := Some(AgentChunk(Message, said, None)))))
  }

  lemma ChunkStep(s: State, p: Page, session: string, said: ContentBlock)
    requires p.session == Some(session)
    ensures var i := AgentFrame(Chunk(session, said), []);
            var s', p' := Step(s, i), Watch(s, p, i);
            && s'.bridge == s.bridge && s'.methods.fromClient == s.methods.fromClient && s'.unanswered == s.unanswered
            && s'.sink.generation == s.sink.generation && s'.store.tables == s.store.tables
            && p'.session == p.session && p'.moving == p.moving && p'.awaiting == p.awaiting
            && p'.thread == B.AppendAssistantChunk(p.thread, Message, said, None)
  {
    AgentFrameParts(s, Chunk(session, said), []);
    WatchAgent(s, p, Chunk(session, said), []);
    HeardRemains(p, Wire(Chunk(session, said)));
  }

  lemma RefusedStep(s: State, p: Page, m: int, id: RequestId, session: string)
    requires Number(m) in s.bridge.outstanding && s.bridge.outstanding[Number(m)] == id
    requires Number(m) !in s.store.tables.prompts && id in p.awaiting
    requires p.awaiting[id].verb == SessionLoad && p.awaiting[id].target.Some?
             && p.awaiting[id].session == Some(session)
    ensures var i := AgentFrame(Response(Number(m), Error(-32603, "gone")), []);
            && Step(s, i).store.threads == s.store.threads
            && var p' := Watch(s, p, i);
               p'.session == Some(session) && p'.thread == p.awaiting[id].thread && !p'.moving
  {
    var f := Response(Number(m), Error(-32603, "gone"));
    AgentFrameParts(s, f, []);
    WatchAgent(s, p, f, []);
    assert EndsTurn(s, f).None?;
  }

  function RefusedRun(session: string, said: ContentBlock): seq<Input> {
    [] + [ClientFrame(1, Loading(1, session))] + [AgentFrame(Chunk(session, said), [])]
    + [ClientFrame(1, Loading(2, session))] + [AgentFrame(Response(Number(2), Error(-32603, "gone")), [])]
  }

  lemma FirstLoaded(servers: seq<Offering.Server>, session: string) returns (s: State, p: Page)
    ensures Reach(Fresh(servers), OPENED, [] + [ClientFrame(1, Loading(1, session))], s, p)
    ensures s.unanswered == [] && s.sink.generation == 1 && s.bridge.next == 1 && Number(2) !in p.awaiting
    ensures s.store.tables.prompts == map[] && s.store.threads == map[session := S.EMPTY]
    ensures p.session == Some(session) && p.thread == B.EMPTY && !p.moving
  {
    FreshIs(servers);
    NothingYet(servers);
    s, p := ThenLoaded(Fresh(servers), OPENED, [], Fresh(servers), OPENED, 1, session);
  }

  lemma ThenSaid(s0: State, p0: Page, front: seq<Input>, s: State, p: Page, session: string, said: ContentBlock)
    returns (s': State, p': Page)
    requires Reach(s0, p0, front, s, p) && p.session == Some(session)
    ensures Reach(s0, p0, front + [AgentFrame(Chunk(session, said), [])], s', p')
    ensures s'.bridge == s.bridge && s'.unanswered == s.unanswered && s'.sink.generation == s.sink.generation
    ensures s'.store.tables == s.store.tables && p'.session == p.session && p'.moving == p.moving
            && p'.awaiting == p.awaiting
    ensures p'.thread == B.AppendAssistantChunk(p.thread, Message, said, None)
  {
    var i := AgentFrame(Chunk(session, said), []);
    ChunkStep(s, p, session, said);
    OneMore(s0, p0, front, s, p, i);
    s', p' := Step(s, i), Watch(s, p, i);
  }

  lemma ThenRefused(s0: State, p0: Page, front: seq<Input>, s: State, p: Page, m: int, id: RequestId, session: string)
    returns (s': State, p': Page)
    requires Reach(s0, p0, front, s, p) && Number(m) in s.bridge.outstanding && s.bridge.outstanding[Number(m)] == id
    requires Number(m) !in s.store.tables.prompts && id in p.awaiting
    requires p.awaiting[id].verb == SessionLoad && p.awaiting[id].target.Some?
             && p.awaiting[id].session == Some(session)
    ensures Reach(s0, p0, front + [AgentFrame(Response(Number(m), Error(-32603, "gone")), [])], s', p')
    ensures s'.store.threads == s.store.threads
    ensures p'.session == Some(session) && p'.thread == p.awaiting[id].thread && !p'.moving
  {
    var i := AgentFrame(Response(Number(m), Error(-32603, "gone")), []);
    RefusedStep(s, p, m, id, session);
    OneMore(s0, p0, front, s, p, i);
    s', p' := Step(s, i), Watch(s, p, i);
  }

  lemma LoadedAndSaid(servers: seq<Offering.Server>, session: string, said: ContentBlock) returns (s: State, p: Page)
    ensures Reach(Fresh(servers), OPENED,
            [] + [ClientFrame(1, Loading(1, session))] + [AgentFrame(Chunk(session, said), [])], s, p)
    ensures s.unanswered == [] && s.sink.generation == 1 && s.bridge.next == 1 && Number(2) !in p.awaiting
    ensures s.store.tables.prompts == map[] && p.session == Some(session)
    ensures p.thread == B.AppendAssistantChunk(B.EMPTY, Message, said, None)
  {
    s, p := FirstLoaded(servers, session);
    s, p := ThenSaid(Fresh(servers), OPENED, [] + [ClientFrame(1, Loading(1, session))], s, p, session, said);
  }

  lemma OneChunk(said: ContentBlock)
    ensures |B.AppendAssistantChunk(B.EMPTY, Message, said, None).entries| == 1
  {
  }

  // A page loads its own conversation again and is refused: it has the thread it
  // had, and the server, which began anew, has nothing.
  lemma RefusedLoadEmpties(servers: seq<Offering.Server>, session: string, said: ContentBlock)
    returns (s: State, p: Page)
    ensures Reach(Fresh(servers), OPENED, RefusedRun(session, said), s, p)
    ensures p.session == Some(session) && !p.moving && |p.thread.entries| == 1
    ensures session in s.store.threads && s.store.threads[session] == S.EMPTY && !Shows(s, p)
  {
    var s0, front := Fresh(servers),
        [] + [ClientFrame(1, Loading(1, session))] + [AgentFrame(Chunk(session, said), [])];
    s, p := LoadedAndSaid(servers, session, said);
    s, p := ThenLoaded(s0, OPENED, front, s, p, 2, session);
    s, p := ThenRefused(s0, OPENED, front + [ClientFrame(1, Loading(2, session))], s, p, 2, Number(2), session);
    OneChunk(said);
  }

  // ----- The end of a turn a page that has gone began in another session -----

  function Ended(m: int): Frame {
    Response(Number(m), Result(UNREADABLE.(stop := Some(EndTurn), stopText := Some("end_turn"))))
  }

  // The relay after one page prompted a session and went, and another attached.
  lemma Inherited(servers: seq<Offering.Server>, other: string, blocks: seq<ContentBlock>) returns (s: State, p: Page)
    ensures Reach(Fresh(servers), OPENED, [] + [ClientFrame(1, PromptingFor(1, other, blocks))], s, p)
    ensures s.unanswered == [] && s.sink.generation == 1 && s.bridge.next == 1
    ensures s.methods.fromClient == map[Number(1) := SessionPrompt] && s.store.tables.prompts == map[Number(1) := other]
    ensures s.store.threads == map[other := S.WithPrompt(S.EMPTY, blocks)]
  {
    FreshIs(servers);
    NothingYet(servers);
    s, p := ThenPrompted(Fresh(servers), OPENED, [], Fresh(servers), OPENED, 1, other, blocks);
  }

  lemma AttachedTo(s: State)
    ensures var s' := WithAttach(s);
            && s'.bridge.next == s.bridge.next && s'.bridge.outstanding == map[] && s'.methods == s.methods
                && s'.store == s.store
            && s'.unanswered == s.unanswered && s'.sink.generation == s.sink.generation + 1
            && Reach(s', OPENED, [], s', OPENED)
  {
  }

  lemma TurnOverHeard(s: State, p: Page, m: int, other: string)
    requires Number(m) in s.store.tables.prompts && s.store.tables.prompts[Number(m)] == other
    requires Number(m) in s.methods.fromClient && s.methods.fromClient[Number(m)] == SessionPrompt
    requires Number(m) !in s.bridge.outstanding
    ensures var p' := Watch(s, p, AgentFrame(Ended(m), []));
            p'.session == p.session && p'.moving == p.moving && p'.thread.status == Idle
  {
    var f := Ended(m);
    WatchAgent(s, p, f, []);
    assert Forwarded(s, f) == [Notify(TurnOver(other, "end_turn"))];
  }

  lemma TurnOverStep(s: State, m: int, other: string, session: string)
    requires Number(m) in s.store.tables.prompts && s.store.tables.prompts[Number(m)] == other && other != session
    requires Number(m) in s.methods.fromClient && s.methods.fromClient[Number(m)] == SessionPrompt
    requires session in s.store.threads
    ensures var s' := Step(s, AgentFrame(Ended(m), []));
            session in s'.store.threads && s'.store.threads[session] == s.store.threads[session]
  {
    var f := Ended(m);
    AgentFrameParts(s, f, []);
    assert EndsTurn(s, f) == Some(other);
    PromptAnswered(s.store, Number(m), f.payload);
  }

  lemma ThenTurnOver(s0: State, p0: Page, front: seq<Input>, s: State, p: Page, m: int, other: string, session: string)
    returns (s': State, p': Page)
    requires Reach(s0, p0, front, s, p)
    requires Number(m) in s.store.tables.prompts && s.store.tables.prompts[Number(m)] == other && other != session
    requires Number(m) in s.methods.fromClient && s.methods.fromClient[Number(m)] == SessionPrompt
    requires Number(m) !in s.bridge.outstanding && session in s.store.threads
    ensures Reach(s0, p0, front + [AgentFrame(Ended(m), [])], s', p')
    ensures session in s'.store.threads && s'.store.threads[session] == s.store.threads[session]
    ensures p'.session == p.session && p'.moving == p.moving && p'.thread.status == Idle
  {
    var i := AgentFrame(Ended(m), []);
    TurnOverHeard(s, p, m, other);
    TurnOverStep(s, m, other, session);
    OneMore(s0, p0, front, s, p, i);
    s', p' := Step(s, i), Watch(s, p, i);
  }

  function TurnOverRun(session: string, blocks: seq<ContentBlock>): seq<Input> {
    [] + [ClientFrame(2, Loading(1, session))] + [ClientFrame(2,
        PromptingFor(2, session, blocks))] + [AgentFrame(Ended(1), [])]
  }

  // The relay as a second page finds it.
  predicate LeftTurn(s: State, other: string) {
    && s.unanswered == [] && s.sink.generation == 2 && s.bridge.next == 1 && s.bridge.outstanding == map[]
    && s.methods.fromClient == map[Number(1) := SessionPrompt] && s.store.tables.prompts == map[Number(1) := other]
  }

  // The turn is still to end, and nobody attached asked for it.
  predicate Waits(s: State, other: string) {
    && Number(1) !in s.bridge.outstanding
    && Number(1) in s.methods.fromClient && s.methods.fromClient[Number(1)] == SessionPrompt
    && Number(1) in s.store.tables.prompts && s.store.tables.prompts[Number(1)] == other
  }

  lemma PassingWaits(s: State, s': State, other: string, id: RequestId, verb: Method)
    requires Waits(s, other) && PassedOn(s, s', id, verb) && s.bridge.next >= 1
    requires Number(1) in s'.store.tables.prompts && s'.store.tables.prompts[Number(1)] == other
    ensures Waits(s', other)
  {
  }

  lemma SecondLoads(s0: State, other: string, session: string) returns (s: State, p: Page)
    requires LeftTurn(s0, other) && Reach(s0, OPENED, [], s0, OPENED)
    ensures Reach(s0, OPENED, [] + [ClientFrame(2, Loading(1, session))], s, p)
    ensures s.unanswered == [] && s.sink.generation == 2 && s.bridge.next == 2 && Waits(s, other)
    ensures session in s.store.threads && s.store.threads[session] == S.EMPTY
    ensures p.session == Some(session) && p.thread == B.EMPTY && !p.moving && Number(2) !in p.awaiting
  {
    s, p := ThenLoaded(s0, OPENED, [], s0, OPENED, 1, session);
    PassingWaits(s0, s, other, Number(1), SessionLoad);
  }

  lemma SecondPrompts(s0: State, other: string, session: string, blocks: seq<ContentBlock>) returns (s: State, p: Page)
    requires LeftTurn(s0, other) && Reach(s0, OPENED, [], s0, OPENED)
    ensures Reach(s0, OPENED, [] + [ClientFrame(2, Loading(1, session))] + [ClientFrame(2,
            PromptingFor(2, session, blocks))], s, p)
    ensures Waits(s, other) && session in s.store.threads && s.store.threads[session].status == Generating
    ensures p.session == Some(session) && !p.moving
  {
    var s1, p1 := SecondLoads(s0, other, session);
    s, p := ThenPrompted(s0, OPENED, [] + [ClientFrame(2, Loading(1, session))], s1, p1, 2, session, blocks);
    PassingWaits(s1, s, other, Number(2), SessionPrompt);
  }

  lemma SecondPage(servers: seq<Offering.Server>, other: string, blocks: seq<ContentBlock>) returns (s0: State)
    ensures s0 == WithAttach(Run(Fresh(servers), [] + [ClientFrame(1, PromptingFor(1, other, blocks))]))
    ensures LeftTurn(s0, other) && Reach(s0, OPENED, [], s0, OPENED)
  {
    var before, gone := Inherited(servers, other, blocks);
    s0 := WithAttach(before);
    AttachedTo(before);
  }

  lemma OtherStatus(s: State, p: Page, session: string)
    requires p.session == Some(session) && session in s.store.threads
             && s.store.threads[session].status != p.thread.status
    ensures !Shows(s, p)
  {
  }

  // One page prompts a session and goes; the next loads another and prompts that.
  // When the first turn ends the page's own looks over, and is not.
  lemma OtherTurnStopsThis(servers: seq<Offering.Server>, other: string, session: string, blocks: seq<ContentBlock>)
    returns (s0: State, s: State, p: Page)
    requires other != session
    ensures s0 == WithAttach(Run(Fresh(servers), [] + [ClientFrame(1, PromptingFor(1, other, blocks))]))
    ensures Reach(s0, OPENED, TurnOverRun(session, blocks), s, p)
    ensures p.session == Some(session) && !p.moving && p.thread.status == Idle
    ensures session in s.store.threads && s.store.threads[session].status == Generating && !Shows(s, p)
  {
    s0 := SecondPage(servers, other, blocks);
    s, p := SecondPrompts(s0, other, session, blocks);
    var front := [] + [ClientFrame(2, Loading(1, session))] + [ClientFrame(2, PromptingFor(2, session, blocks))];
    s, p := ThenTurnOver(s0, OPENED, front, s, p, 1, other, session);
    OtherStatus(s, p, session);
  }

  // ----- A completion another session's thread takes -----

  function Asking(id: int, session: string, elicitationId: string, url: string): Input {
    AgentFrame(RelayReload.AskFrame(id, session, Url(elicitationId, url)), [])
  }

  lemma AskStep(s: State, p: Page, id: int, session: string, elicitationId: string, url: string)
    ensures var i := Asking(id, session, elicitationId, url);
            var s', p' := Step(s, i), Watch(s, p, i);
            && s'.unanswered == s.unanswered + [i.frame]
            && s'.store.threads == s.store.threads[session :=
                 S.WithQuestion(Sessions.ThreadOf(s.store.threads, session), Number(id), "?", None,
                     Known(Url(elicitationId, url)))]
            && p'.session == p.session && p'.moving == p.moving
            && p'.thread == B.Step(p.thread, Questioned(Number(id), "?", None, Known(Url(elicitationId, url))))
  {
    var f := RelayReload.AskFrame(id, session, Url(elicitationId, url));
    RelayReload.AskedStep(s, id, session, Url(elicitationId, url));
    AgentFrameParts(s, f, []);
    WatchAgent(s, p, f, []);
    HeardRemains(p, Wire(f));
  }

  lemma ThenAsked(s0: State, p0: Page, front: seq<Input>, s: State, p: Page, id: int, session: string,
                  elicitationId: string, url: string)
    returns (s': State, p': Page)
    requires Reach(s0, p0, front, s, p) && forall f | f in s.unanswered :: f.Request? ==> f.id != Number(id)
    ensures Reach(s0, p0, front + [Asking(id, session, elicitationId, url)], s', p')
    ensures s'.store.threads == s.store.threads[session :=
              S.WithQuestion(Sessions.ThreadOf(s.store.threads, session), Number(id), "?", None,
                  Known(Url(elicitationId, url)))]
    ensures p'.session == p.session && p'.moving == p.moving
    ensures p'.thread == B.Step(p.thread, Questioned(Number(id), "?", None, Known(Url(elicitationId, url))))
  {
    var i := Asking(id, session, elicitationId, url);
    AskStep(s, p, id, session, elicitationId, url);
    OneMore(s0, p0, front, s, p, i);
    s', p' := Step(s, i), Watch(s, p, i);
  }

  lemma CompleteStep(s: State, p: Page, elicitationId: string, other: string, session: string)
    requires other in s.store.threads && S.CanComplete(s.store.threads[other], elicitationId)
    requires session in s.store.threads && other != session
    ensures var i := AgentFrame(RelayReload.Completion(elicitationId), [other, session]);
            var s', p' := Step(s, i), Watch(s, p, i);
            && session in s'.store.threads && s'.store.threads[session] == s.store.threads[session]
            && p'.session == p.session && p'.moving == p.moving
                && p'.thread == B.Step(p.thread, Completed(elicitationId))
  {
    var f := RelayReload.Completion(elicitationId);
    AgentFrameParts(s, f, [other, session]);
    WatchAgent(s, p, f, [other, session]);
    HeardRemains(p, Wire(f));
  }

  lemma ThenCompleted(s0: State, p0: Page, front: seq<Input>, s: State, p: Page, elicitationId: string,
                      other: string, session: string)
    returns (s': State, p': Page)
    requires Reach(s0, p0, front, s, p)
    requires other in s.store.threads && S.CanComplete(s.store.threads[other], elicitationId)
    requires session in s.store.threads && other != session
    ensures Reach(s0, p0, front + [AgentFrame(RelayReload.Completion(elicitationId), [other, session])], s', p')
    ensures session in s'.store.threads && s'.store.threads[session] == s.store.threads[session]
    ensures p'.session == p.session && p'.moving == p.moving && p'.thread == B.Step(p.thread, Completed(elicitationId))
  {
    var i := AgentFrame(RelayReload.Completion(elicitationId), [other, session]);
    CompleteStep(s, p, elicitationId, other, session);
    OneMore(s0, p0, front, s, p, i);
    s', p' := Step(s, i), Watch(s, p, i);
  }

  // One session has a question open; a page attaches and loads another.
  lemma QuestionLeft(servers: seq<Offering.Server>, other: string, elicitationId: string, url: string)
    returns (s0: State)
    ensures s0 == WithAttach(Step(Initially(servers), Asking(1, other, elicitationId, url)))
    ensures Reach(s0, OPENED, [], s0, OPENED) && s0.sink.generation == 1
    ensures s0.unanswered == [RelayReload.AskFrame(1, other, Url(elicitationId, url))]
    ensures s0.store.threads == map[other := S.WithQuestion(S.EMPTY, Number(1), "?", None,
            Known(Url(elicitationId, url)))]
  {
    RelayReload.AskedStep(Initially(servers), 1, other, Url(elicitationId, url));
    var asked := Step(Initially(servers), Asking(1, other, elicitationId, url));
    AgentFrameParts(Initially(servers), RelayReload.AskFrame(1, other, Url(elicitationId, url)), []);
    s0 := WithAttach(asked);
    AttachedTo(asked);
  }

  lemma BothAsked(s0: State, other: string, session: string, elicitationId: string, url: string)
    returns (s: State, p: Page)
    requires other != session && Reach(s0, OPENED, [], s0, OPENED) && s0.sink.generation == 1
    requires s0.unanswered == [RelayReload.AskFrame(1, other, Url(elicitationId, url))]
    requires s0.store.threads == map[other := S.WithQuestion(S.EMPTY, Number(1), "?", None,
             Known(Url(elicitationId, url)))]
    ensures Reach(s0, OPENED, [] + [ClientFrame(1, Loading(1, session))] + [Asking(2, session, elicitationId, url)],
            s, p)
    ensures other in s.store.threads
    ensures s.store.threads[other] == S.WithQuestion(S.EMPTY, Number(1), "?", None, Known(Url(elicitationId, url)))
    ensures session in s.store.threads
    ensures s.store.threads[session] == S.WithQuestion(S.EMPTY, Number(2), "?", None, Known(Url(elicitationId, url)))
    ensures p.session == Some(session) && !p.moving
    ensures p.thread == B.Step(B.EMPTY, Questioned(Number(2), "?", None, Known(Url(elicitationId, url))))
  {
    s, p := ThenLoaded(s0, OPENED, [], s0, OPENED, 1, session);
    s, p := ThenAsked(s0, OPENED, [] + [ClientFrame(1, Loading(1, session))], s, p, 2, session, elicitationId, url);
  }

  lemma OneOpen(id: int, elicitationId: string, url: string)
    ensures var t := S.WithQuestion(S.EMPTY, Number(id), "?", None, Known(Url(elicitationId, url)));
            S.CanComplete(t, elicitationId) && |t.entries| == 1 && t.entries[0].Asked?
                && t.entries[0].asked.state == Pending
    ensures var b := B.Step(B.EMPTY, Questioned(Number(id), "?", None, Known(Url(elicitationId, url))));
            var b' := B.Step(b, Completed(elicitationId));
            |b'.entries| == 1 && b'.entries[0].Asked? && b'.entries[0].asked.state == Accepted
  {
    var t := S.WithQuestion(S.EMPTY, Number(id), "?", None, Known(Url(elicitationId, url)));
    assert S.PendingUrl(t.entries[0], elicitationId);
  }

  function CompletionRun(other: string, session: string, elicitationId: string, url: string): seq<Input> {
    [] + [ClientFrame(1, Loading(1, session))] + [Asking(2, session, elicitationId, url)]
    + [AgentFrame(RelayReload.Completion(elicitationId), [other, session])]
  }

  // Two sessions each have a question open under one elicitation id. Completed, it
  // is accepted on the page that shows the second, and on the thread of the first.
  lemma OtherTakesCompletion(servers: seq<Offering.Server>, other: string, session: string, elicitationId: string,
                             url: string)
    returns (s0: State, s: State, p: Page)
    requires other != session
    ensures s0 == WithAttach(Step(Initially(servers), Asking(1, other, elicitationId, url)))
    ensures Reach(s0, OPENED, CompletionRun(other, session, elicitationId, url), s, p)
    ensures p.session == Some(session) && !p.moving && session in s.store.threads && !Shows(s, p)
    ensures var t := s.store.threads[session];
            |t.entries| == 1 && t.entries[0].Asked? && t.entries[0].asked.state == Pending
    ensures |p.thread.entries| == 1 && p.thread.entries[0].Asked? && p.thread.entries[0].asked.state == Accepted
  {
    s0 := QuestionLeft(servers, other, elicitationId, url);
    s, p := BothAsked(s0, other, session, elicitationId, url);
    OneOpen(1, elicitationId, url);
    OneOpen(2, elicitationId, url);
    var front := [] + [ClientFrame(1, Loading(1, session))] + [Asking(2, session, elicitationId, url)];
    s, p := ThenCompleted(s0, OPENED, front, s, p, elicitationId, other, session);
    OtherState(s, p, session);
  }

  lemma OtherState(s: State, p: Page, session: string)
    requires p.session == Some(session) && session in s.store.threads
    requires var t := s.store.threads[session];
             |t.entries| == 1 && t.entries[0].Asked? && t.entries[0].asked.state == Pending
    requires |p.thread.entries| == 1 && p.thread.entries[0].Asked? && p.thread.entries[0].asked.state == Accepted
    ensures !Shows(s, p)
  {
    assert Stored(s, session) == s.store.threads[session];
    assert !ReloadLaws.Alike(Stored(s, session).entries[0], p.thread.entries[0], 0);
  }
}
