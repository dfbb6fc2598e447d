// What the relay says and passes on, frame by frame.

module RelayRules {
  import opened Wrappers
  import opened ThreadModel
  import opened Protocol
  import opened Bridging
  import opened Relay
  import opened RelayTables
  import Handshaking
  import Offering
  import Sessions
  import Sinking
  import Replay

  // ===== Answered by the server itself =====

  // The one method of its own the server knows is the replay: of a session it holds
  // it sends the thread, of another null. A body that does not read, and any other
  // method, is an error.
  lemma ExtensionIsAnswered(s: State, generation: nat, f: Frame)
    requires f.Request? && IsExtension(f.verb)
    ensures var log := Step(s, ClientFrame(generation, f)).sink.log;
            && |log| > |s.sink.log| && log[..|s.sink.log|] == s.sink.log
            && log[|s.sink.log|] == Sinking.Delivery(
                 if !f.verb.SessionReplay? then Wire(Response(f.id, Error(-32601, "method not found")))
                 else if f.params.None? || !f.params.value.typed || f.params.value.sessionId.None?
                 then Wire(Response(f.id, Error(-32602, "invalid params")))
                 else if f.params.value.sessionId.value in s.store.threads
                 then Replayed(f.id, Replay.Serialised(s.store.threads[f.params.value.sessionId.value]))
                 else Replayed(f.id, JNull),
                 if s.sink.sender && s.sink.open then Some(s.sink.generation) else None)
            && (!f.verb.SessionReplay? ==> |log| == |s.sink.log| + 1)
  {
    HandAllKeeps(Hand(s, ExtensionReply(s.store, f)).sink, s.unanswered);
  }

  lemma {:induction false} HandAllKeeps(sink: Sinking.Sink, frames: seq<Frame>)
    ensures sink.log <= HandAll(sink, frames).log
  {
    if frames != [] {
      HandAllKeeps(sink, frames[..|frames| - 1]);
    }
  }

  // ===== What reaches the agent =====

  function LastSent(s: State): AgentLine
    requires s.toAgent != []
  {
    s.toAgent[|s.toAgent| - 1]
  }

  // An `initialize` that reaches the agent declares what the server provides,
  // whatever the browser declared, if its body is an object at all.
  lemma InitializeDeclares(s: State, generation: nat, f: Frame)
    requires f.Request? && f.verb == Initialize && s.recording.initialize.None?
    ensures var s' := Step(s, ClientFrame(generation, f));
            && |s'.toAgent| == |s.toAgent| + 1
            && LastSent(s') == ToAgent(Request(Number(s.bridge.next + 1), Initialize,
                 if f.params.None? then Some(NO_PARAMS.(capable := true))
                 else if f.params.value.isObject then Some(f.params.value.(capable := true)) else f.params))
  {
    RelayedParts(s, f);
  }

  // A server the agent can be told of: it is there, and reached by a process the
  // agent starts itself or in a way the agent said it supports.
  predicate Tellable(server: Offering.Server, t: Transports) {
    server.available &&
    (server.kind == Offering.Stdio || (server.kind == Offering.Http && t.http) ||
     (server.kind == Offering.Sse && t.sse) || (server.kind == Offering.OverAcp && t.acp))
  }

  // Where in the configuration the added names come from.
  predicate TakenFrom(added: seq<string>, servers: seq<Offering.Server>, at: seq<nat>) {
    && |at| == |added|
    && (forall k | 0 <= k < |at| :: at[k] < |servers| && added[k] == servers[at[k]].name)
    && (forall j, k | 0 <= j < k < |at| :: at[j] < at[k])
  }

  // Each qualifies: the client did not declare it, and the agent can be told of it.
  predicate Qualifies(server: Offering.Server, declared: seq<string>, t: Transports) {
    server.name !in declared && Tellable(server, t)
  }

  predicate AllOf(servers: seq<Offering.Server>, declared: seq<string>, t: Transports, at: seq<nat>) {
    forall i | 0 <= i < |servers| :: i in at <==> Qualifies(servers[i], declared, t)
  }

  lemma AddedLast(front: seq<Offering.Server>, last: Offering.Server, declared: seq<string>, t: Transports)
    ensures Offering.Added(front + [last], declared, t) ==
              Offering.Added(front, declared, t) + if Qualifies(last, declared, t) then [last.name] else []
  {
    assert (front + [last])[..|front|] == front;
  }

  lemma TakenMore(added: seq<string>, front: seq<Offering.Server>, last: Offering.Server, at: seq<nat>)
    requires TakenFrom(added, front, at)
    ensures TakenFrom(added, front + [last], at)
    ensures TakenFrom(added + [last.name], front + [last], at + [|front|])
  {
  }

  lemma AllMore(front: seq<Offering.Server>, last: Offering.Server, declared: seq<string>, t: Transports, at: seq<nat>)
    requires AllOf(front, declared, t, at) && forall k | 0 <= k < |at| :: at[k] < |front|
    ensures AllOf(front + [last], declared, t, if Qualifies(last, declared, t) then at + [|front|] else at)
  {
    var all := front + [last];
    assert forall i | 0 <= i < |front| :: all[i] == front[i];
    assert all[|front|] == last;
  }

  // What is added to a session's servers: in the order of the configuration, each
  // that qualifies and no other.
  lemma {:induction false} AddedInOrder(servers: seq<Offering.Server>, declared: seq<string>, t: Transports)
    returns (at: seq<nat>)
    ensures TakenFrom(Offering.Added(servers, declared, t), servers, at) && AllOf(servers, declared, t, at)
  {
    if servers == [] {
      at := [];
    } else {
      var front, last := servers[..|servers| - 1], servers[|servers| - 1];
      assert servers == front + [last];
      at := AddedInOrder(front, declared, t);
      AddedLast(front, last, declared, t);
      TakenMore(Offering.Added(front, declared, t), front, last, at);
      AllMore(front, last, declared, t, at);
      if Qualifies(last, declared, t) {
        at := at + [|front|];
      }
    }
  }

  // A request that opens a session, be it a new one, a load, a fork or one resumed,
  // reaches the agent listing what the client declared and then what is added, by
  // what the agent said of itself at the first `initialize`.
  lemma SessionOffersServers(s: State, generation: nat, f: Frame)
    requires f.Request? && Relays(s, f)
    requires f.verb == SessionNew || f.verb == SessionLoad || f.verb == SessionFork || f.verb == SessionResume
    ensures var s', was := Step(s, ClientFrame(generation, f)), if f.params.Some? then f.params.value else NO_PARAMS;
            var t := if s.recording.initialize.Some? then s.recording.initialize.value.transports
                     else Transports(false, false, false);
            && |s'.toAgent| == |s.toAgent| + 1 && LastSent(s').ToAgent? && LastSent(s').frame.Request?
            && LastSent(s').frame.id == Number(s.bridge.next + 1) && LastSent(s').frame.verb == f.verb
            && if was.isObject && was.servers.Some? && Offering.Added(s.servers, was.servers.value, t) != [] then
                 LastSent(s').frame.params == Some(was.(typed := was.typedWithServers,
                   servers := Some(was.servers.value + Offering.Added(s.servers, was.servers.value, t))))
               else LastSent(s').frame.params == f.params
  {
    RelayedParts(s, f);
  }

  // A request that came with no body gets one, an object that holds what the server
  // puts in it and nothing else.
  lemma BodyIsMade(s: State, generation: nat, f: Frame)
    requires f.Request? && f.params.None? && Relays(s, f)
    ensures var sent := Step(s, ClientFrame(generation, f)).toAgent;
            var t := if s.recording.initialize.Some? then s.recording.initialize.value.transports
                     else Transports(false, false, false);
            var added := Offering.Added(s.servers, [], t);
            && |sent| == |s.toAgent| + 1 && sent[|s.toAgent|].ToAgent? && sent[|s.toAgent|].frame.Request?
            && sent[|s.toAgent|].frame.params ==
                 if f.verb == Initialize then
                   Some(Params("{}", true, true, Some([]), None, false, false, None, None, None, None, None, None))
                 else if f.verb in {SessionNew, SessionLoad, SessionFork, SessionResume} && added != [] then
                   Some(Params("{}", true, false, Some(added), None, false, false, None, None, None, None, None, None))
                 else None
  {
    RelayedParts(s, f);
    var t := if s.recording.initialize.Some? then s.recording.initialize.value.transports
             else Transports(false, false, false);
    assert [] + Offering.Added(s.servers, [], t) == Offering.Added(s.servers, [], t);
  }

  // Every other request reaches the agent as it came, under the next number.
  lemma OtherRequestsPass(s: State, generation: nat, f: Frame)
    requires f.Request? && Relays(s, f) && f.verb != Initialize
    requires f.verb != SessionNew && f.verb != SessionLoad && f.verb != SessionFork && f.verb != SessionResume
    ensures var s' := Step(s, ClientFrame(generation, f));
            |s'.toAgent| == |s.toAgent| + 1
            && LastSent(s') == ToAgent(Request(Number(s.bridge.next + 1), f.verb, f.params))
  {
    RelayedParts(s, f);
  }

  // An answer and a notification reach it as they are, with the agent's own id, but
  // a notification for this server stays.
  lemma OtherFramesPass(s: State, generation: nat, f: Frame)
    requires !f.Request?
    ensures Step(s, ClientFrame(generation, f)).toAgent == s.toAgent +
              if f.Notification? && (f.verb.SessionReplay? || f.verb.Extension?) then [] else [ToAgent(f)]
  {
    if Relays(s, f) {
      RelayedParts(s, f);
    } else {
      StoppedParts(s, f);
    }
  }

  // ===== What reaches the browser =====

  // The notice of a turn over names its session and its reason: what the answer
  // says, or that it was cancelled, if it failed or says nothing.
  lemma TurnOverSays(s: State, id: RequestId, p: Payload, order: seq<string>)
    requires Consistent(s) && id in s.store.tables.prompts && id !in s.bridge.outstanding
    ensures Step(s, AgentFrame(Response(id, p), order)).sink.log == s.sink.log +
              [Sinking.Delivery(Notify(TurnOver(s.store.tables.prompts[id],
                 if p.Result? && p.body.stopText.Some? then p.body.stopText.value else "cancelled")),
                 if s.sink.sender && s.sink.open then Some(s.sink.generation) else None)]
  {
    ObservedParts(s, Response(id, p), order);
    assert EndsTurn(s, Response(id, p)) == Some(s.store.tables.prompts[id]);
  }

  // The first answer to `initialize` is followed by the agent's introduction, as
  // one not met before.
  lemma InitializeIsAnswered(s: State, id: RequestId, p: Payload, order: seq<string>)
    requires Consistent(s) && id in s.bridge.outstanding && s.methods.fromClient[id] == Initialize
    ensures var to := if s.sink.sender && s.sink.open then Some(s.sink.generation) else None;
            Step(s, AgentFrame(Response(id, p), order)).sink.log == s.sink.log +
              [Sinking.Delivery(Wire(Response(s.bridge.outstanding[id], p)), to),
               Sinking.Delivery(Notify(AgentInfo(false)), to)]
  {
    ObservedParts(s, Response(id, p), order);
  }

  lemma NotOwned(id: RequestId)
    requires !(id.Name? && "mjx-mcp-" <= id.s)
    ensures !OwnedByName(id)
  {
  }

  // An answer the agent gives under an id of the relay's own making goes to the
  // browser whose request had it, under the id it used, and the id is free again.
  lemma AnswersFindTheBrowser(s: State, id: RequestId, p: Payload, order: seq<string>)
    requires id in s.bridge.outstanding && !(id.Name? && "mjx-mcp-" <= id.s)
    ensures var s' := Step(s, AgentFrame(Response(id, p), order));
            && s'.bridge.outstanding == s.bridge.outstanding - {id}
            && s.sink.log + [Sinking.Delivery(Wire(Response(s.bridge.outstanding[id], p)),
                 if s.sink.sender && s.sink.open then Some(s.sink.generation) else None)] <= s'.sink.log
            && forall k | |s.sink.log| < k < |s'.sink.log| :: s'.sink.log[k].line.Notify?
  {
    NotOwned(id);
    ObservedParts(s, Response(id, p), order);
  }

  predicate OnlyNotices(log: seq<Sinking.Delivery>, was: seq<Sinking.Delivery>) {
    was <= log && forall k | |was| <= k < |log| :: log[k].line.Notify?
  }

  lemma NoticeMore(s: State, was: seq<Sinking.Delivery>, line: Line)
    requires OnlyNotices(s.sink.log, was) && line.Notify?
    ensures OnlyNotices(Hand(s, line).sink.log, was)
  {
  }

  // An answer under any other id goes to nobody.
  lemma OtherAnswersAreDropped(s: State, id: RequestId, p: Payload, order: seq<string>)
    requires id !in s.bridge.outstanding && !(id.Name? && "mjx-mcp-" <= id.s)
    ensures var s' := Step(s, AgentFrame(Response(id, p), order));
            s'.bridge.outstanding == s.bridge.outstanding && OnlyNotices(s'.sink.log, s.sink.log)
  {
    var f := Response(id, p);
    NotOwned(id);
    ObservedParts(s, f, order);
    var observed, ends := WithAgentObserved(s, f, order), EndsTurn(s, f);
    var answered := observed.(bridge := WithAnswer(observed.bridge, id));
    if ends.Some? {
      NoticeMore(answered, s.sink.log, Notify(TurnOver(ends.value, StopText(p))));
    }
    NoticeMore(WithForwarded(observed, f, ends), s.sink.log, Notify(AgentInfo(false)));
  }

  // What does not read is passed on as it is, both ways, and so is what the
  // server's own tasks have to say. Once the writer has ended nothing is taken.
  lemma UnreadPasses(s: State, generation: nat, text: string, f: Frame)
    ensures var live := s.sink.sender && s.sink.open;
            var to := if live then Some(s.sink.generation) else None;
            && Step(s, AgentText(text)) ==
                 s.(sink := s.sink.(sender := live, log := s.sink.log + [Sinking.Delivery(Raw(text), to)]))
            && Step(s, Mirror(text)) ==
                 s.(sink := s.sink.(sender := live, log := s.sink.log + [Sinking.Delivery(Notify(Mirrored(text)), to)]))
            && Step(s, ClientText(generation, text)) == s.(toAgent := s.toAgent + [RawToAgent(text)])
            && Step(s, ServerToAgent(f)) == s.(toAgent := s.toAgent + [ToAgent(f)])
    ensures var ended := Step(s, WriterEnds);
            && Step(ended, AgentText(text)).sink.log == s.sink.log + [Sinking.Delivery(Raw(text), None)]
            && ended.sink.generation == s.sink.generation && ended.reader == s.reader
            && ended.toAgent == s.toAgent && ended.bridge == s.bridge && ended.methods == s.methods
            && ended.store == s.store && ended.unanswered == s.unanswered && ended.recording == s.recording
  {
  }

  // A browser that attaches displaces, with a notice, the one being read, and no
  // one who has gone.
  lemma AttachTells(s: State)
    ensures Step(s, Attach).sink.log == s.sink.log +
              if s.reader.Some? then
                [Sinking.Delivery(Notify(TakenOver), if s.sink.sender && s.sink.open then Some(s.sink.generation)
                    else None)]
              else []
    ensures Step(s, Attach).reader == Some(Step(s, Attach).sink.generation)
    ensures Step(s, Detach(s.sink.generation)).reader ==
              if s.reader == Some(s.sink.generation) then None else s.reader
  {
  }

  // Nobody takes a line before a browser attaches; from then on its socket does, until
  // that one detaches. Another's detaching is nothing to it.
  lemma SocketsTake(s: State, servers: seq<Offering.Server>, generation: nat, text: string)
    ensures Step(Initially(servers), AgentText(text)).sink.log == [Sinking.Delivery(Raw(text), None)]
    ensures var attached, n := Step(s, Attach), s.sink.generation + 1;
            && attached.sink.generation == n
            && Step(attached, AgentText(text)).sink.log ==
                 attached.sink.log + [Sinking.Delivery(Raw(text), Some(n))]
            && Step(Step(attached, Detach(generation)), AgentText(text)).sink.log ==
                 attached.sink.log + [Sinking.Delivery(Raw(text), if generation == n then None else Some(n))]
  {
  }

  // ===== What is remembered of a request =====

  // A request for a session enters the one table its answer will be looked for in,
  // if, as it reaches the agent, it reads; if not it enters none, and shows nothing.
  lemma RequestsAreRemembered(s: State, generation: nat, f: Frame)
    requires f.Request? && Relays(s, f) && f.verb != SessionNew && f.verb != SessionFork
    ensures var s', id := Step(s, ClientFrame(generation, f)), Number(s.bridge.next + 1);
            && s'.toAgent != [] && LastSent(s').ToAgent? && LastSent(s').frame.Request?
            && var sent, t, t' := LastSent(s').frame.params, s.store.tables, s'.store.tables;
               if sent.None? || !sent.value.typed || sent.value.sessionId.None? then s'.store == s.store
               else
                 var session := sent.value.sessionId.value;
                 && t'.creations == t.creations
                 && t'.states == (if f.verb == SessionLoad || f.verb == SessionResume then t.states[id := session]
                                  else t.states)
                 && t'.forgets == (if f.verb == SessionDelete || f.verb == SessionClose then t.forgets[id := session]
                                   else t.forgets)
                 && t'.configs == (if f.verb == SessionSetConfigOption then t.configs[id := session] else t.configs)
                 && t'.prompts == (if f.verb == SessionPrompt && sent.value.prompt.Some? then t.prompts[id := session]
                                   else t.prompts)
  {
    RelayedParts(s, f);
  }

  lemma MakingIsRemembered(s: State, generation: nat, f: Frame)
    requires f.Request? && Relays(s, f) && (f.verb == SessionNew || f.verb == SessionFork)
    ensures var t, t' := s.store.tables, Step(s, ClientFrame(generation, f)).store.tables;
            t' == t.(creations := t.creations + [Number(s.bridge.next + 1)])
  {
    RelayedParts(s, f);
  }

  predicate Never(table: map<RequestId, string>, session: string) {
    forall id | id in table :: table[id] != session
  }

  // A session deleted or closed leaves nothing behind but what others have: no
  // thread, no question, no prompt and no options to come.
  lemma ForgettingIsComplete(s: State, id: RequestId, body: Body, order: seq<string>)
    requires Consistent(s) && id in s.store.tables.forgets
    ensures var store, session := Step(s, AgentFrame(Response(id, Result(body)), order)).store,
            s.store.tables.forgets[id];
            && session !in store.threads && Never(store.elicitations, session)
            && Never(store.tables.prompts, session) && Never(store.tables.configs, session)
            && (forall x | x in s.store.threads && x != session ::
                  x in store.threads && store.threads[x] == s.store.threads[x])
            && (forall m | m in s.store.elicitations && s.store.elicitations[m] != session ::
                  m in store.elicitations && store.elicitations[m] == s.store.elicitations[m])
            && (forall m | m in s.store.tables.prompts && s.store.tables.prompts[m] != session ::
                  m in store.tables.prompts && store.tables.prompts[m] == s.store.tables.prompts[m])
            && (forall m | m in s.store.tables.configs && s.store.tables.configs[m] != session ::
                  m in store.tables.configs && store.tables.configs[m] == s.store.tables.configs[m])
  {
    var f := Response(id, Result(body));
    AgentFrameParts(s, f, order);
    AtMostOneTable(s.store.tables, s.methods.fromClient, id);
    assert EndsTurn(s, f).None?;
  }
}
