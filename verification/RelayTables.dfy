// The relay's tables of requests in flight agree with each other in every
// reachable state, so each response reaches the one session it belongs to.

module RelayTables {
  import opened Wrappers
  import opened ThreadModel
  import opened Protocol
  import opened Bridging
  import opened Relay
  import Sessions
  import ServerThread
  import Offering

  predicate Creates(m: Method) { m == SessionNew || m == SessionFork }
  predicate States(m: Method) { m == SessionLoad || m == SessionResume }
  predicate Forgets(m: Method) { m == SessionDelete || m == SessionClose }

  predicate Unrepeated(ids: seq<RequestId>) {
    forall i, j | 0 <= i < j < |ids| :: ids[i] != ids[j]
  }

  // Every request a table holds is in flight, under a method of that table.
  ghost predicate TablesFit(t: Sessions.Tables, methods: map<RequestId, Method>) {
    && (forall id | id in t.prompts :: id in methods && methods[id] == SessionPrompt)
    && (forall id | id in t.creations :: id in methods && Creates(methods[id]))
    && Unrepeated(t.creations)
    && (forall id | id in t.states :: id in methods && States(methods[id]))
    && (forall id | id in t.forgets :: id in methods && Forgets(methods[id]))
    && (forall id | id in t.configs :: id in methods && methods[id] == SessionSetConfigOption)
  }

  ghost predicate Consistent(s: State) {
    && Sound(s.bridge)
    && (forall id | id in s.methods.fromClient :: id.Number? && 1 <= id.n <= s.bridge.next)
    && (forall id | id in s.bridge.outstanding :: id in s.methods.fromClient)
    && TablesFit(s.store.tables, s.methods.fromClient)
  }

  predicate SubTable(small: map<RequestId, string>, large: map<RequestId, string>) {
    forall id | id in small :: id in large && small[id] == large[id]
  }

  // No table gains an entry.
  predicate Shrunk(before: Sessions.Tables, after: Sessions.Tables) {
    && SubTable(after.prompts, before.prompts) && SubTable(after.states, before.states)
    && SubTable(after.forgets, before.forgets) && SubTable(after.configs, before.configs)
    && Unrepeated(after.creations) && (forall id | id in after.creations :: id in before.creations)
  }

  predicate Mentions(t: Sessions.Tables, id: RequestId) {
    id in t.prompts || id in t.creations || id in t.states || id in t.forgets || id in t.configs
  }

  lemma ShrunkFits(before: Sessions.Tables, after: Sessions.Tables, methods: map<RequestId, Method>, id: RequestId)
    requires TablesFit(before, methods) && Shrunk(before, after) && !Mentions(after, id)
    ensures TablesFit(after, methods - {id})
  {
  }

  // ----- The session store -----

  lemma {:induction false} RemovedFirstIs(ids: seq<RequestId>, id: RequestId)
    requires Unrepeated(ids)
    ensures var r := Sessions.RemovedFirst(ids, id);
            Unrepeated(r) && forall x :: x in r <==> x in ids && x != id
  {
    if ids != [] {
      RemovedFirstIs(ids[1..], id);
      var r := Sessions.RemovedFirst(ids, id);
      assert forall x :: x in ids <==> x == ids[0] || x in ids[1..];
      if ids[0] == id {
        assert forall x | x in ids[1..] :: x != ids[0];
      } else {
        var rest := Sessions.RemovedFirst(ids[1..], id);
        assert r == [ids[0]] + rest && ids[0] !in ids[1..];
        assert ids[0] !in rest;
      }
    }
  }

  lemma {:induction false} RemovedIs(ids: seq<RequestId>, id: RequestId)
    requires Unrepeated(ids)
    ensures var r := Sessions.Removed(ids, id);
            Unrepeated(r) && forall x :: x in r <==> x in ids && x != id
  {
    if ids != [] {
      RemovedIs(ids[1..], id);
      var r, rest := Sessions.Removed(ids, id), Sessions.Removed(ids[1..], id);
      assert forall x :: x in ids <==> x == ids[0] || x in ids[1..];
      assert ids[0] !in ids[1..];
      if ids[0] != id {
        assert r == [ids[0]] + rest && ids[0] !in rest;
      }
    }
  }

  lemma MethodsGrow(t: Sessions.Tables, methods: map<RequestId, Method>, id: RequestId, verb: Method)
    requires TablesFit(t, methods) && id !in methods
    ensures TablesFit(t, methods[id := verb]) && !Mentions(t, id)
  {
  }

  lemma CreationFits(t: Sessions.Tables, methods: map<RequestId, Method>, id: RequestId)
    requires TablesFit(t, methods) && id in methods && Creates(methods[id]) && !Mentions(t, id)
    ensures TablesFit(t.(creations := t.creations + [id]), methods)
  {
  }

  lemma EnteredFits(t: Sessions.Tables, methods: map<RequestId, Method>, f: Frame)
    requires TablesFit(t, methods) && f.Request? && f.id !in methods
    ensures TablesFit(Sessions.Entered(t, f), methods[f.id := f.verb])
  {
    MethodsGrow(t, methods, f.id, f.verb);
    EntryFits(t, methods[f.id := f.verb], f);
  }

  lemma StateFits(t: Sessions.Tables, methods: map<RequestId, Method>, id: RequestId, session: string)
    requires TablesFit(t, methods) && id in methods && States(methods[id])
    ensures TablesFit(t.(states := t.states[id := session]), methods)
  {
  }

  lemma ForgetFits(t: Sessions.Tables, methods: map<RequestId, Method>, id: RequestId, session: string)
    requires TablesFit(t, methods) && id in methods && Forgets(methods[id])
    ensures TablesFit(t.(forgets := t.forgets[id := session]), methods)
  {
  }

  lemma ConfigFits(t: Sessions.Tables, methods: map<RequestId, Method>, id: RequestId, session: string)
    requires TablesFit(t, methods) && id in methods && methods[id] == SessionSetConfigOption
    ensures TablesFit(t.(configs := t.configs[id := session]), methods)
  {
  }

  lemma PromptFits(t: Sessions.Tables, methods: map<RequestId, Method>, id: RequestId, session: string)
    requires TablesFit(t, methods) && id in methods && methods[id] == SessionPrompt
    ensures TablesFit(t.(prompts := t.prompts[id := session]), methods)
  {
  }

  lemma EntryFits(t: Sessions.Tables, methods: map<RequestId, Method>, f: Frame)
    requires f.Request? && TablesFit(t, methods) && !Mentions(t, f.id) && f.id in methods && methods[f.id] == f.verb
    ensures TablesFit(Sessions.Entered(t, f), methods)
  {
    if Creates(f.verb) {
      CreationFits(t, methods, f.id);
    } else if TypedSession(f).Some? {
      var session := TypedSession(f).value;
      if States(f.verb) {
        StateFits(t, methods, f.id, session);
      } else if Forgets(f.verb) {
        ForgetFits(t, methods, f.id, session);
      } else if f.verb == SessionSetConfigOption {
        ConfigFits(t, methods, f.id, session);
      } else if f.verb == SessionPrompt {
        PromptFits(t, methods, f.id, session);
      }
    }
  }

  lemma TakenShrinks(t: Sessions.Tables, methods: map<RequestId, Method>, id: RequestId)
    requires TablesFit(t, methods)
    ensures Shrunk(t, Sessions.Taken(t, id)) && !Mentions(Sessions.Taken(t, id), id)
  {
    AtMostOneTable(t, methods, id);
    RemovedFirstIs(t.creations, id);
  }

  // A result leaves the tables without its id, and takes nothing else but the
  // requests of a session the result forgets.
  lemma SuccessShrinks(s: Sessions.Store, methods: map<RequestId, Method>, id: RequestId, body: Body)
    requires TablesFit(s.tables, methods)
    ensures Shrunk(s.tables, Sessions.Succeeded(s, id, body).tables)
    ensures !Mentions(Sessions.Succeeded(s, id, body).tables, id)
  {
    TakenShrinks(s.tables, methods, id);
  }

  lemma AtMostOneTable(t: Sessions.Tables, methods: map<RequestId, Method>, id: RequestId)
    requires TablesFit(t, methods)
    ensures id in t.prompts ==> id !in t.creations && id !in t.states && id !in t.forgets && id !in t.configs
    ensures id in t.creations ==> id !in t.states && id !in t.forgets && id !in t.configs
    ensures id in t.states ==> id !in t.forgets && id !in t.configs
    ensures id in t.forgets ==> id !in t.configs
  {
  }

  lemma FailureShrinks(s: Sessions.Store, methods: map<RequestId, Method>, id: RequestId)
    requires TablesFit(s.tables, methods)
    ensures Shrunk(s.tables, Sessions.Failed(s, id).tables)
    ensures !Mentions(Sessions.Failed(s, id).tables, id)
  {
    RemovedIs(s.tables.creations, id);
  }

  lemma AgentKeepsTables(s: Sessions.Store, f: Frame, order: seq<string>)
    requires !f.Response?
    ensures Sessions.FromAgent(s, f, order).tables == s.tables
  {
  }

  lemma AnswerKeepsTables(s: Sessions.Store, f: Frame)
    requires !f.Request?
    ensures Sessions.FromClient(s, f).tables == s.tables
  {
  }

  lemma FromAgentFits(s: Sessions.Store, methods: map<RequestId, Method>, f: Frame, order: seq<string>)
    requires TablesFit(s.tables, methods)
    ensures TablesFit(Sessions.FromAgent(s, f, order).tables, if f.Response? then methods - {f.id} else methods)
    ensures f.Response? ==> !Mentions(Sessions.FromAgent(s, f, order).tables, f.id)
  {
    match f
    case Response(id, Result(body)) =>
      SuccessShrinks(s, methods, id, body);
      ShrunkFits(s.tables, Sessions.Succeeded(s, id, body).tables, methods, id);
    case Response(id, Error(_, _)) =>
      FailureShrinks(s, methods, id);
      ShrunkFits(s.tables, Sessions.Failed(s, id).tables, methods, id);
    case _ =>
      AgentKeepsTables(s, f, order);
  }

  // ----- The relay -----

  lemma ClientFrameConsistent(s: State, f: Frame)
    requires Consistent(s)
    ensures Consistent(WithClientFrame(s, f))
  {
    if Relays(s, f) {
      RelayedParts(s, f);
      var g := Presented(s, f);
      if f.Request? {
        EnteredFits(s.store.tables, s.methods.fromClient, g);
      } else {
        AnswerKeepsTables(s.store, f);
      }
    } else {
      StoppedParts(s, f);
    }
  }

  lemma AgentFrameConsistent(s: State, f: Frame, order: seq<string>)
    requires Consistent(s)
    ensures Consistent(WithAgentFrame(s, f, order))
    ensures f.Response? ==> Cleared(WithAgentFrame(s, f, order), f.id)
  {
    AgentFrameParts(s, f, order);
    FromAgentFits(s.store, s.methods.fromClient, f, order);
    var read, s' := Sessions.FromAgent(s.store, f, order), WithAgentFrame(s, f, order);
    assert s'.store.tables == read.tables;
    assert s'.methods.fromClient == if f.Response? then s.methods.fromClient - {f.id} else s.methods.fromClient;
    assert f.Response? && Intercepts(s.servers, f) ==> f.id !in s.bridge.outstanding;
  }

  // No table of the relay mentions the id any more.
  ghost predicate Cleared(s: State, id: RequestId) {
    && id !in s.bridge.outstanding && id !in s.methods.fromClient
    && id !in s.store.tables.prompts && id !in s.store.tables.creations && id !in s.store.tables.states
    && id !in s.store.tables.forgets && id !in s.store.tables.configs
  }

  lemma StepConsistent(s: State, i: Input)
    requires Consistent(s)
    ensures Consistent(Step(s, i))
    ensures i.AgentFrame? && i.frame.Response? ==> Cleared(Step(s, i), i.frame.id)
  {
    match i
    case ClientFrame(_, f) => ClientFrameConsistent(s, f);
    case AgentFrame(f, order) => AgentFrameConsistent(s, f, order);
    case _ =>
  }

  lemma {:induction false} AlwaysConsistent(servers: seq<Offering.Server>, inputs: seq<Input>)
    ensures Consistent(Run(Initially(servers), inputs))
  {
    if inputs != [] {
      AlwaysConsistent(servers, inputs[..|inputs| - 1]);
      StepConsistent(Run(Initially(servers), inputs[..|inputs| - 1]), inputs[|inputs| - 1]);
    }
  }

  // How many of the five tables hold a request.
  function Holders(t: Sessions.Tables, id: RequestId): nat {
    (if id in t.prompts then 1 else 0) + (if id in t.creations then 1 else 0) + (if id in t.states then 1 else 0) +
    (if id in t.forgets then 1 else 0) + (if id in t.configs then 1 else 0)
  }

  // The five tables never claim the same request, so whichever the store looks
  // in first, a response is read as the answer to the request that was made.
  lemma TablesDisjoint(servers: seq<Offering.Server>, inputs: seq<Input>, id: RequestId)
    ensures Holders(Run(Initially(servers), inputs).store.tables, id) <= 1
  {
    AlwaysConsistent(servers, inputs);
    var s := Run(Initially(servers), inputs);
    AtMostOneTable(s.store.tables, s.methods.fromClient, id);
  }

  // The stop reason a prompt's response is read as: a failure is a cancelled
  // turn, and a result that does not read as one says nothing.
  function Stops(p: Payload): Option<StopReason> {
    if p.Error? then Some(StopCancelled) else p.body.stop
  }

  // A response to a prompt finishes that prompt's session, if it can be read,
  // and touches no other session's thread.
  lemma PromptResponseHitsItsSession(s: State, id: RequestId, p: Payload, order: seq<string>)
    requires Consistent(s) && id in s.store.tables.prompts
    ensures var session := s.store.tables.prompts[id];
            var threads := WithAgentFrame(s, Response(id, p), order).store.threads;
            && threads.Keys == s.store.threads.Keys
            && (forall other | other in s.store.threads && other != session :: threads[other] == s.store.threads[other])
            && (session in s.store.threads ==>
                  && threads[session].status == (if Stops(p).Some? then Idle else s.store.threads[session].status)
                  && threads[session].stopReason == (if Stops(p).Some? then Stops(p)
                      else s.store.threads[session].stopReason))
  {
    var f, session := Response(id, p), s.store.tables.prompts[id];
    AgentFrameParts(s, f, order);
    assert EndsTurn(s, f) == Some(session);
    PromptAnswered(s.store, id, p);
  }

  lemma PromptAnswered(s: Sessions.Store, id: RequestId, p: Payload)
    requires id in s.tables.prompts
    ensures var session, threads := s.tables.prompts[id], Sessions.FromAgent(s, Response(id, p), []).threads;
            && threads.Keys == s.threads.Keys
            && (forall other | other in s.threads && other != session :: threads[other] == s.threads[other])
            && (session in s.threads ==>
                  threads[session] == if Stops(p).Some?
                      then ServerThread.WithTurnFinished(s.threads[session], Stops(p).value)
                                      else s.threads[session])
  {
  }

  // A prompt, and the answer to it that says nothing anyone can read.
  function Prompting(session: string, blocks: seq<ContentBlock>): Frame {
    Request(Number(1), SessionPrompt,
        Some(NO_PARAMS.(sessionId := Some(session), typed := true, prompt := Some(blocks))))
  }

  const UNREADABLE := Body("{}", NO_TRANSPORTS, None, None, None, None, None, None)

  lemma FirstAttached(servers: seq<Offering.Server>)
    ensures var s := WithAttach(Initially(servers));
            s.bridge == NEW_BRIDGE && s.store == Sessions.EMPTY_STORE && s.reader == Some(1)
  {
  }

  lemma PromptStep(s: State, session: string, blocks: seq<ContentBlock>)
    requires s.bridge == NEW_BRIDGE && s.store == Sessions.EMPTY_STORE
    ensures var s' := WithClientFrame(s, Prompting(session, blocks));
            && s'.store.threads == map[session := ServerThread.WithPrompt(ServerThread.EMPTY, blocks)]
            && s'.store.tables.prompts == map[Number(1) := session]
  {
    var f := Prompting(session, blocks);
    RelayedParts(s, f);
    assert Presented(s, f) == f;
  }

  lemma UnreadableAnswer(s: State, session: string)
    requires s.store.tables.prompts == map[Number(1) := session] && session in s.store.threads
    ensures var s' := WithAgentFrame(s, Response(Number(1), Result(UNREADABLE)), []);
            && session in s'.store.threads && s'.store.threads[session].status == s.store.threads[session].status
            && s'.store.tables.prompts == map[]
  {
    AgentFrameParts(s, Response(Number(1), Result(UNREADABLE)), []);
    PromptAnswered(s.store, Number(1), Result(UNREADABLE));
  }

  lemma ThreeSteps(s: State, inputs: seq<Input>)
    requires |inputs| == 3
    ensures Run(s, inputs) == Step(Step(Step(s, inputs[0]), inputs[1]), inputs[2])
    ensures Attended(s, inputs) <==>
              FromReader(s, inputs[0]) && FromReader(Step(s, inputs[0]), inputs[1]) &&
              FromReader(Step(Step(s, inputs[0]), inputs[1]), inputs[2])
  {
    var one, two := inputs[..1], inputs[..2];
    assert one[..0] == [] && two[..1] == one;
    assert Run(s, one) == Step(Run(s, []), inputs[0]) && Run(s, two) == Step(Run(s, one), inputs[1]);
    assert Attended(s, one) <==> FromReader(s, inputs[0]);
    assert Attended(s, two) <==> Attended(s, one) && FromReader(Run(s, one), inputs[1]);
  }

  lemma PromptOpens(servers: seq<Offering.Server>, session: string, blocks: seq<ContentBlock>)
    ensures var s1 := Step(Initially(servers), Attach);
            var s2 := Step(s1, ClientFrame(1, Prompting(session, blocks)));
            && s1.reader == Some(1) && s2.store.tables.prompts == map[Number(1) := session]
            && session in s2.store.threads && s2.store.threads[session].status == Generating
  {
    FirstAttached(servers);
    PromptStep(WithAttach(Initially(servers)), session, blocks);
  }

  // So one unreadable answer leaves the turn over for the tables, and the thread
  // generating.
  lemma UnreadableResultLeavesItGenerating(servers: seq<Offering.Server>, session: string, blocks: seq<ContentBlock>)
    returns (inputs: seq<Input>)
    ensures inputs == [Attach, ClientFrame(1, Prompting(session, blocks)),
            AgentFrame(Response(Number(1), Result(UNREADABLE)), [])]
    ensures Attended(Initially(servers), inputs)
    ensures var s := Run(Initially(servers), inputs);
            && session in s.store.threads && s.store.threads[session].status == Generating
            && s.store.tables.prompts == map[]
  {
    var s0, answer := Initially(servers), Response(Number(1), Result(UNREADABLE));
    inputs := [Attach, ClientFrame(1, Prompting(session, blocks)), AgentFrame(answer, [])];
    ThreeSteps(s0, inputs);
    PromptOpens(servers, session, blocks);
    UnreadableAnswer(Step(Step(s0, Attach), inputs[1]), session);
  }

  // A result for a delete or a close forgets its session and no other.
  lemma ForgetHitsItsSession(s: State, id: RequestId, body: Body, order: seq<string>)
    requires Consistent(s) && id in s.store.tables.forgets
    ensures WithAgentFrame(s, Response(id, Result(body)), order).store.threads
         == s.store.threads - {s.store.tables.forgets[id]}
  {
    AgentFrameParts(s, Response(id, Result(body)), order);
    var verb := s.methods.fromClient[id];
    assert Forgets(verb) && id !in s.store.tables.prompts && id !in s.store.tables.creations
        && id !in s.store.tables.states;
    assert EndsTurn(s, Response(id, Result(body))).None?;
  }
}
