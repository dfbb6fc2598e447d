// A turn's end is reported exactly once, whoever is watching by then.

module RelayTurns {
  import opened Wrappers
  import opened ThreadModel
  import opened Protocol
  import opened Bridging
  import opened Relay
  import opened RelayTables
  import RelayQuestions
  import Sessions
  import Sinking
  import T = ServerThread

  // The line that tells the browser a turn is over: the answer to its prompt
  // if it is still the one that asked, and a notice naming the session if not.
  function EndLine(asker: Option<RequestId>, session: string, p: Payload): Line {
    match asker
    case Some(browser) => Wire(Response(browser, p))
    case None => Notify(TurnOver(session, StopText(p)))
  }

  lemma TurnEndHandsOneLine(s: State, id: RequestId, p: Payload, order: seq<string>)
    requires Consistent(s) && id in s.store.tables.prompts
    ensures Step(s, AgentFrame(Response(id, p), order)).sink.log == s.sink.log +
              [Sinking.Delivery(EndLine(Lookup(s.bridge, id), s.store.tables.prompts[id], p), Sinking.Takes(s.sink))]
  {
    ObservedParts(s, Response(id, p), order);
    assert EndsTurn(s, Response(id, p)) == Some(s.store.tables.prompts[id]);
  }

  // Nothing of a session's turn is left behind: no open question, no frame to
  // re-ask, no question awaiting its answer.
  ghost predicate Quiet(s: State, session: string) {
    && (forall e | e in Sessions.ThreadOf(s.store.threads, session).entries :: !T.IsPending(e))
    && (forall f | f in s.unanswered :: SessionOf(f) != Some(session))
    && (forall r | r in s.store.elicitations :: s.store.elicitations[r] != session)
  }

  lemma TurnEndLeavesQuiet(s: State, id: RequestId, p: Payload, order: seq<string>)
    requires Consistent(s) && id in s.store.tables.prompts
    ensures Quiet(Step(s, AgentFrame(Response(id, p), order)), s.store.tables.prompts[id])
  {
    var f, session := Response(id, p), s.store.tables.prompts[id];
    assert EndsTurn(s, f) == Some(session);
    AgentFrameParts(s, f, order);
    var s' := WithAgentFrame(s, f, order);
    forall e | e in Sessions.ThreadOf(s'.store.threads, session).entries
      ensures !T.IsPending(e)
    {
      NothingOpen(Sessions.FromAgent(s.store, f, order), session, e);
    }
    forall g | g in s'.unanswered
      ensures SessionOf(g) != Some(session)
    {
      RelayQuestions.InWithoutSession(s.unanswered, session, g);
    }
  }

  // The response to a prompt hands the sink one line and leaves nothing of the
  // turn behind, in any table.
  lemma TurnEndReported(s: State, id: RequestId, p: Payload, order: seq<string>)
    requires Consistent(s) && id in s.store.tables.prompts
    ensures var session, s' := s.store.tables.prompts[id], Step(s, AgentFrame(Response(id, p), order));
            && s'.sink.log == s.sink.log +
               [Sinking.Delivery(EndLine(Lookup(s.bridge, id), session, p), Sinking.Takes(s.sink))]
            && Quiet(s', session) && Cleared(s', id)
  {
    TurnEndHandsOneLine(s, id, p, order);
    TurnEndLeavesQuiet(s, id, p, order);
    AgentFrameConsistent(s, Response(id, p), order);
  }

  lemma NothingOpen(store: Sessions.Store, session: string, e: T.Entry)
    requires e in Sessions.ThreadOf(Sessions.GivenUp(store, session).threads, session).entries
    ensures !T.IsPending(e)
  {
    if session in store.threads {
      RelayQuestions.CancelOpensNone(store.threads[session]);
    }
  }

  // ----- Between the prompt and its answer -----

  // The prompt is answered, or its session is deleted or closed.
  predicate Disturbs(s: State, i: Input, id: RequestId, session: string) {
    && i.AgentFrame? && i.frame.Response?
    && (i.frame.id == id ||
        (i.frame.payload.Result? && i.frame.id in s.store.tables.forgets
            && s.store.tables.forgets[i.frame.id] == session))
  }

  predicate Undisturbed(s: State, inputs: seq<Input>, id: RequestId, session: string) {
    inputs == [] ||
    (Undisturbed(s, inputs[..|inputs| - 1], id, session) &&
     !Disturbs(Run(s, inputs[..|inputs| - 1]), inputs[|inputs| - 1], id, session))
  }

  lemma EnteringKeepsPrompt(t: Sessions.Tables, f: Frame, id: RequestId)
    requires f.Request? && f.id != id
    ensures id in Sessions.Entered(t, f).prompts <==> id in t.prompts
    ensures id in t.prompts ==> Sessions.Entered(t, f).prompts[id] == t.prompts[id]
  {
  }

  lemma ClientFrameKeepsPrompt(s: State, f: Frame, id: RequestId)
    requires Consistent(s) && id in s.store.tables.prompts
    ensures var s' := WithClientFrame(s, f);
            && id in s'.store.tables.prompts && s'.store.tables.prompts[id] == s.store.tables.prompts[id]
            && Lookup(s'.bridge, id) == Lookup(s.bridge, id)
  {
    if Relays(s, f) {
      RelayedParts(s, f);
      var g := Presented(s, f);
      assert id != Minted(s.bridge);
      if f.Request? {
        EnteringKeepsPrompt(s.store.tables, g, id);
      } else {
        AnswerKeepsTables(s.store, g);
      }
    } else {
      StoppedParts(s, f);
    }
  }

  lemma TakingKeepsPrompt(t: Sessions.Tables, taken: RequestId, id: RequestId)
    requires id in t.prompts && taken != id && !(taken in t.forgets && t.forgets[taken] == t.prompts[id])
    ensures id in Sessions.Taken(t, taken).prompts && Sessions.Taken(t, taken).prompts[id] == t.prompts[id]
  {
  }

  lemma FailureKeepsPrompt(s: Sessions.Store, failed: RequestId, id: RequestId)
    requires id in s.tables.prompts && failed != id
    ensures id in Sessions.Failed(s, failed).tables.prompts
            && Sessions.Failed(s, failed).tables.prompts[id] == s.tables.prompts[id]
  {
  }

  lemma FromAgentKeepsPrompt(s: State, f: Frame, order: seq<string>, id: RequestId)
    requires id in s.store.tables.prompts && !Disturbs(s, AgentFrame(f, order), id, s.store.tables.prompts[id])
    ensures var read := Sessions.FromAgent(s.store, f, order);
            id in read.tables.prompts && read.tables.prompts[id] == s.store.tables.prompts[id]
  {
    match f
    case Response(answered, Result(body)) =>
      TakingKeepsPrompt(s.store.tables, answered, id);
    case Response(answered, Error(_, _)) => FailureKeepsPrompt(s.store, answered, id);
    case _ => AgentKeepsTables(s.store, f, order);
  }

  lemma AgentFrameKeepsPrompt(s: State, f: Frame, order: seq<string>, id: RequestId)
    requires id in s.store.tables.prompts && !Disturbs(s, AgentFrame(f, order), id, s.store.tables.prompts[id])
    ensures var s' := WithAgentFrame(s, f, order);
            && id in s'.store.tables.prompts && s'.store.tables.prompts[id] == s.store.tables.prompts[id]
            && Lookup(s'.bridge, id) == Lookup(s.bridge, id)
  {
    AgentFrameParts(s, f, order);
    FromAgentKeepsPrompt(s, f, order, id);
    assert AgentStore(s, f, order).tables == Sessions.FromAgent(s.store, f, order).tables;
  }

  // A prompt in flight, the session it is for, and who is still waiting for it.
  ghost predicate Tracks(s: State, id: RequestId, session: string, asker: Option<RequestId>) {
    Consistent(s) && id in s.store.tables.prompts && s.store.tables.prompts[id] == session
        && Lookup(s.bridge, id) == asker
  }

  lemma StepKeepsPrompt(s: State, i: Input, id: RequestId, session: string, asker: Option<RequestId>)
    requires Tracks(s, id, session, asker) && !Disturbs(s, i, id, session)
    ensures Tracks(Step(s, i), id, session, if i == Attach then None else asker)
  {
    StepConsistent(s, i);
    match i
    case ClientFrame(_, f) => ClientFrameKeepsPrompt(s, f, id);
    case AgentFrame(f, order) => AgentFrameKeepsPrompt(s, f, order, id);
    case _ =>
  }

  // Who is waiting once the inputs have happened: nobody, after an attach.
  function AskerAfter(inputs: seq<Input>, asker: Option<RequestId>): Option<RequestId> {
    if inputs == [] then asker
    else if inputs[|inputs| - 1] == Attach then None
    else AskerAfter(inputs[..|inputs| - 1], asker)
  }

  lemma {:induction false} AskerAfterIs(inputs: seq<Input>, asker: Option<RequestId>)
    ensures AskerAfter(inputs, asker) == if Attach in inputs then None else asker
  {
    if inputs != [] {
      AskerAfterIs(inputs[..|inputs| - 1], asker);
      assert inputs == inputs[..|inputs| - 1] + [inputs[|inputs| - 1]];
    }
  }

  // Until then the prompt stays attributed to its session, and its asker stays
  // known exactly until another browser attaches.
  lemma {:induction false} PromptTracked(s: State, inputs: seq<Input>, id: RequestId, session: string,
                                         asker: Option<RequestId>)
    requires Tracks(s, id, session, asker) && Undisturbed(s, inputs, id, session)
    ensures Tracks(Run(s, inputs), id, session, AskerAfter(inputs, asker))
  {
    if inputs != [] {
      var front, last := inputs[..|inputs| - 1], inputs[|inputs| - 1];
      PromptTracked(s, front, id, session, asker);
      StepKeepsPrompt(Run(s, front), last, id, session, AskerAfter(front, asker));
    }
  }

  predicate IsPrompt(f: Frame) {
    f.Request? && f.verb == SessionPrompt && TypedPrompt(f).Some?
  }

  lemma PromptTakesItsPlace(s: State, generation: nat, prompt: Frame)
    requires Consistent(s) && IsPrompt(prompt)
    ensures Tracks(Step(s, ClientFrame(generation, prompt)), Minted(s.bridge),
                   TypedSession(prompt).value, Some(prompt.id))
  {
    StepConsistent(s, ClientFrame(generation, prompt));
    RelayedParts(s, prompt);
    PromptEnters(s.store, Presented(s, prompt));
  }

  lemma PromptEnters(s: Sessions.Store, f: Frame)
    requires IsPrompt(f)
    ensures Sessions.Requested(s, f).tables.prompts == s.tables.prompts[f.id := TypedSession(f).value]
  {
    assert Sessions.Entered(s.tables, f).prompts == s.tables.prompts[f.id := TypedSession(f).value];
  }

  // From the prompt to its answer, over any interleaving: one line is handed
  // over, the answer itself while the asker is attached, the notice otherwise.
  lemma TurnEndsOnce(s: State, generation: nat, prompt: Frame, inputs: seq<Input>, p: Payload, order: seq<string>)
    requires Consistent(s) && IsPrompt(prompt)
    requires var s1 := Step(s, ClientFrame(generation, prompt));
             Undisturbed(s1, inputs, Minted(s.bridge), TypedSession(prompt).value)
    ensures var id, session := Minted(s.bridge), TypedSession(prompt).value;
            var s2 := Run(Step(s, ClientFrame(generation, prompt)), inputs);
            var s3 := Step(s2, AgentFrame(Response(id, p), order));
            && s3.sink.log == s2.sink.log +
               [Sinking.Delivery(EndLine(if Attach in inputs then None else Some(prompt.id), session, p),
                                 Sinking.Takes(s2.sink))]
            && Cleared(s3, id)
  {
    var id, s1 := Minted(s.bridge), Step(s, ClientFrame(generation, prompt));
    PromptTakesItsPlace(s, generation, prompt);
    PromptTracked(s1, inputs, id, TypedSession(prompt).value, Some(prompt.id));
    AskerAfterIs(inputs, Some(prompt.id));
    TurnEndReported(Run(s1, inputs), id, p, order);
  }

  // ----- And never again -----

  ghost predicate Spent(s: State, id: RequestId) {
    Consistent(s) && Cleared(s, id) && (id.Number? ==> id.n <= s.bridge.next)
  }

  lemma EnteringKeepsOut(t: Sessions.Tables, f: Frame, id: RequestId)
    requires f.Request? && f.id != id && !Mentions(t, id)
    ensures !Mentions(Sessions.Entered(t, f), id)
  {
  }

  lemma RelayedSpends(s: State, f: Frame, id: RequestId)
    requires Spent(s, id) && Relays(s, f)
    ensures !Mentions(Sessions.FromClient(s.store, Presented(s, f)).tables, id)
  {
    var g := Presented(s, f);
    if f.Request? {
      EnteringKeepsOut(s.store.tables, g, id);
    } else {
      AnswerKeepsTables(s.store, g);
    }
  }

  lemma ClientFrameSpends(s: State, f: Frame, id: RequestId)
    requires Spent(s, id)
    ensures Cleared(WithClientFrame(s, f), id) && WithClientFrame(s, f).bridge.next >= s.bridge.next
  {
    if Relays(s, f) {
      RelayedParts(s, f);
      RelayedSpends(s, f, id);
      assert id != Minted(s.bridge);
      assert !Mentions(WithClientFrame(s, f).store.tables, id);
    } else {
      StoppedParts(s, f);
    }
  }

  lemma FromAgentShrinks(s: Sessions.Store, methods: map<RequestId, Method>, f: Frame, order: seq<string>)
    requires TablesFit(s.tables, methods)
    ensures Shrunk(s.tables, Sessions.FromAgent(s, f, order).tables)
  {
    match f
    case Response(r, Result(body)) => SuccessShrinks(s, methods, r, body);
    case Response(r, Error(_, _)) => FailureShrinks(s, methods, r);
    case _ => AgentKeepsTables(s, f, order);
  }

  lemma AgentFrameSpends(s: State, f: Frame, order: seq<string>, id: RequestId)
    requires Spent(s, id)
    ensures Cleared(WithAgentFrame(s, f, order), id) && WithAgentFrame(s, f, order).bridge.next == s.bridge.next
  {
    AgentFrameParts(s, f, order);
    FromAgentShrinks(s.store, s.methods.fromClient, f, order);
    var read := Sessions.FromAgent(s.store, f, order);
    assert WithAgentFrame(s, f, order).store.tables == read.tables;
    assert !Mentions(read.tables, id);
  }

  lemma StepKeepsSpent(s: State, i: Input, id: RequestId)
    requires Spent(s, id)
    ensures Spent(Step(s, i), id)
  {
    StepConsistent(s, i);
    match i
    case ClientFrame(_, f) => ClientFrameSpends(s, f, id);
    case AgentFrame(f, order) => AgentFrameSpends(s, f, order, id);
    case _ =>
  }

  lemma {:induction false} RunKeepsSpent(s: State, inputs: seq<Input>, id: RequestId)
    requires Spent(s, id)
    ensures Spent(Run(s, inputs), id)
  {
    if inputs != [] {
      RunKeepsSpent(s, inputs[..|inputs| - 1], id);
      StepKeepsSpent(Run(s, inputs[..|inputs| - 1]), inputs[|inputs| - 1], id);
    }
  }

  // A second response under an id already answered reaches no browser, however
  // much later it comes.
  lemma SecondAnswerIsSilent(s: State, id: RequestId, p: Payload, order: seq<string>, inputs: seq<Input>,
                             p': Payload, order': seq<string>)
    requires Consistent(s) && id in s.methods.fromClient
    ensures var later := Run(Step(s, AgentFrame(Response(id, p), order)), inputs);
            Step(later, AgentFrame(Response(id, p'), order')).sink == later.sink
  {
    StepConsistent(s, AgentFrame(Response(id, p), order));
    AgentFrameParts(s, Response(id, p), order);
    RunKeepsSpent(Step(s, AgentFrame(Response(id, p), order)), inputs, id);
    var later := Run(Step(s, AgentFrame(Response(id, p), order)), inputs);
    ObservedParts(later, Response(id, p'), order');
  }
}
