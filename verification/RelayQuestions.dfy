// A question the stored thread shows as open can always be answered: its
// request is on the list put to every browser, and the answer finds it.

module RelayQuestions {
  import opened Wrappers
  import opened ThreadModel
  import opened Protocol
  import opened Relay
  import Sessions
  import Sinking
  import Replay
  import T = ServerThread
  import Offering

  // The frame that put a question to the browser.
  predicate Asks(f: Frame, session: string, e: Elicitation) {
    && f.Request? && f.verb == ElicitationCreate && f.id == e.requestId && SessionOf(f) == Some(session)
    && TypedQuestion(f) == Some(Question(true, e.message, e.toolCallId, Known(e.mode)))
  }

  // An open question of a session is attributed to it and can be put again.
  ghost predicate Answerable(elicitations: map<RequestId, string>, unanswered: seq<Frame>, session: string,
                             e: Elicitation) {
    && e.requestId in elicitations && elicitations[e.requestId] == session
    && exists f | f in unanswered :: Asks(f, session, e)
  }

  ghost predicate ThreadBacked(t: T.ThreadState, session: string, elicitations: map<RequestId, string>,
                               unanswered: seq<Frame>) {
    && (forall i | 0 <= i < |t.entries| && T.IsPending(t.entries[i]) ::
          Answerable(elicitations, unanswered, session, t.entries[i].asked))
    && (forall i, j | 0 <= i < j < |t.entries| && T.IsPending(t.entries[i]) && T.IsPending(t.entries[j]) ::
          t.entries[i].asked.requestId != t.entries[j].asked.requestId)
  }

  ghost predicate StoreBacked(store: Sessions.Store, unanswered: seq<Frame>) {
    forall session | session in store.threads ::
      ThreadBacked(store.threads[session], session, store.elicitations, unanswered)
  }

  ghost predicate Backed(s: State) {
    StoreBacked(s.store, s.unanswered)
  }

  // ----- What thread operations do to open questions -----

  // No new open question, and every one left as it was.
  predicate NoneOpened(before: T.ThreadState, after: T.ThreadState) {
    forall i | 0 <= i < |after.entries| && T.IsPending(after.entries[i]) ::
      i < |before.entries| && after.entries[i] == before.entries[i]
  }

  lemma FoldOpensNone(t: T.ThreadState, u: Update)
    ensures NoneOpened(t, T.Folded(t, u))
  {
    match u
    case UserChunk(_, _) =>
    case AgentChunk(_, _, _) =>
    case ToolCalled(_) =>
    case ToolCallUpdated(_, _) =>
    case _ =>
  }

  lemma CancelOpensNone(t: T.ThreadState)
    ensures forall i | 0 <= i < |T.WithCancelled(t).entries| :: !T.IsPending(T.WithCancelled(t).entries[i])
  {
  }

  // ----- Carrying the invariant across a change of each table -----

  lemma KeepsBacked(before: T.ThreadState, after: T.ThreadState, session: string,
                    elicitations: map<RequestId, string>, elicitations': map<RequestId, string>,
                    unanswered: seq<Frame>, unanswered': seq<Frame>)
    requires ThreadBacked(before, session, elicitations, unanswered)
    requires NoneOpened(before, after)
    requires forall id | id in elicitations && elicitations[id] == session ::
               id in elicitations' && elicitations'[id] == session
    requires forall f | f in unanswered && SessionOf(f) == Some(session) :: f in unanswered'
    ensures ThreadBacked(after, session, elicitations', unanswered')
  {
    forall i | 0 <= i < |after.entries| && T.IsPending(after.entries[i])
      ensures Answerable(elicitations', unanswered', session, after.entries[i].asked)
    {
      var e := before.entries[i].asked;
      assert Answerable(elicitations, unanswered, session, e);
      var f :| f in unanswered && Asks(f, session, e);
      assert f in unanswered' && Asks(f, session, e);
    }
  }

  // One thread changes, opening nothing; tables may only grow.
  lemma OneThreadChanges(store: Sessions.Store, session: string, after: T.ThreadState, unanswered: seq<Frame>)
    requires StoreBacked(store, unanswered) && NoneOpened(Sessions.ThreadOf(store.threads, session), after)
    ensures StoreBacked(store.(threads := store.threads[session := after]), unanswered)
  {
    var threads' := store.threads[session := after];
    forall other | other in threads'
      ensures ThreadBacked(threads'[other], other, store.elicitations, unanswered)
    {
      if other == session {
        var before := Sessions.ThreadOf(store.threads, session);
        assert ThreadBacked(before, session, store.elicitations, unanswered);
        KeepsBacked(before, after, session, store.elicitations, store.elicitations, unanswered, unanswered);
      }
    }
  }

  lemma SameThreads(store: Sessions.Store, store': Sessions.Store, unanswered: seq<Frame>)
    requires StoreBacked(store, unanswered)
    requires store'.threads == store.threads && store'.elicitations == store.elicitations
    ensures StoreBacked(store', unanswered)
  {
  }

  // A session is dropped from the threads, or emptied, with its questions.
  lemma SessionDropped(store: Sessions.Store, store': Sessions.Store, session: string,
                       unanswered: seq<Frame>, unanswered': seq<Frame>)
    requires StoreBacked(store, unanswered)
    requires store'.elicitations == Sessions.Without(store.elicitations, session)
    requires forall other | other in store'.threads && other != session ::
               other in store.threads && store'.threads[other] == store.threads[other]
    requires session in store'.threads ==>
               forall i | 0 <= i < |store'.threads[session].entries| :: !T.IsPending(store'.threads[session].entries[i])
    requires forall f, other | f in unanswered && SessionOf(f) == Some(other) && other != session :: f in unanswered'
    ensures StoreBacked(store', unanswered')
  {
    forall other | other in store'.threads
      ensures ThreadBacked(store'.threads[other], other, store'.elicitations, unanswered')
    {
      if other != session {
        KeepsBacked(store.threads[other], store.threads[other], other, store.elicitations, store'.elicitations,
                    unanswered, unanswered');
      }
    }
  }

  // ----- The re-ask list -----

  lemma {:induction false} InWithoutId(frames: seq<Frame>, id: RequestId, f: Frame)
    ensures f in WithoutId(frames, id) <==> f in frames && (f.Notification? || f.id != id)
  {
    if frames != [] {
      var front, last := frames[..|frames| - 1], frames[|frames| - 1];
      InWithoutId(front, id, f);
      assert frames == front + [last];
    }
  }

  lemma {:induction false} InWithoutSession(frames: seq<Frame>, session: string, f: Frame)
    ensures f in WithoutSession(frames, session) <==> f in frames && SessionOf(f) != Some(session)
  {
    if frames != [] {
      var front, last := frames[..|frames| - 1], frames[|frames| - 1];
      InWithoutSession(front, session, f);
      assert frames == front + [last];
    }
  }

  // ----- Frames from the browser -----

  lemma LoadKeepsBacked(store: Sessions.Store, f: Frame, unanswered: seq<Frame>)
    requires StoreBacked(store, unanswered) && f.Request? && f.verb == SessionLoad && TypedSession(f).Some?
    ensures StoreBacked(Sessions.Requested(store, f), unanswered)
  {
    SessionDropped(store, Sessions.Requested(store, f), TypedSession(f).value, unanswered, unanswered);
  }

  lemma PromptKeepsBacked(store: Sessions.Store, f: Frame, unanswered: seq<Frame>)
    requires StoreBacked(store, unanswered) && f.Request? && f.verb == SessionPrompt && TypedPrompt(f).Some?
    ensures StoreBacked(Sessions.Requested(store, f), unanswered)
  {
    var session := TypedSession(f).value;
    var after := T.WithPrompt(Sessions.ThreadOf(store.threads, session), TypedPrompt(f).value);
    OneThreadChanges(store, session, after, unanswered);
    SameThreads(store.(threads := store.threads[session := after]), Sessions.Requested(store, f), unanswered);
  }

  lemma RequestKeepsBacked(store: Sessions.Store, f: Frame, unanswered: seq<Frame>)
    requires StoreBacked(store, unanswered) && f.Request?
    ensures StoreBacked(Sessions.Requested(store, f), unanswered)
  {
    if f.verb == SessionLoad && TypedSession(f).Some? {
      LoadKeepsBacked(store, f, unanswered);
    } else if f.verb == SessionPrompt && TypedPrompt(f).Some? {
      PromptKeepsBacked(store, f, unanswered);
    } else {
      SameThreads(store, Sessions.Requested(store, f), unanswered);
    }
  }

  // An answer settles the one question open under its id and leaves every other
  // open question, and everything that backs it, alone.
  lemma AnsweredThreadBacked(t: T.ThreadState, session: string, elicitations: map<RequestId, string>,
                             unanswered: seq<Frame>,
                             id: RequestId, state: ElicitationState, content: Option<map<Key, Json>>)
    requires ThreadBacked(t, session, elicitations, unanswered) && state != Pending
    ensures ThreadBacked(T.WithSettled(t, id, state, content), session, elicitations - {id}, WithoutId(unanswered, id))
  {
    var after := T.WithSettled(t, id, state, content);
    forall i | 0 <= i < |after.entries| && T.IsPending(after.entries[i])
      ensures Answerable(elicitations - {id}, WithoutId(unanswered, id), session, after.entries[i].asked)
    {
      assert after.entries[i] == t.entries[i];
      StillAnswerable(t, session, elicitations, unanswered, id, i);
    }
  }

  lemma OneOpen(t: T.ThreadState, session: string, elicitations: map<RequestId, string>, unanswered: seq<Frame>,
                id: RequestId, i: nat)
    requires ThreadBacked(t, session, elicitations, unanswered) && i < |t.entries| && T.PendingFor(t.entries[i], id)
    ensures i == T.First(t.entries, e => T.PendingFor(e, id))
  {
    var first := T.First(t.entries, e => T.PendingFor(e, id));
    assert first <= i;
  }

  lemma StillAnswerable(t: T.ThreadState, session: string, elicitations: map<RequestId, string>, unanswered: seq<Frame>,
                        id: RequestId, i: nat)
    requires ThreadBacked(t, session, elicitations, unanswered)
    requires i < |t.entries| && T.IsPending(t.entries[i])
    requires i != T.First(t.entries, e => T.PendingFor(e, id))
    ensures Answerable(elicitations - {id}, WithoutId(unanswered, id), session, t.entries[i].asked)
  {
    var e := t.entries[i].asked;
    assert Answerable(elicitations, unanswered, session, e);
    var f :| f in unanswered && Asks(f, session, e);
    InWithoutId(unanswered, id, f);
    if T.PendingFor(t.entries[i], id) {
      OneOpen(t, session, elicitations, unanswered, id, i);
    }
  }

  // The thread of a session the id is not attributed to has nothing open
  // under that id.
  lemma UntouchedThreadBacked(t: T.ThreadState, session: string, elicitations: map<RequestId, string>,
                              unanswered: seq<Frame>, id: RequestId)
    requires ThreadBacked(t, session, elicitations, unanswered)
    requires id in elicitations ==> elicitations[id] != session
    ensures ThreadBacked(t, session, elicitations - {id}, WithoutId(unanswered, id))
  {
    forall i | 0 <= i < |t.entries| && T.IsPending(t.entries[i])
      ensures Answerable(elicitations - {id}, WithoutId(unanswered, id), session, t.entries[i].asked)
    {
      var e := t.entries[i].asked;
      assert Answerable(elicitations, unanswered, session, e);
      var f :| f in unanswered && Asks(f, session, e);
      InWithoutId(unanswered, id, f);
    }
  }

  lemma AnswerKeepsBacked(store: Sessions.Store, id: RequestId, p: Payload, unanswered: seq<Frame>)
    requires StoreBacked(store, unanswered)
    ensures StoreBacked(Sessions.ElicitationAnswered(store, id, p), WithoutId(unanswered, id))
  {
    var store' := Sessions.ElicitationAnswered(store, id, p);
    forall session | session in store'.threads
      ensures ThreadBacked(store'.threads[session], session, store'.elicitations, WithoutId(unanswered, id))
    {
      assert store'.elicitations == store.elicitations - {id};
      var t := store.threads[session];
      if id in store.elicitations && store.elicitations[id] == session {
        var (state, content) := Sessions.Settlement(p);
        AnsweredThreadBacked(t, session, store.elicitations, unanswered, id, state, content);
      } else {
        UntouchedThreadBacked(t, session, store.elicitations, unanswered, id);
      }
    }
  }

  lemma ClientFrameBacked(s: State, f: Frame)
    requires Backed(s)
    ensures Backed(WithClientFrame(s, f))
  {
    if Relays(s, f) {
      RelayedParts(s, f);
      match f
      case Request(_, _, _) => RequestKeepsBacked(s.store, Presented(s, f), s.unanswered);
      case Response(id, p) => AnswerKeepsBacked(s.store, id, p, s.unanswered);
      case Notification(_, _) =>
    } else {
      StoppedParts(s, f);
    }
  }

  // ----- Frames from the agent -----

  lemma QuestionThreadBacked(t: T.ThreadState, session: string, elicitations: map<RequestId, string>,
                             unanswered: seq<Frame>,
                             f: Frame, q: Question)
    requires ThreadBacked(t, session, elicitations, unanswered)
    requires f.Request? && f.verb == ElicitationCreate && SessionOf(f) == Some(session)
    requires TypedQuestion(f) == Some(q) && q.sessionScoped && q.mode.Known?
    requires forall g | g in unanswered :: g.Request? ==> g.id != f.id
    ensures ThreadBacked(T.WithQuestion(t, f.id, q.message, q.toolCallId, q.mode), session,
                         elicitations[f.id := session], unanswered + [f])
  {
    var after := T.WithQuestion(t, f.id, q.message, q.toolCallId, q.mode);
    var n := |t.entries|;
    forall i | 0 <= i < |after.entries| && T.IsPending(after.entries[i])
      ensures Answerable(elicitations[f.id := session], unanswered + [f], session, after.entries[i].asked)
      ensures i < n ==> after.entries[i].asked.requestId != f.id
    {
      if i < n {
        var e := t.entries[i].asked;
        assert Answerable(elicitations, unanswered, session, e);
        var g :| g in unanswered && Asks(g, session, e);
        assert g in unanswered + [f];
      } else {
        assert f in unanswered + [f] && Asks(f, session, after.entries[i].asked);
      }
    }
  }

  lemma OtherThreadBacked(t: T.ThreadState, session: string, elicitations: map<RequestId, string>,
                          unanswered: seq<Frame>,
                          f: Frame, named: string)
    requires ThreadBacked(t, session, elicitations, unanswered)
    requires f.Request? && forall g | g in unanswered :: g.Request? ==> g.id != f.id
    ensures ThreadBacked(t, session, elicitations[f.id := named], unanswered + [f])
  {
    forall i | 0 <= i < |t.entries| && T.IsPending(t.entries[i])
      ensures Answerable(elicitations[f.id := named], unanswered + [f], session, t.entries[i].asked)
    {
      var e := t.entries[i].asked;
      assert Answerable(elicitations, unanswered, session, e);
      var g :| g in unanswered && Asks(g, session, e);
      assert g in unanswered + [f] && g.id != f.id;
    }
  }

  lemma ListGrows(store: Sessions.Store, unanswered: seq<Frame>, f: Frame)
    requires StoreBacked(store, unanswered)
    ensures StoreBacked(store, unanswered + [f])
  {
    forall session | session in store.threads
      ensures ThreadBacked(store.threads[session], session, store.elicitations, unanswered + [f])
    {
      KeepsBacked(store.threads[session], store.threads[session], session, store.elicitations, store.elicitations,
                  unanswered, unanswered + [f]);
    }
  }

  lemma QuestionKeepsBacked(store: Sessions.Store, f: Frame, unanswered: seq<Frame>)
    requires StoreBacked(store, unanswered) && f.Request? && f.verb == ElicitationCreate
    requires forall g | g in unanswered :: g.Request? ==> g.id != f.id
    ensures StoreBacked(Sessions.QuestionAsked(store, f), unanswered + [f])
  {
    var question := TypedQuestion(f);
    if question.None? || !question.value.sessionScoped || TypedSession(f).None? {
      ListGrows(store, unanswered, f);
    } else {
      var q, session := question.value, TypedSession(f).value;
      var before := Sessions.ThreadOf(store.threads, session);
      var store' := Sessions.QuestionAsked(store, f);
      assert ThreadBacked(before, session, store.elicitations, unanswered);
      if q.mode.Unknown? {
        OneThreadChanges(store, session, before, unanswered);
        ListGrows(store', unanswered, f);
      } else {
        forall other | other in store'.threads
          ensures ThreadBacked(store'.threads[other], other, store'.elicitations, unanswered + [f])
        {
          if other == session {
            QuestionThreadBacked(before, session, store.elicitations, unanswered, f, q);
          } else {
            OtherThreadBacked(store.threads[other], other, store.elicitations, unanswered, f, session);
          }
        }
      }
    }
  }

  lemma {:induction false} CompletionKeepsBacked(store: Sessions.Store, order: seq<string>, elicitationId: string,
                                                 unanswered: seq<Frame>)
    requires StoreBacked(store, unanswered)
    ensures StoreBacked(store.(threads := Sessions.CompletedIn(store.threads, order, elicitationId)), unanswered)
  {
    if order != [] {
      if order[0] in store.threads && T.CanComplete(store.threads[order[0]], elicitationId) {
        OneThreadChanges(store, order[0], T.WithCompleted(store.threads[order[0]], elicitationId), unanswered);
      } else {
        CompletionKeepsBacked(store, order[1..], elicitationId, unanswered);
      }
    }
  }

  lemma NotificationKeepsBacked(store: Sessions.Store, f: Frame, order: seq<string>, unanswered: seq<Frame>)
    requires StoreBacked(store, unanswered) && f.Notification?
    ensures StoreBacked(Sessions.Notified(store, f, order), unanswered)
  {
    if f.params.Some? {
      var params := f.params.value;
      if f.verb == ElicitationComplete && params.completes.Some? {
        CompletionKeepsBacked(store, order, params.completes.value, unanswered);
      } else if f.verb == SessionUpdate && TypedSession(f).Some? && params.update.Some? {
        var session := TypedSession(f).value;
        var before := Sessions.ThreadOf(store.threads, session);
        FoldOpensNone(before, params.update.value);
        OneThreadChanges(store, session, T.Folded(before, params.update.value), unanswered);
      }
    }
  }

  lemma RevisedOpensNone(threads: map<string, T.ThreadState>, t: Sessions.Tables, id: RequestId, body: Body)
    requires Sessions.Revised(threads, t, id, body).Some?
    ensures NoneOpened(Sessions.ThreadOf(threads, Sessions.Revised(threads, t, id, body).value.0),
                       Sessions.Revised(threads, t, id, body).value.1)
  {
  }

  lemma SuccessKeepsBacked(store: Sessions.Store, id: RequestId, body: Body, unanswered: seq<Frame>)
    requires StoreBacked(store, unanswered)
    ensures StoreBacked(Sessions.Succeeded(store, id, body), unanswered)
  {
    var store' := Sessions.Succeeded(store, id, body);
    var forgotten, revised := Sessions.ForgottenBy(store.tables, id),
        Sessions.Revised(store.threads, store.tables, id, body);
    if forgotten.Some? {
      SessionDropped(store, store', forgotten.value, unanswered, unanswered);
    } else if revised.Some? {
      RevisedOpensNone(store.threads, store.tables, id, body);
      OneThreadChanges(store, revised.value.0, revised.value.1, unanswered);
      SameThreads(store.(threads := store'.threads), store', unanswered);
    } else {
      SameThreads(store, store', unanswered);
    }
  }

  lemma FailureKeepsBacked(store: Sessions.Store, id: RequestId, unanswered: seq<Frame>)
    requires StoreBacked(store, unanswered)
    ensures StoreBacked(Sessions.Failed(store, id), unanswered)
  {
    if id in store.tables.prompts && store.tables.prompts[id] in store.threads {
      var session := store.tables.prompts[id];
      OneThreadChanges(store, session, T.WithTurnFinished(store.threads[session], StopCancelled), unanswered);
    }
  }

  lemma TurnEndKeepsBacked(store: Sessions.Store, session: string, unanswered: seq<Frame>)
    requires StoreBacked(store, unanswered)
    ensures StoreBacked(Sessions.GivenUp(store, session), WithoutSession(unanswered, session))
  {
    if session in store.threads {
      CancelOpensNone(store.threads[session]);
    }
    forall f, other | f in unanswered && SessionOf(f) == Some(other) && other != session
      ensures f in WithoutSession(unanswered, session)
    {
      InWithoutSession(unanswered, session, f);
    }
    SessionDropped(store, Sessions.GivenUp(store, session), session, unanswered, WithoutSession(unanswered, session));
  }

  lemma AgentFrameBacked(s: State, f: Frame, order: seq<string>)
    requires Backed(s) && AsksAnew(s, AgentFrame(f, order))
    ensures Backed(WithAgentFrame(s, f, order))
  {
    AgentFrameParts(s, f, order);
    match f
    case Request(_, verb, _) =>
      if verb == ElicitationCreate {
        QuestionKeepsBacked(s.store, f, s.unanswered);
      } else {
        ListGrows(s.store, s.unanswered, f);
      }
    case Notification(_, _) =>
      NotificationKeepsBacked(s.store, f, order, s.unanswered);
    case Response(id, p) =>
      match p {
        case Result(body) => SuccessKeepsBacked(s.store, id, body, s.unanswered);
        case Error(_, _) => FailureKeepsBacked(s.store, id, s.unanswered);
      }
      if EndsTurn(s, f).Some? {
        TurnEndKeepsBacked(Sessions.FromAgent(s.store, f, order), EndsTurn(s, f).value, s.unanswered);
      }
  }

  lemma StepBacked(s: State, i: Input)
    requires Backed(s) && AsksAnew(s, i)
    ensures Backed(Step(s, i))
  {
    match i
    case ClientFrame(_, f) => ClientFrameBacked(s, f);
    case AgentFrame(f, order) => AgentFrameBacked(s, f, order);
    case _ =>
  }

  // In every reachable state every open question of every session is attributed
  // to that session and has its request on the re-ask list.
  lemma {:induction false} AlwaysBacked(servers: seq<Offering.Server>, inputs: seq<Input>)
    requires Considerate(Initially(servers), inputs)
    ensures Backed(Run(Initially(servers), inputs))
  {
    if inputs != [] {
      AlwaysBacked(servers, inputs[..|inputs| - 1]);
      StepBacked(Run(Initially(servers), inputs[..|inputs| - 1]), inputs[|inputs| - 1]);
    }
  }

  // ----- What that buys -----

  lemma {:induction false} HandAllDelivers(sink: Sinking.Sink, frames: seq<Frame>)
    requires sink.sender && sink.open
    ensures HandAll(sink, frames) == sink.(log := sink.log +
              seq(|frames|, i requires 0 <= i < |frames| => Sinking.Delivery(Wire(frames[i]), Some(sink.generation))))
  {
    var delivered := seq(|frames|, i requires 0 <= i < |frames| =>
        Sinking.Delivery(Wire(frames[i]), Some(sink.generation)));
    if frames != [] {
      var front := frames[..|frames| - 1];
      HandAllDelivers(sink, front);
      assert delivered == delivered[..|frames| - 1] + [delivered[|frames| - 1]];
    } else {
      assert sink.log + delivered == sink.log;
    }
  }

  // A browser that asks for a session's replay receives the thread, and after
  // it, for every question the thread shows as open, the request to answer.
  lemma ReplayIsAnswerable(s: State, id: CallId, params: Params, i: nat)
    requires Backed(s) && s.sink.sender && s.sink.open
    requires params.typed && params.sessionId.Some? && params.sessionId.value in s.store.threads
    requires i < |s.store.threads[params.sessionId.value].entries|
    requires T.IsPending(s.store.threads[params.sessionId.value].entries[i])
    ensures var session := params.sessionId.value;
            var log := Step(s, ClientFrame(s.sink.generation, Request(id, SessionReplay, Some(params)))).sink.log;
            var n, to := |s.sink.log|, Some(s.sink.generation);
            && n < |log| && log[n] == Sinking.Delivery(Replayed(id, Replay.Serialised(s.store.threads[session])), to)
            && exists k | n < k < |log| :: log[k].to == to && log[k].line.Wire? &&
                 Asks(log[k].line.frame, session, s.store.threads[session].entries[i].asked)
  {
    var session := params.sessionId.value;
    var e := s.store.threads[session].entries[i].asked;
    assert Answerable(s.store.elicitations, s.unanswered, session, e);
    var f :| f in s.unanswered && Asks(f, session, e);
    var k :| 0 <= k < |s.unanswered| && s.unanswered[k] == f;
    var replied := Hand(s, ExtensionReply(s.store, Request(id, SessionReplay, Some(params))));
    HandAllDelivers(replied.sink, s.unanswered);
    var log := Step(s, ClientFrame(s.sink.generation, Request(id, SessionReplay, Some(params)))).sink.log;
    assert log == HandAll(replied.sink, s.unanswered).log;
    assert log[|s.sink.log| + 1 + k] == Sinking.Delivery(Wire(f), Some(s.sink.generation));
  }

  // A question as an answer leaves it: accepted with what was filled in, declined,
  // or, of an answer that says neither, cancelled. A refusal to answer declines it.
  predicate Records(e: Elicitation, was: Elicitation, p: Payload) {
    && e == was.(state := e.state, content := e.content)
    && match p
       case Error(_, _) => e.state == Declined && e.content.None?
       case Result(body) =>
         (match body.action
          case Some(Accept(content)) => e.state == Accepted && e.content == content
          case Some(Decline) => e.state == Declined && e.content.None?
          case _ => e.state == Cancelled && e.content.None?)
  }

  // Answering it settles that question, on this session's thread, and takes its
  // request off the list.
  lemma AnswerSettles(s: State, session: string, i: nat, p: Payload)
    requires Backed(s) && session in s.store.threads
    requires i < |s.store.threads[session].entries| && T.IsPending(s.store.threads[session].entries[i])
    ensures var e := s.store.threads[session].entries[i].asked;
            var s' := Step(s, ClientFrame(s.sink.generation, Response(e.requestId, p)));
            && session in s'.store.threads && i < |s'.store.threads[session].entries|
            && s'.store.threads[session].entries[i].Asked?
            && Records(s'.store.threads[session].entries[i].asked, e, p)
            && s'.store.threads[session].entries ==
               s.store.threads[session].entries[i := s'.store.threads[session].entries[i]]
            && e.requestId !in s'.store.elicitations
            && forall f | f in s'.unanswered && f.Request? :: f.id != e.requestId
  {
    var t := s.store.threads[session];
    var e := t.entries[i].asked;
    RelayedParts(s, Response(e.requestId, p));
    assert Answerable(s.store.elicitations, s.unanswered, session, e);
    OneOpen(t, session, s.store.elicitations, s.unanswered, e.requestId, i);
    forall f | f in WithoutId(s.unanswered, e.requestId) && f.Request?
      ensures f.id != e.requestId
    {
      InWithoutId(s.unanswered, e.requestId, f);
    }
  }
}
