// What a page shows after each thing it sends or hears, field by field.

module PageRules {
  import opened Wrappers
  import opened ThreadModel
  import opened Protocol
  import opened Pages
  import Replay
  import RelayQuestions
  import B = BrowserThread

  // A page opens blank, on its way to its first conversation; that the agent was
  // running already it learns from the introduction, and from nothing else.
  lemma PagesOpenBlank(p: Page, resumed: bool, line: Line)
    ensures OPENED.session.None? && OPENED.recorded.None? && OPENED.thread == B.EMPTY && OPENED.moving
    ensures !OPENED.resumed && OPENED.awaiting == map[]
    ensures Heard(p, Notify(AgentInfo(resumed))) == p.(resumed := resumed)
    ensures !(line.Notify? && line.notice.AgentInfo?) ==> Heard(p, line).resumed == p.resumed
  {
  }

  // ===== What it sends =====

  // A prompt is on screen before it is answered, and the turn has begun.
  lemma PromptIsShown(p: Page, id: CallId, params: Params)
    requires params.prompt.Some?
    ensures var p', n := Sent(p, Request(id, SessionPrompt, Some(params))), |p.thread.entries|;
            && p'.session == p.session && p'.moving == p.moving
            && p'.thread == p.thread.(entries := p'.thread.entries, status := Generating, stopReason := None)
            && |p'.thread.entries| == n + 1 && p'.thread.entries[..n] == p.thread.entries
            && p'.thread.entries[n].User? && p'.thread.entries[n].isOptimistic
            && p'.thread.entries[n].protocolId.None? && p'.thread.entries[n].content == params.prompt.value
  {
  }

  // An answer settles every open question of its request, as the server reads it,
  // and touches nothing else.
  lemma AnswerIsShown(p: Page, id: RequestId, payload: Payload)
    requires forall e | e in p.thread.entries && e.Asked? && e.asked.state == Pending :: e.asked.content.None?
    ensures var p' := Sent(p, Response(id, payload));
            && p' == p.(thread := p.thread.(entries := p'.thread.entries))
            && |p'.thread.entries| == |p.thread.entries|
            && forall i | 0 <= i < |p.thread.entries| ::
                 var was, e := p.thread.entries[i], p'.thread.entries[i];
                 if was.Asked? && was.asked.state == Pending && was.asked.requestId == id then
                   e.Asked? && e.id == was.id && RelayQuestions.Records(e.asked, was.asked, payload)
                 else e == was
  {
  }

  // A load empties the page and takes it to its session at once.
  lemma LoadEmpties(p: Page, id: CallId, params: Params)
    requires params.sessionId.Some?
    ensures var p' := Sent(p, Request(id, SessionLoad, Some(params)));
            p'.session == params.sessionId && p'.thread == B.EMPTY && !p'.moving
  {
  }

  // Nothing else it sends changes what is on screen, but that asking for a replay
  // takes it to that session.
  lemma OthersShowNothing(p: Page, f: Frame)
    requires !f.Response?
    requires f.Request? && f.verb == SessionPrompt ==> f.params.None? || f.params.value.prompt.None?
    requires f.Request? && f.verb == SessionLoad ==> f.params.None? || f.params.value.sessionId.None?
    ensures var p' := Sent(p, f);
            && p'.thread == p.thread && p'.moving == p.moving
            && p'.session == if f.Request? && f.verb == SessionReplay && f.params.Some? && f.params.value.typed
                                && f.params.value.sessionId.Some? then f.params.value.sessionId else p.session
  {
  }

  // ===== What it hears =====

  // The end of a turn: the page is idle, for this reason, and every open question
  // is cancelled.
  predicate Over(b: B.ThreadState, was: B.ThreadState, reason: Option<StopReason>) {
    && b == was.(entries := b.entries, status := Idle, stopReason := reason)
    && |b.entries| == |was.entries|
    && forall i | 0 <= i < |was.entries| ::
         b.entries[i] == if was.entries[i].Asked? && was.entries[i].asked.state == Pending
                         then was.entries[i].(asked := was.entries[i].asked.(state := Cancelled)) else was.entries[i]
  }

  // The name of a reason is read as that reason, and nothing else is read as one.
  lemma ReasonsAreRead(reason: StopReason, text: string)
    ensures ShownReason(Some(Replay.StopName(reason))) == Some(reason) && ShownReason(None) == None
    ensures ShownReason(Some(text)).Some? ==> text == Replay.StopName(ShownReason(Some(text)).value)
    ensures Replay.StopName(reason) == match reason
                                       case EndTurn => "end_turn"
                                       case MaxTokens => "max_tokens"
                                       case MaxTurnRequests => "max_turn_requests"
                                       case Refusal => "refusal"
                                       case StopCancelled => "cancelled"
  {
  }

  lemma TurnOverIsShown(p: Page, session: string, text: string)
    ensures var p' := Heard(p, Notify(TurnOver(session, text)));
            p' == p.(thread := p'.thread) && Over(p'.thread, p.thread, ShownReason(Some(text)))
  {
  }

  // The page as it was when it heard the answer to a request, but for the request.
  function Answered(p: Page, id: RequestId): Page {
    p.(awaiting := p.awaiting - {id})
  }

  lemma PromptAnswerIsShown(p: Page, id: RequestId, payload: Payload)
    requires id in p.awaiting && p.awaiting[id].verb == SessionPrompt
    ensures var p' := Heard(p, Wire(Response(id, payload)));
            && p' == Answered(p, id).(thread := p'.thread)
            && Over(p'.thread, p.thread, if payload.Error? then p.thread.stopReason
                else ShownReason(payload.body.stopText))
  {
  }

  // Modes and options stated replace those on screen, and what is not stated stays.
  predicate States(b: B.ThreadState, was: B.ThreadState, modes: Option<Modes>, options: Option<seq<ConfigOption>>) {
    b == was.(modes := if modes.Some? then modes else was.modes,
              configOptions := if options.Some? then options.value else was.configOptions)
  }

  lemma LoadAnswerIsShown(p: Page, id: RequestId, body: Body)
    requires id in p.awaiting && p.awaiting[id].verb == SessionLoad && body.stated.Some?
    ensures var p' := Heard(p, Wire(Response(id, Result(body))));
            && p' == Answered(p, id).(thread := p'.thread)
            && States(p'.thread, p.thread, body.stated.value.modes, body.stated.value.options)
  {
  }

  lemma LoadRefusedIsShown(p: Page, id: RequestId, code: int, message: string)
    requires id in p.awaiting && p.awaiting[id].verb == SessionLoad && p.awaiting[id].target.Some?
    requires p.awaiting[id].session.Some?
    ensures var p' := Heard(p, Wire(Response(id, Error(code, message))));
            p'.session == p.awaiting[id].session && p'.thread == p.awaiting[id].thread && !p'.moving
  {
  }

  lemma OptionsAnswerIsShown(p: Page, id: RequestId, body: Body)
    requires id in p.awaiting && p.awaiting[id].verb == SessionSetConfigOption
    ensures Heard(p, Wire(Response(id, Result(body)))) ==
            Answered(p, id).(thread := p.thread.(configOptions := if body.options.Some? then body.options.value
                else []))
  {
  }

  lemma ModeAnswerIsShown(p: Page, id: RequestId, body: Body)
    requires id in p.awaiting && p.awaiting[id].verb == SessionSetMode && p.awaiting[id].mode.Some?
    ensures var p' := Heard(p, Wire(Response(id, Result(body))));
            && p' == Answered(p, id).(thread := p.thread.(modes := p'.thread.modes))
            && (p.thread.modes.None? ==> p'.thread.modes.None?)
            && (p.thread.modes.Some? ==>
                  && p'.thread.modes.Some? && p'.thread.modes.value.currentModeId == p.awaiting[id].mode.value
                  && p'.thread.modes.value.availableModes == p.thread.modes.value.availableModes)
  {
  }

  // A session made: the page is there, with what was stated. As it connects it
  // keeps what is on screen, and waits to be replayed if the agent was running.
  lemma MadeIsShown(p: Page, id: RequestId, body: Body)
    requires id in p.awaiting && (p.awaiting[id].verb == SessionNew || p.awaiting[id].verb == SessionFork)
    requires body.created.Some?
    ensures var p', made := Heard(p, Wire(Response(id, Result(body)))), body.created.value;
            var connecting := p.awaiting[id].verb == SessionNew && p.awaiting[id].session.None?;
            && p'.session == Some(made.sessionId)
            && States(p'.thread, if connecting then p.thread else B.EMPTY, made.modes, made.options)
            && p'.moving == (connecting && p.resumed)
            && p'.recorded == if connecting && p.resumed then Some(made.sessionId) else None
  {
  }

  // A session resumed: the page is there with what was stated, and waits to be
  // replayed the rest.
  lemma ResumedIsShown(p: Page, id: RequestId, body: Body)
    requires id in p.awaiting && p.awaiting[id].verb == SessionResume && p.awaiting[id].target.Some?
    ensures var p' := Heard(p, Wire(Response(id, Result(body))));
            && p'.session == p.awaiting[id].target && p'.moving
            && States(p'.thread, B.EMPTY, if body.stated.Some? then body.stated.value.modes else None,
                      if body.stated.Some? then body.stated.value.options else None)
  {
  }

  // The session on screen deleted or closed, the page is to move; another one's end
  // leaves it alone.
  lemma GoneIsLeft(p: Page, id: RequestId, body: Body)
    requires id in p.awaiting && (p.awaiting[id].verb == SessionDelete || p.awaiting[id].verb == SessionClose)
    requires p.awaiting[id].target.Some?
    ensures var p' := Heard(p, Wire(Response(id, Result(body))));
            p' == Answered(p, id).(moving := p.moving || p.awaiting[id].target == p.session)
  {
  }

  // A resume, a deletion, a close and a failed load move the page only for the
  // session they named.
  lemma NamelessMovesNothing(p: Page, id: RequestId, payload: Payload)
    requires id in p.awaiting && p.awaiting[id].target.None?
    requires p.awaiting[id].verb in {SessionResume, SessionDelete, SessionClose}
             || (p.awaiting[id].verb == SessionLoad && payload.Error?)
    ensures Heard(p, Wire(Response(id, payload))) == Answered(p, id)
  {
  }

  // An error is nothing to any request but a prompt and a load.
  lemma OtherRefusals(p: Page, id: RequestId, code: int, message: string)
    requires id in p.awaiting && p.awaiting[id].verb != SessionPrompt && p.awaiting[id].verb != SessionLoad
    ensures Heard(p, Wire(Response(id, Error(code, message)))) == Answered(p, id)
  {
  }

  // The thread that comes back replaces the one on screen; when none does the page
  // keeps what it has, and goes on looking only as it connects, for the session the
  // server recorded.
  lemma ReplayIsShown(p: Page, id: RequestId, json: Json)
    requires id in p.awaiting && p.session.Some?
    ensures var p', thread := Heard(p, Replayed(id, json)), Replay.ThreadFromReplay(json);
            && p'.session == p.session && p'.thread == (if thread.Some? then thread.value else p.thread)
            && p'.moving == (thread.None? && p.recorded.Some? && p.recorded != p.session)
  {
  }

  // A question the page can draw is open on it, whichever session asks.
  lemma QuestionIsShown(p: Page, id: CallId, params: Params)
    requires params.typed && params.question.Some? && params.question.value.mode.Known?
    ensures var p', q := Heard(p, Wire(Request(id, ElicitationCreate, Some(params)))), params.question.value;
            var i := B.IndexOfQuestion(p'.thread.entries, id);
            && p' == p.(thread := p.thread.(entries := p'.thread.entries))
            && i < |p'.thread.entries|
            && p'.thread.entries[i].asked.(id := "") ==
                 Elicitation("", id, q.message, q.toolCallId, q.mode.mode, Pending, None)
            && (forall k | 0 <= k < |p.thread.entries| && k != i :: p'.thread.entries[k] == p.thread.entries[k])
            && |p.thread.entries| <= |p'.thread.entries| <= |p.thread.entries| + 1
  {
    var i, after := B.IndexOfQuestion(p.thread.entries, id),
        Heard(p, Wire(Request(id, ElicitationCreate, Some(params)))).thread;
    assert B.IsQuestion(after.entries[i], id);
    assert forall k | 0 <= k < i :: after.entries[k] == p.thread.entries[k];
    assert B.IndexOfQuestion(after.entries, id) == i;
  }

  // A permission prompt is put on the card for its call, whichever session asks.
  lemma PermissionIsShown(p: Page, id: CallId, params: Params)
    requires params.permission.Some?
    ensures var p', asked := Heard(p, Wire(Request(id, RequestPermission, Some(params)))), params.permission.value;
            var i := B.IndexOfCall(p.thread.entries, asked.toolCallId);
            && p' == p.(thread := p.thread.(entries := p'.thread.entries)) && i < |p'.thread.entries|
            && p'.thread.entries[i].Tool? && p'.thread.entries[i].toolCall.call.id == asked.toolCallId
            && p'.thread.entries[i].toolCall.awaitingPermission == Some(asked.request)
            && (i == |p.thread.entries| ==> p'.thread.entries[i].toolCall.call.title == asked.title)
  {
  }

  // An update is folded when it is of the session on screen, and else ignored.
  lemma UpdateIsShown(p: Page, params: Params)
    requires params.typed && params.update.Some? && params.sessionId.Some?
    ensures Heard(p, Wire(Notification(SessionUpdate, Some(params)))) ==
            if params.sessionId == p.session then p.(thread := B.ApplyUpdate(p.thread, params.update.value)) else p
  {
  }

  // A completion accepts every open question under its id, whichever session's it is.
  lemma CompletionIsShown(p: Page, elicitationId: string, params: Params)
    requires params.completes == Some(elicitationId)
    ensures var p' := Heard(p, Wire(Notification(ElicitationComplete, Some(params))));
            && p' == p.(thread := p.thread.(entries := p'.thread.entries))
            && |p'.thread.entries| == |p.thread.entries|
            && forall i | 0 <= i < |p.thread.entries| ::
                 var was := p.thread.entries[i];
                 p'.thread.entries[i] ==
                   if was.Asked? && was.asked.state == Pending && was.asked.mode.Url?
                      && was.asked.mode.elicitationId == elicitationId
                   then was.(asked := was.asked.(state := Accepted)) else was
  {
  }

  // Any other call, and one of these that does not read, shows nothing.
  lemma OtherCallsAreIgnored(p: Page, f: Frame)
    requires !f.Response?
    requires f.params.Some? && f.Request? ==>
               && !(f.verb == ElicitationCreate && f.params.value.typed && f.params.value.question.Some?
                    && f.params.value.question.value.mode.Known?)
               && !(f.verb == RequestPermission && f.params.value.permission.Some?)
    requires f.params.Some? && f.Notification? ==>
               && !(f.verb == ElicitationComplete && f.params.value.completes.Some?)
               && !(f.verb == SessionUpdate && f.params.value.typed && f.params.value.update.Some?
                    && f.params.value.sessionId.Some?)
    ensures Heard(p, Wire(f)) == p
  {
  }
}
