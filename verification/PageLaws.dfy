// What becomes of a page whose session, or whose neighbour's, ends or changes.

module PageLaws {
  import opened Wrappers
  import opened ThreadModel
  import opened Protocol
  import opened Bridging
  import opened Relay
  import opened RelayTables
  import opened Pages
  import opened RelayPages
  import opened PageReload
  import opened RelayThreads
  import opened ReloadLaws
  import opened LoneLaws
  import opened ReaskLaws
  import Handshaking
  import Offering
  import RelayIsolation
  import RelayReload
  import Replay
  import ReplayLaws
  import Sessions
  import B = BrowserThread
  import S = ServerThread

  // A session resumed of which nothing is stored: once nothing came back, the page
  // shows what is stored, nothing, exactly when the answer stated no mode and no
  // option and the questions put again are none that can be drawn.
  lemma ResumedUnstored(s: State, p: Page, f: Frame, order: seq<string>, generation: nat, replay: Frame)
    requires Watching(s, p) && RelayReload.IdsApart(s.unanswered) && Answering(s, p, f).Some? && f.payload.Result?
    requires var w := Answering(s, p, f).value;
             w.verb == SessionResume && w.target.Some? && w.target.value !in s.store.threads
             && replay.Request? && replay.verb == SessionReplay && TypedSession(replay) == w.target
    ensures var stated := OrElse(f.payload.body.stated, Stated(None, None));
            var s1, p1 := Step(s, AgentFrame(f, order)), Watch(s, p, AgentFrame(f, order));
            var s2, p2 := Step(s1, ClientFrame(generation, replay)), Watch(s1, p1, ClientFrame(generation, replay));
            !p2.moving &&
            (Shows(s2, p2) <==> stated.modes.None? && OrElse(stated.options, []) == []
                                && AllOnScreen(p1.thread, RelayReload.AllShown(s1.unanswered)))
  {
    var i := AgentFrame(f, order);
    var stated := OrElse(f.payload.body.stated, Stated(None, None));
    ResumeLeaves(s, p, f, order);
    StatedOnNothing(stated.modes, stated.options);
    NothingBack(Step(s, i), Watch(s, p, i), generation, replay);
  }

  lemma StatedOnNothing(modes: Option<Modes>, options: Option<seq<ConfigOption>>)
    ensures BlankPage(B.Step(B.EMPTY, SessionStated(modes, options))) <==> modes.None? && OrElse(options, []) == []
  {
  }

  lemma ResumeLeaves(s: State, p: Page, f: Frame, order: seq<string>)
    requires Watching(s, p) && RelayReload.IdsApart(s.unanswered) && Answering(s, p, f).Some? && f.payload.Result?
    requires var w := Answering(s, p, f).value;
             w.verb == SessionResume && w.target.Some? && w.target.value !in s.store.threads
    ensures var stated := OrElse(f.payload.body.stated, Stated(None, None));
            var s', p' := Step(s, AgentFrame(f, order)), Watch(s, p, AgentFrame(f, order));
            && RelayIsolation.NoAnswers(s'.unanswered) && RelayReload.IdsApart(s'.unanswered)
            && Answering(s, p, f).value.target.value !in s'.store.threads
            && p'.recorded.None? && p'.thread == B.Step(B.EMPTY, SessionStated(stated.modes, stated.options))
  {
    var i, session := AgentFrame(f, order), Answering(s, p, f).value.target.value;
    AnswerTakes(s, p, f, order);
    ResumeUntold(s, p, f, order, session);
    StepFollows(s, i, session);
    RelayIsolation.StepKeepsQuestions(s, i);
    RelayReload.StepApart(s, i);
  }

  lemma ResumeUntold(s: State, p: Page, f: Frame, order: seq<string>, session: string)
    requires Watching(s, p) && Answering(s, p, f).Some? && Answering(s, p, f).value.verb == SessionResume
    requires session !in s.store.threads
    ensures ToldByAgent(s.store, f, order, session) == Nothing
  {
    assert s.methods.fromClient[f.id] == SessionResume;
  }

  lemma NothingBack(s: State, p: Page, generation: nat, replay: Frame)
    requires RelayIsolation.NoAnswers(s.unanswered) && RelayReload.IdsApart(s.unanswered) && p.recorded.None?
    requires replay.Request? && replay.verb == SessionReplay && TypedSession(replay).Some?
    requires TypedSession(replay).value !in s.store.threads
    ensures var i := ClientFrame(generation, replay);
            && !Watch(s, p, i).moving
            && (Shows(Step(s, i), Watch(s, p, i)) <==>
                  BlankPage(p.thread) && AllOnScreen(p.thread, RelayReload.AllShown(s.unanswered)))
  {
    WatchClient(s, p, generation, replay);
    StoppedParts(s, replay);
    ReplayLeaves(s, p, replay);
    RelayReload.ApartAsksApart(s.unanswered);
    ListOnNothing(p.thread, RelayReload.AllShown(s.unanswered));
  }

  // Another session's prompt is answered: the page goes on showing what is stored
  // exactly when its own session is at rest, and for the reason read.
  lemma PromptAnsweredElsewhere(s: State, p: Page, id: RequestId, payload: Payload, order: seq<string>)
    requires Watching(s, p) && !p.moving && Shows(s, p) && id in s.store.tables.prompts && id in s.bridge.outstanding
    requires Some(s.store.tables.prompts[id]) != p.session
    ensures var i := AgentFrame(Response(id, payload), order);
            Shows(Step(s, i), Watch(s, p, i)) <==>
              Unmoved(Stored(s, p.session.value), if payload.Error? then TurnFailed
                  else TurnUnread(ShownReason(payload.body.stopText)))
  {
    var f := Response(id, payload);
    OwnPromptAnswered(s, p, id, payload);
    HeardElsewhere(s, p, f, order, if payload.Error? then TurnFailed
        else TurnUnread(ShownReason(payload.body.stopText)));
  }

  lemma OwnPromptAnswered(s: State, p: Page, id: RequestId, payload: Payload)
    requires Consistent(s) && Tied(s, p) && id in s.store.tables.prompts && id in s.bridge.outstanding
    ensures var f := Response(id, payload);
            && Answering(s, p, f).Some? && Answering(s, p, f).value.verb == SessionPrompt
            && SaysIn(s, p, AgentFrame(f, []))
                == Some(if payload.Error? then TurnFailed else TurnUnread(ShownReason(payload.body.stopText)))
  {
    assert s.methods.fromClient[id] == SessionPrompt;
  }

  // The turn of another session, prompted by a page that has gone, is over: so too.
  lemma TurnOverElsewhere(s: State, p: Page, id: RequestId, payload: Payload, order: seq<string>)
    requires Watching(s, p) && !p.moving && Shows(s, p) && id in s.store.tables.prompts && id !in s.bridge.outstanding
    requires Some(s.store.tables.prompts[id]) != p.session
    ensures var i := AgentFrame(Response(id, payload), order);
            Shows(Step(s, i), Watch(s, p, i)) <==>
              Unmoved(Stored(s, p.session.value), TurnUnread(ShownReason(Some(StopText(payload)))))
  {
    var f := Response(id, payload);
    assert EndsTurn(s, f) == Some(s.store.tables.prompts[id]);
    HeardElsewhere(s, p, f, order, TurnUnread(ShownReason(Some(StopText(payload)))));
  }

  // Folded by the page and told to no thread of its session.
  lemma HeardElsewhere(s: State, p: Page, f: Frame, order: seq<string>, said: Event)
    requires Watching(s, p) && !p.moving && Shows(s, p) && !said.Updated?
    requires LandingOf(s, p, AgentFrame(f, order)) == Nowhere && SaysIn(s, p, AgentFrame(f, order)) == Some(said)
    requires Answering(s, p, f).Some? ==> !Takes(p, Answering(s, p, f).value, f.payload)
    requires ToldByAgent(s.store, f, order, p.session.value) == Nothing
    ensures var i := AgentFrame(f, order);
            Shows(Step(s, i), Watch(s, p, i)) <==> Unmoved(Stored(s, p.session.value), said)
  {
    WatchAgent(s, p, f, order);
    HeardRemains(p, Forwarded(s, f)[0]);
    RemainingShows(s, p, AgentFrame(f, order));
  }

  // A completion taken by another session's thread, or by none: exactly when the
  // page's own has no such question open.
  lemma OtherCompletion(s: State, p: Page, elicitationId: string, params: Params, order: seq<string>)
    requires Watching(s, p) && !p.moving && Shows(s, p)
    requires params.completes == Some(elicitationId) && Completes(s.store.threads, order, elicitationId) != p.session
    ensures var i := AgentFrame(Notification(ElicitationComplete, Some(params)), order);
            Shows(Step(s, i), Watch(s, p, i)) <==> !OpenUrl(Stored(s, p.session.value).entries, elicitationId)
  {
    CompletionHeard(s, p, elicitationId, params, order);
    HeardElsewhere(s, p, Notification(ElicitationComplete, Some(params)), order, Completed(elicitationId));
  }

  lemma CompletionHeard(s: State, p: Page, elicitationId: string, params: Params, order: seq<string>)
    requires params.completes == Some(elicitationId)
    ensures SaysIn(s, p, AgentFrame(Notification(ElicitationComplete, Some(params)), order))
            == Some(Completed(elicitationId))
  {
  }

  // A load refused at once gives the page back what it showed, and exactly when it
  // was of another session, or of nothing, is that still what is stored.
  lemma LoadRefused(s: State, p: Page, generation: nat, load: Frame, code: int, message: string, order: seq<string>)
    requires Watching(s, p) && RelayReload.IdsApart(s.unanswered) && !p.moving && Shows(s, p)
    requires load.Request? && load.verb == SessionLoad && TypedSession(Presented(s, load)).Some?
    requires TypedSession(Presented(s, load)) == SessionOf(load)
    requires Stays(s, ClientFrame(generation, load)) && Counts(p, ClientFrame(generation, load))
    ensures var s1, p1 := Step(s, ClientFrame(generation, load)), Watch(s, p, ClientFrame(generation, load));
            var i := AgentFrame(Response(Minted(s.bridge), Error(code, message)), order);
            && Watch(s1, p1, i).thread == p.thread && Watch(s1, p1, i).session == p.session
            && (Shows(Step(s1, i), Watch(s1, p1, i)) <==> SessionOf(load) != p.session || BlankPage(p.thread))
  {
    var j := ClientFrame(generation, load);
    var s1, p1 := Step(s, j), Watch(s, p, j);
    LoadLeaves(s, p, generation, load);
    RefusalTakes(s1, p1, Response(Minted(s.bridge), Error(code, message)), order);
    BlankAlike(S.EMPTY, p.thread);
  }

  lemma LoadLeaves(s: State, p: Page, generation: nat, load: Frame)
    requires Watching(s, p) && !p.moving
    requires load.Request? && load.verb == SessionLoad && TypedSession(Presented(s, load)).Some?
    requires TypedSession(Presented(s, load)) == SessionOf(load)
    requires Stays(s, ClientFrame(generation, load)) && Counts(p, ClientFrame(generation, load))
    ensures var s', p' := Step(s, ClientFrame(generation, load)), Watch(s, p, ClientFrame(generation, load));
            && Watching(s', p') && Lookup(s'.bridge, Minted(s.bridge)) == Some(load.id)
            && load.id in p'.awaiting
            && p'.awaiting[load.id] == Waiting(SessionLoad, SessionOf(load), ModeOf(load), p.session, p.thread)
            && Stored(s', p.session.value) == if SessionOf(load) == p.session then S.EMPTY
                else Stored(s, p.session.value)
  {
    RelayedParts(s, load);
    WatchClient(s, p, generation, load);
    StepWatching(s, p, ClientFrame(generation, load));
    StepFollows(s, ClientFrame(generation, load), p.session.value);
  }

  lemma RefusalTakes(s: State, p: Page, f: Frame, order: seq<string>)
    requires Watching(s, p) && f.Response? && f.payload.Error? && f.id.Number? && f.id in s.bridge.outstanding
    requires var w := p.awaiting[s.bridge.outstanding[f.id]]; w.verb == SessionLoad && w.target.Some? && w.session.Some?
    ensures var w, i := p.awaiting[s.bridge.outstanding[f.id]], AgentFrame(f, order);
            var p' := Watch(s, p, i);
            && p'.session == w.session && p'.thread == w.thread && !p'.moving
            && (Shows(Step(s, i), p') <==> ThreadsAlike(Stored(s, w.session.value), w.thread))
  {
    AnswerTakes(s, p, f, order);
    BackLands(s, p, f, order);
  }
}
