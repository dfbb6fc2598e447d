// A page that reloads, end to end: what the relay sends it, what it rebuilds,
// and when the questions put again leave that as it is.

module RelayReload {
  import opened Wrappers
  import opened ThreadModel
  import opened Protocol
  import opened Relay
  import opened Pages
  import opened ReaskLaws
  import Offering
  import RelayIsolation
  import RelayQuestions
  import Replay
  import ReplayLaws
  import ReloadLaws
  import Sessions
  import Sinking
  import T = ServerThread
  import B = BrowserThread

  function AllShown(frames: seq<Frame>): (events: seq<Event>)
    ensures AllAsked(events)
  {
    if frames == [] then []
    else
      AllShown(frames[..|frames| - 1]) +
      match ShownBy(frames[|frames| - 1])
      case None => []
      case Some(e) => [e]
  }

  lemma {:induction false} ShownIs(frames: seq<Frame>, e: Event)
    ensures e in AllShown(frames) <==> exists f | f in frames :: ShownBy(f) == Some(e)
    ensures AllAsked(AllShown(frames))
  {
    if frames != [] {
      var front, last := frames[..|frames| - 1], frames[|frames| - 1];
      ShownIs(front, e);
      assert frames == front + [last];
    }
  }

  // ----- The list never holds two questions under one id -----

  predicate IdsApart(frames: seq<Frame>) {
    forall i, j | 0 <= i < j < |frames| && frames[i].Request? && frames[j].Request? :: frames[i].id != frames[j].id
  }

  lemma ApartLonger(front: seq<Frame>, last: Frame)
    requires IdsApart(front) && (last.Request? ==> forall f | f in front :: f.Request? ==> f.id != last.id)
    ensures IdsApart(front + [last])
  {
  }

  lemma ApartShorter(front: seq<Frame>, last: Frame)
    requires IdsApart(front + [last])
    ensures IdsApart(front) && (last.Request? ==> forall f | f in front :: f.Request? ==> f.id != last.id)
  {
    var all := front + [last];
    assert forall i | 0 <= i < |front| :: all[i] == front[i];
    assert all[|front|] == last;
  }

  lemma {:induction false} WithoutIdApart(frames: seq<Frame>, id: RequestId)
    requires IdsApart(frames)
    ensures IdsApart(WithoutId(frames, id))
  {
    if frames != [] {
      var front, last := frames[..|frames| - 1], frames[|frames| - 1];
      assert frames == front + [last];
      ApartShorter(front, last);
      WithoutIdApart(front, id);
      forall f | f in WithoutId(front, id)
        ensures f in front
      {
        RelayQuestions.InWithoutId(front, id, f);
      }
      ApartLonger(WithoutId(front, id), last);
    }
  }

  lemma {:induction false} WithoutSessionApart(frames: seq<Frame>, session: string)
    requires IdsApart(frames)
    ensures IdsApart(WithoutSession(frames, session))
  {
    if frames != [] {
      var front, last := frames[..|frames| - 1], frames[|frames| - 1];
      assert frames == front + [last];
      ApartShorter(front, last);
      WithoutSessionApart(front, session);
      forall f | f in WithoutSession(front, session)
        ensures f in front
      {
        RelayQuestions.InWithoutSession(front, session, f);
      }
      ApartLonger(WithoutSession(front, session), last);
    }
  }

  lemma StepApart(s: State, i: Input)
    requires IdsApart(s.unanswered) && AsksAnew(s, i)
    ensures IdsApart(Step(s, i).unanswered)
  {
    match i
    case ClientFrame(_, f) =>
      if Relays(s, f) {
        RelayedParts(s, f);
        if f.Response? {
          WithoutIdApart(s.unanswered, f.id);
        }
      } else {
        StoppedParts(s, f);
      }
    case AgentFrame(f, order) =>
      AgentFrameParts(s, f, order);
      if EndsTurn(s, f).Some? {
        WithoutSessionApart(s.unanswered, EndsTurn(s, f).value);
      } else if f.Request? {
        ApartLonger(s.unanswered, f);
      }
    case _ =>
  }

  lemma {:induction false} AlwaysApart(servers: seq<Offering.Server>, inputs: seq<Input>)
    requires Considerate(Initially(servers), inputs)
    ensures IdsApart(Run(Initially(servers), inputs).unanswered)
  {
    if inputs != [] {
      AlwaysApart(servers, inputs[..|inputs| - 1]);
      StepApart(Run(Initially(servers), inputs[..|inputs| - 1]), inputs[|inputs| - 1]);
    }
  }

  lemma {:induction false} ApartAsksApart(frames: seq<Frame>)
    requires IdsApart(frames)
    ensures !ReloadLaws.Reuses(AllShown(frames))
    ensures forall k | 0 <= k < |AllShown(frames)| && ReloadLaws.AsksKnown(AllShown(frames)[k]) ::
              exists f | f in frames :: f.Request? && f.id == AllShown(frames)[k].requestId
  {
    if frames != [] {
      var front, last := frames[..|frames| - 1], frames[|frames| - 1];
      var shown := AllShown(front);
      assert frames == front + [last];
      ApartShorter(front, last);
      ApartAsksApart(front);
      match ShownBy(last)
      case None =>
        assert AllShown(frames) == shown;
      case Some(e) =>
        assert AllShown(frames) == shown + [e];
        ReloadLaws.NoReuseYet(shown, e);
    }
  }

  // ----- A reload -----

  function Deliveries(frames: seq<Frame>, generation: nat): seq<Sinking.Delivery> {
    seq(|frames|, i requires 0 <= i < |frames| => Sinking.Delivery(Wire(frames[i]), Some(generation)))
  }

  // An attached browser that asks for a session is sent the stored thread and
  // then every question on the list, in order,
  lemma ReplaySends(s: State, id: CallId, params: Params)
    requires RelayIsolation.Live(s.sink, s.sink.generation)
    requires params.typed && params.sessionId.Some? && params.sessionId.value in s.store.threads
    ensures Step(s, ClientFrame(s.sink.generation, Request(id, SessionReplay, Some(params)))).sink.log ==
              s.sink.log
              + [Sinking.Delivery(Replayed(id, Replay.Serialised(s.store.threads[params.sessionId.value])),
                  Some(s.sink.generation))]
              + Deliveries(s.unanswered, s.sink.generation)
  {
    var replied := Hand(s, ExtensionReply(s.store, Request(id, SessionReplay, Some(params))));
    RelayQuestions.HandAllDelivers(replied.sink, s.unanswered);
  }

  // which it reads back as the thread the server holds. After any run the
  // questions then leave that thread as it is if and only if it shows each of
  // them: as a pending entry, or, permission, on a call of it.
  lemma ReloadShowsTheConversation(servers: seq<Offering.Server>, inputs: seq<Input>, session: string)
    requires Considerate(Initially(servers), inputs) && session in Run(Initially(servers), inputs).store.threads
    ensures var s := Run(Initially(servers), inputs);
            var shown := ReplayLaws.Viewed(s.store.threads[session]);
            && Replay.ThreadFromReplay(Replay.Serialised(s.store.threads[session])) == Some(shown)
            && (ReloadLaws.Erased(B.Run(shown, AllShown(s.unanswered))) == ReloadLaws.Erased(shown) <==>
                (forall f | f in s.unanswered && ShownBy(f).Some? :: OnScreen(shown, ShownBy(f).value)))
  {
    var s := Run(Initially(servers), inputs);
    var shown := ReplayLaws.Viewed(s.store.threads[session]);
    ReplayLaws.ReplayReads(s.store.threads[session]);
    AlwaysApart(servers, inputs);
    ApartAsksApart(s.unanswered);
    ListOnScreen(shown, s.unanswered);
    AllAskedAgain(shown, AllShown(s.unanswered));
  }

  lemma ListOnScreen(b: B.ThreadState, frames: seq<Frame>)
    ensures AllAsked(AllShown(frames))
    ensures AllOnScreen(b, AllShown(frames))
            <==> (forall f | f in frames && ShownBy(f).Some? :: OnScreen(b, ShownBy(f).value))
  {
    forall e
      ensures e in AllShown(frames) <==> exists f | f in frames :: ShownBy(f) == Some(e)
      ensures AllAsked(AllShown(frames))
    {
      ShownIs(frames, e);
    }
    assert AllAsked(AllShown(frames)) by {
      ShownIs(frames, TurnFailed);
    }
    if AllOnScreen(b, AllShown(frames)) {
      forall f | f in frames && ShownBy(f).Some?
        ensures OnScreen(b, ShownBy(f).value)
      {
        assert ShownBy(f).value in AllShown(frames);
      }
    }
  }

  // Every question open on the thread is among those sent, and being sent it
  // again is the same question on screen.
  lemma OpenQuestionsReturn(servers: seq<Offering.Server>, inputs: seq<Input>, session: string, i: nat)
    requires Considerate(Initially(servers), inputs) && session in Run(Initially(servers), inputs).store.threads
    requires var entries := Run(Initially(servers), inputs).store.threads[session].entries;
             i < |entries| && T.IsPending(entries[i])
    ensures var s := Run(Initially(servers), inputs);
            exists f | f in s.unanswered :: ShownBy(f)
                == Some(ReloadLaws.Reask(s.store.threads[session].entries[i].asked))
  {
    var s := Run(Initially(servers), inputs);
    var e := s.store.threads[session].entries[i].asked;
    RelayQuestions.AlwaysBacked(servers, inputs);
    assert RelayQuestions.Answerable(s.store.elicitations, s.unanswered, session, e);
    var f :| f in s.unanswered && RelayQuestions.Asks(f, session, e);
    assert ShownBy(f) == Some(ReloadLaws.Reask(e));
  }

  // ----- Two runs that fail it -----

  function Ask(session: string, mode: ElicitationMode): Params {
    NO_PARAMS.(sessionId := Some(session), typed := true, question := Some(Question(true, "?", None, Known(mode))))
  }

  function AskFrame(id: int, session: string, mode: ElicitationMode): Frame {
    Request(Number(id), ElicitationCreate, Some(Ask(session, mode)))
  }

  lemma AskedStep(s: State, id: int, session: string, mode: ElicitationMode)
    ensures var s' := Step(s, AgentFrame(AskFrame(id, session, mode), []));
            && s'.unanswered == s.unanswered + [AskFrame(id, session, mode)]
            && s'.store.threads == s.store.threads[session :=
                 T.WithQuestion(Sessions.ThreadOf(s.store.threads, session), Number(id), "?", None, Known(mode))]
  {
    AgentFrameParts(s, AskFrame(id, session, mode), []);
  }

  lemma TwoSteps(s: State, i: Input, j: Input)
    ensures Run(s, [i, j]) == Step(Step(s, i), j)
    ensures AsksAnew(s, i) && AsksAnew(Step(s, i), j) ==> Considerate(s, [i, j])
  {
    assert [i, j][..1] == [i] && [i][..0] == [];
    assert Run(s, [i]) == Step(Run(s, []), i);
  }

  lemma SecondAppears(b: B.ThreadState, mode: ElicitationMode)
    requires |b.entries| == 1 && b.entries[0].Asked? && b.entries[0].asked.requestId == Number(1)
    ensures |B.Run(b, AllShown([AskFrame(1, "a", mode), AskFrame(2, "b", mode)])).entries| == 2
  {
    var qa, qb := ShownBy(AskFrame(1, "a", mode)).value, ShownBy(AskFrame(2, "b", mode)).value;
    TwoShown(AskFrame(1, "a", mode), AskFrame(2, "b", mode));
    ReloadLaws.RunsStep(b, [qa], qb);
    ReloadLaws.RunsStep(b, [], qa);
    assert [] + [qa] == [qa] && [qa] + [qb] == [qa, qb];
    assert B.IsQuestion(b.entries[0], Number(1));
    var b1 := B.Step(b, qa);
    assert |b1.entries| == 1 && !B.IsQuestion(b1.entries[0], Number(2));
  }

  // Two sessions each have a question open; a page that reloads the first is
  // put the second's question too, and shows it as its own.
  lemma OtherSessionsQuestionAppears(servers: seq<Offering.Server>, mode: ElicitationMode)
    ensures var inputs := [AgentFrame(AskFrame(1, "a", mode), []), AgentFrame(AskFrame(2, "b", mode), [])];
            var s := Run(Initially(servers), inputs);
            && Considerate(Initially(servers), inputs) && "a" in s.store.threads
            && var shown := ReplayLaws.Viewed(s.store.threads["a"]);
               |shown.entries| == 1 && |B.Run(shown, AllShown(s.unanswered)).entries| == 2
  {
    var i, j := AgentFrame(AskFrame(1, "a", mode), []), AgentFrame(AskFrame(2, "b", mode), []);
    var s0 := Initially(servers);
    var s1 := Step(s0, i);
    TwoSteps(s0, i, j);
    AskedStep(s0, 1, "a", mode);
    AskedStep(s1, 2, "b", mode);
    var s := Step(s1, j);
    assert "a"[0] != "b"[0];
    assert s.store.threads["a"] == T.WithQuestion(T.EMPTY, Number(1), "?", None, Known(mode));
    assert s.unanswered == [AskFrame(1, "a", mode), AskFrame(2, "b", mode)];
    SecondAppears(ReplayLaws.Viewed(s.store.threads["a"]), mode);
  }

  lemma TwoShown(f: Frame, g: Frame)
    requires ShownBy(f).Some? && ShownBy(g).Some?
    ensures AllShown([f, g]) == [ShownBy(f).value, ShownBy(g).value]
    ensures AllShown([f]) == [ShownBy(f).value]
  {
    assert [f, g][..1] == [f] && [f][..0] == [];
    assert AllShown([f]) == AllShown([]) + [ShownBy(f).value];
  }

  function Completion(elicitationId: string): Frame {
    Notification(ElicitationComplete, Some(NO_PARAMS.(completes := Some(elicitationId))))
  }

  lemma CompletionStep(s: State, session: string, elicitationId: string)
    requires session in s.store.threads && T.CanComplete(s.store.threads[session], elicitationId)
    ensures var s' := Step(s, AgentFrame(Completion(elicitationId), [session]));
            && s'.unanswered == s.unanswered && session in s'.store.threads
            && s'.store.threads[session] == T.WithCompleted(s.store.threads[session], elicitationId)
  {
    AgentFrameParts(s, Completion(elicitationId), [session]);
  }

  // One URL question, asked and completed.
  function OneAsked(elicitationId: string, url: string): T.ThreadState {
    T.WithQuestion(T.EMPTY, Number(1), "?", None, Known(Url(elicitationId, url)))
  }

  lemma OneCompleted(elicitationId: string, url: string)
    ensures T.CanComplete(OneAsked(elicitationId, url), elicitationId)
    ensures var shown := ReplayLaws.Viewed(T.WithCompleted(OneAsked(elicitationId, url), elicitationId));
            && |shown.entries| == 1 && shown.entries[0].Asked? && shown.entries[0].asked.state == Accepted
            && shown.entries[0].asked.requestId == Number(1)
  {
    assert T.PendingUrl(OneAsked(elicitationId, url).entries[0], elicitationId);
  }

  lemma AskedAgainReopens(b: B.ThreadState, mode: ElicitationMode)
    requires |b.entries| == 1 && b.entries[0].Asked? && b.entries[0].asked.requestId == Number(1)
    ensures var again := B.Run(b, AllShown([AskFrame(1, "a", mode)]));
            |again.entries| == 1 && again.entries[0].Asked? && again.entries[0].asked.state == Pending
  {
    var q := ShownBy(AskFrame(1, "a", mode)).value;
    TwoShown(AskFrame(1, "a", mode), AskFrame(1, "a", mode));
    ReloadLaws.RunsStep(b, [], q);
    assert [] + [q] == [q] && B.IsQuestion(b.entries[0], Number(1));
  }

  // A question settled by its own notification stays on the list, so a page
  // that reloads after it shows it open again.
  lemma CompletedQuestionReopens(servers: seq<Offering.Server>, elicitationId: string, url: string)
    ensures var inputs := [AgentFrame(AskFrame(1, "a", Url(elicitationId, url)), []),
                           AgentFrame(Completion(elicitationId), ["a"])];
            var s := Run(Initially(servers), inputs);
            && Considerate(Initially(servers), inputs) && "a" in s.store.threads
            && var shown := ReplayLaws.Viewed(s.store.threads["a"]);
               && |shown.entries| == 1 && shown.entries[0].Asked? && shown.entries[0].asked.state == Accepted
               && var again := B.Run(shown, AllShown(s.unanswered));
                  |again.entries| == 1 && again.entries[0].Asked? && again.entries[0].asked.state == Pending
  {
    var mode, s0 := Url(elicitationId, url), Initially(servers);
    var i, j := AgentFrame(AskFrame(1, "a", mode), []), AgentFrame(Completion(elicitationId), ["a"]);
    TwoSteps(s0, i, j);
    AskedStep(s0, 1, "a", mode);
    OneCompleted(elicitationId, url);
    var s1 := Step(s0, i);
    assert s1.store.threads["a"] == OneAsked(elicitationId, url) && s1.unanswered == [AskFrame(1, "a", mode)];
    CompletionStep(s1, "a", elicitationId);
    AskedAgainReopens(ReplayLaws.Viewed(Step(s1, j).store.threads["a"]), mode);
  }
}
