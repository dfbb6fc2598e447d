// When a page that stays shows what it would be given back if it reloaded.

module PageReload {
  import opened Wrappers
  import opened ThreadModel
  import opened Protocol
  import opened Bridging
  import opened Relay
  import opened RelayTables
  import opened Pages
  import opened RelayPages
  import opened RelayThreads
  import opened ReloadLaws
  import opened LoneLaws
  import opened ReaskLaws
  import Handshaking
  import Offering
  import RelayIsolation
  import RelayReload
  import Replay
  import ReplayLaws
  import Sessions
  import B = BrowserThread
  import S = ServerThread

  function Stored(s: State, session: string): S.ThreadState {
    Sessions.ThreadOf(s.store.threads, session)
  }

  // The page shows what is stored for its session; what is not stored is empty.
  ghost predicate Shows(s: State, p: Page) {
    p.session.Some? && ThreadsAlike(Stored(s, p.session.value), p.thread)
  }

  // ===== The threads of the two sides, after what each is told =====

  // Nothing is on the thread at all.
  predicate Blank(t: S.ThreadState) {
    && t.entries == [] && t.plan == [] && t.status == Idle && t.stopReason.None? && t.usage.None?
    && t.availableCommands == [] && t.modes.None? && t.configOptions == []
  }

  predicate BlankPage(b: B.ThreadState) {
    && b.entries == [] && b.plan == [] && b.status == Idle && b.stopReason.None? && b.usage.None?
    && b.availableCommands == [] && b.modes.None? && b.configOptions == []
  }

  lemma BlankAlike(t: S.ThreadState, b: B.ThreadState)
    ensures ThreadsAlike(S.EMPTY, b) <==> BlankPage(b)
    ensures BlankPage(b) ==> (ThreadsAlike(t, b) <==> Blank(t))
  {
  }

  // The two show the same, but for what an answer is about to state on both.
  ghost predicate MeetsAt(t: S.ThreadState, b: B.ThreadState, modes: Option<Modes>,
                          options: Option<seq<ConfigOption>>) {
    && EntriesAlike(t.entries, b.entries)
    && t.plan == b.plan && t.status == b.status && t.stopReason == b.stopReason && t.usage == b.usage
    && t.availableCommands == b.availableCommands
    && (modes.None? ==> t.modes == b.modes) && (options.None? ==> t.configOptions == b.configOptions)
  }

  lemma MeetAlike(t: S.ThreadState, b: B.ThreadState, modes: Option<Modes>, options: Option<seq<ConfigOption>>)
    ensures var e := SessionStated(modes, options);
            && (ThreadsAlike(S.Step(t, e), B.Step(b, e)) <==> MeetsAt(t, b, modes, options))
            && (ThreadsAlike(t, B.Step(b, e)) <==> MeetsAt(t, b, modes, options) && Unmoved(t, e))
  {
  }

  // An event both sides hear, the page reading a turn's end off its text.
  predicate Together(t: S.ThreadState, stored: Event, said: Event) {
    if said.TurnUnread? && stored.TurnEnded? then said.shown == Some(stored.reason)
    else if said.TurnUnread? && stored.TurnFailed? then said.shown == Some(StopCancelled)
    else Admits(t, said)
  }

  // What the server took in for the session, and what the page folded, leave the
  // two showing the same.
  predicate Agrees(t: S.ThreadState, news: News, said: Option<Event>) {
    match (news, said)
    case (Nothing, None) => true
    case (Nothing, Some(e)) => Unmoved(t, e)
    case (Said(stored), Some(e)) => Together(t, stored, e)
    case (Said(stored), None) => Unmoved(t, stored)
    case _ => Blank(t)
  }

  // Of a session that stays on screen the two are told the same thing, or one of
  // them nothing.
  predicate Paired(news: News, said: Option<Event>) {
    match (news, said)
    case (Nothing, Some(e)) => !e.Updated?
    case (Said(stored), Some(e)) => stored == e
        || (e.TurnUnread? && (stored.TurnEnded? || stored.TurnFailed? || stored.TurnUnread?))
    case (Said(stored), None) => stored.SessionStated?
    case (_, None) => true
    case _ => false
  }

  function Folded(b: B.ThreadState, said: Option<Event>): B.ThreadState {
    if said.Some? then B.Step(b, said.value) else b
  }

  lemma TurnsAlike(t: S.ThreadState, b: B.ThreadState, stored: Event, said: Event)
    requires ThreadsAlike(t, b) && said.TurnUnread? && (stored.TurnEnded? || stored.TurnFailed? || stored.TurnUnread?)
    ensures ThreadsAlike(S.Step(t, stored), B.Step(b, said)) <==> Together(t, stored, said)
  {
    TurnEndAlike(t, b, said);
    TurnEndAlike(t, b, TurnEnded(StopCancelled));
    if stored.TurnEnded? {
      TurnEndAlike(t, b, stored);
      assert B.Step(b, said) == B.Step(b, stored).(stopReason := said.shown);
    } else if stored.TurnFailed? {
      assert B.Step(b, said) == B.Step(b, TurnEnded(StopCancelled)).(stopReason := said.shown);
    }
  }

  lemma AgreeAlike(before: map<string, S.ThreadState>, after: map<string, S.ThreadState>, session: string,
                   b: B.ThreadState, news: News, said: Option<Event>)
    requires ThreadsAlike(Sessions.ThreadOf(before, session), b)
    requires OpenHoldNothing(Sessions.ThreadOf(before, session).entries)
    requires Follows(before, after, session, news) && Paired(news, said)
    ensures ThreadsAlike(Sessions.ThreadOf(after, session), Folded(b, said)) <==>
              Agrees(Sessions.ThreadOf(before, session), news, said)
  {
    var t := Sessions.ThreadOf(before, session);
    match (news, said)
    case (Nothing, Some(e)) => LoneAlike(t, b, e);
    case (Said(stored), Some(e)) =>
      if e.TurnUnread? {
        TurnsAlike(t, b, stored, e);
      } else {
        StepAlike(t, b, e);
      }
    case (Said(stored), None) => StatedAlone(t, b, stored);
    case (Nothing, None) =>
    case _ => ForgottenAlike(t, b);
  }

  lemma ForgottenAlike(t: S.ThreadState, b: B.ThreadState)
    requires ThreadsAlike(t, b)
    ensures ThreadsAlike(S.EMPTY, b) <==> Blank(t)
  {
    BlankAlike(t, b);
  }

  // ===== One step =====

  // The request of the page's own that a frame from the agent answers.
  function Answering(s: State, p: Page, f: Frame): Option<Waiting> {
    if f.Response? && !Intercepts(s.servers, f) && Lookup(s.bridge, f.id).Some?
        && Lookup(s.bridge, f.id).value in p.awaiting
    then Some(p.awaiting[Lookup(s.bridge, f.id).value]) else None
  }

  // What the page folds in a step that leaves it where it is.
  function SaysIn(s: State, p: Page, i: Input): Option<Event> {
    match i
    case ClientFrame(_, f) => SaysSending(f)
    case AgentFrame(f, _) => if Intercepts(s.servers, f) || Forwarded(s, f) == [] then None
        else Says(p, Forwarded(s, f)[0])
    case _ => None
  }

  // Where a step takes the page, if it takes it anywhere.
  datatype Landing =
    | Nowhere
    | OnLoaded(session: string)
    | OnReplayed
    | OnMade(made: Created, waiting: Waiting, known: bool)
    | BackOn(waiting: Waiting)

  function LandingOf(s: State, p: Page, i: Input): Landing {
    match i
    case ClientFrame(_, f) =>
      if !f.Request? then Nowhere
      else if f.verb == SessionLoad && SessionOf(f).Some? then OnLoaded(SessionOf(f).value)
      else if f.verb == SessionReplay then OnReplayed
      else
        var answer := Handshaking.Answer(s.recording, f.verb);
        if f.verb == SessionNew && answer.Some? && answer.value.created.Some?
        then OnMade(answer.value.created.value, Awaiting(p, f).awaiting[f.id], false) else Nowhere
    case AgentFrame(f, _) =>
      var w := Answering(s, p, f);
      if w.None? || !Takes(p, w.value, f.payload) then Nowhere
      else if f.payload.Error? then BackOn(w.value)
      else if w.value.verb == SessionNew || w.value.verb == SessionFork
          then OnMade(f.payload.body.created.value, w.value, true)
      else Nowhere
    case _ => Nowhere
  }

  // What is asked again is on the thread the page has by then: the one stored for
  // the session it names or, if there is none, the one it has, which then has to
  // be blank.
  predicate ReplayAdmits(s: State, p: Page, f: Frame) {
    var asked := RelayReload.AllShown(s.unanswered);
    if TypedSession(f).None? then AllOnScreen(p.thread, asked)
    else if TypedSession(f).value in s.store.threads then
      AllOnScreen(ReplayLaws.Viewed(s.store.threads[TypedSession(f).value]), asked)
    else BlankPage(p.thread) && AllOnScreen(p.thread, asked)
  }

  // What is stored for a session just made is what the page starts it with, but
  // for what the answer states; the server does not state again what it recorded.
  ghost predicate MadeAdmits(s: State, landing: Landing, p: Page)
    requires landing.OnMade?
  {
    var made, t := landing.made, Stored(s, landing.made.sessionId);
    && MeetsAt(t, Ground(p, landing.waiting), made.modes, made.options)
    && (!landing.known ==> Unmoved(t, SessionStated(made.modes, made.options)))
  }

  // The step leaves the page showing what is stored for its session, or between
  // two conversations.
  ghost predicate Admitted(s: State, p: Page, i: Input) {
    Watch(s, p, i).moving ||
    match LandingOf(s, p, i)
    case Nowhere => p.session.Some? && Agrees(Stored(s, p.session.value), Told(s, i, p.session.value), SaysIn(s, p, i))
    case OnLoaded(session) => Told(s, i, session) == StartsOver || Blank(Stored(s, session))
    case OnReplayed => i.ClientFrame? && ReplayAdmits(s, p, i.frame)
    case OnMade(_, _, _) => MadeAdmits(s, LandingOf(s, p, i), p)
    case BackOn(w) => w.session.Some? && ThreadsAlike(Stored(s, w.session.value), w.thread)
  }

  // ----- A step that leaves the page where it is -----

  // The page is as it was, with this folded.
  predicate Remains(p: Page, p': Page, said: Option<Event>) {
    p'.session == p.session && p'.moving == p.moving && p'.thread == Folded(p.thread, said)
  }

  lemma SentRemains(p: Page, f: Frame)
    requires !(f.Request? && f.verb == SessionLoad && SessionOf(f).Some?) && !(f.Request? && f.verb == SessionReplay)
    ensures Remains(p, Sent(p, f), SaysSending(f))
  {
  }

  lemma HeardRemains(p: Page, line: Line)
    requires !line.Replayed?
    requires line.Wire? && line.frame.Response? && line.frame.id in p.awaiting ==>
               !Takes(p, p.awaiting[line.frame.id], line.frame.payload)
    ensures Remains(p, Heard(p, line), Says(p, line))
  {
  }

  // Answered here, a request other than a load, a replay or a session's making
  // leaves the page alone.
  lemma StoppedRemains(s: State, p: Page, generation: nat, f: Frame)
    requires RelayIsolation.NoAnswers(s.unanswered) && f.Request? && !Relays(s, f)
    requires LandingOf(s, p, ClientFrame(generation, f)) == Nowhere
    ensures Remains(p, Watch(s, p, ClientFrame(generation, f)), None)
  {
    var q := Sent(p, f);
    WatchClient(s, p, generation, f);
    SentRemains(p, f);
    HeardRemains(q, if IsExtension(f.verb) then ExtensionReply(s.store, f)
                    else Wire(Response(f.id, Result(Handshaking.Answer(s.recording, f.verb).value))));
  }

  lemma ClientRemains(s: State, p: Page, generation: nat, f: Frame)
    requires RelayIsolation.NoAnswers(s.unanswered) && LandingOf(s, p, ClientFrame(generation, f)) == Nowhere
    ensures Remains(p, Watch(s, p, ClientFrame(generation, f)), SaysSending(f))
  {
    if f.Request? && !Relays(s, f) {
      StoppedRemains(s, p, generation, f);
    } else {
      WatchClient(s, p, generation, f);
      SentRemains(p, f);
    }
  }

  lemma AgentRemains(s: State, p: Page, f: Frame, order: seq<string>)
    requires LandingOf(s, p, AgentFrame(f, order)) == Nowhere
    ensures Watch(s, p, AgentFrame(f, order)).moving
            || Remains(p, Watch(s, p, AgentFrame(f, order)), SaysIn(s, p, AgentFrame(f, order)))
  {
    WatchAgent(s, p, f, order);
    if !Intercepts(s.servers, f) && Forwarded(s, f) != [] {
      var line := Forwarded(s, f)[0];
      if Answering(s, p, f).Some? && Takes(p, Answering(s, p, f).value, f.payload) {
        assert Heard(p, line).moving;
      } else {
        HeardRemains(p, line);
      }
    }
  }

  // ----- What is said and what is told go together -----

  lemma ClientPaired(s: State, p: Page, generation: nat, f: Frame, session: string)
    requires LandingOf(s, p, ClientFrame(generation, f)) == Nowhere
    ensures Paired(Told(s, ClientFrame(generation, f), session), SaysSending(f))
  {
    if Relays(s, f) {
      RelayedParts(s, f);
      Offering.MergedLeavesTheRest(Rebound(s.bridge, f), s.servers, TransportsOf(s.recording));
    }
  }

  lemma RequestPaired(f: Frame, session: string)
    requires f.Request?
    ensures Paired(ToldByRequest(f, session), ShownBy(f))
  {
  }

  lemma NoticePaired(s: State, p: Page, f: Frame, order: seq<string>)
    requires f.Notification? && p.session.Some?
    ensures Paired(ToldByNotification(s.store, f, order, p.session.value), NoticedBy(p, f))
  {
  }

  // An answer to a request of the page's own.
  lemma OwnAnswerPaired(s: State, p: Page, f: Frame, order: seq<string>, session: string)
    requires Consistent(s) && Tied(s, p) && MakingKnown(s) && Answering(s, p, f).Some?
    requires LandingOf(s, p, AgentFrame(f, order)) == Nowhere && !Takes(p, Answering(s, p, f).value, f.payload)
    ensures Paired(ToldByAgent(s.store, f, order, session), AnsweredBy(Answering(s, p, f).value, f.payload))
  {
    assert f.id in s.bridge.outstanding && s.methods.fromClient[f.id] == Answering(s, p, f).value.verb;
    AtMostOneTable(s.store.tables, s.methods.fromClient, f.id);
  }

  // An answer to one of a page that has gone.
  lemma LeftAnswerPaired(s: State, f: Frame, order: seq<string>, session: string)
    requires Consistent(s) && f.Response? && Lookup(s.bridge, f.id).None?
    ensures Paired(ToldByAgent(s.store, f, order, session),
                   if EndsTurn(s, f).Some? then Some(TurnUnread(ShownReason(Some(StopText(f.payload))))) else None)
  {
  }

  lemma InterceptedUntold(s: State, f: Frame, order: seq<string>, session: string)
    requires Consistent(s) && Intercepts(s.servers, f)
    ensures ToldByAgent(s.store, f, order, session) == Nothing
  {
  }

  lemma AgentPaired(s: State, p: Page, f: Frame, order: seq<string>)
    requires Watching(s, p) && p.session.Some? && LandingOf(s, p, AgentFrame(f, order)) == Nowhere
    requires !Watch(s, p, AgentFrame(f, order)).moving
    ensures Paired(Told(s, AgentFrame(f, order), p.session.value), SaysIn(s, p, AgentFrame(f, order)))
  {
    if Intercepts(s.servers, f) {
      InterceptedUntold(s, f, order, p.session.value);
    } else {
      match f
      case Request(_, _, _) => RequestPaired(f, p.session.value);
      case Notification(_, _) => NoticePaired(s, p, f, order);
      case Response(_, _) => AnswerPaired(s, p, f, order);
    }
  }

  lemma AnswerPaired(s: State, p: Page, f: Frame, order: seq<string>)
    requires Watching(s, p) && p.session.Some? && LandingOf(s, p, AgentFrame(f, order)) == Nowhere
    requires f.Response? && !Intercepts(s.servers, f) && !Watch(s, p, AgentFrame(f, order)).moving
    ensures Paired(ToldByAgent(s.store, f, order, p.session.value), SaysIn(s, p, AgentFrame(f, order)))
  {
    if Lookup(s.bridge, f.id).Some? {
      WatchAgent(s, p, f, order);
      OwnAnswerPaired(s, p, f, order, p.session.value);
    } else {
      LeftAnswerPaired(s, f, order, p.session.value);
    }
  }

  ghost predicate Kept(s: State, p: Page) {
    p.moving || Shows(s, p)
  }

  lemma RemainingShows(s: State, p: Page, i: Input)
    requires Watching(s, p) && !p.moving && Shows(s, p)
    requires Remains(p, Watch(s, p, i), SaysIn(s, p, i)) && Paired(Told(s, i, p.session.value), SaysIn(s, p, i))
    ensures Shows(Step(s, i), Watch(s, p, i))
            <==> Agrees(Stored(s, p.session.value), Told(s, i, p.session.value), SaysIn(s, p, i))
  {
    StepFollows(s, i, p.session.value);
    AgreeAlike(s.store.threads, Step(s, i).store.threads, p.session.value, p.thread,
               Told(s, i, p.session.value), SaysIn(s, p, i));
  }

  lemma QuietRemains(s: State, p: Page, i: Input)
    requires Stays(s, i) && !i.ClientFrame? && !i.AgentFrame?
    ensures Watch(s, p, i) == p && Told(s, i, OrElse(p.session, "")) == Nothing
  {
    match i
    case AgentText(text) => HeardOne(p, Raw(text));
    case Mirror(text) => HeardOne(p, Notify(Mirrored(text)));
    case _ =>
  }

  lemma StaysShowing(s: State, p: Page, i: Input)
    requires Watching(s, p) && Stays(s, i) && Kept(s, p) && LandingOf(s, p, i) == Nowhere && !Watch(s, p, i).moving
    ensures Shows(Step(s, i), Watch(s, p, i)) <==> Admitted(s, p, i)
  {
    match i
    case ClientFrame(generation, f) =>
      ClientRemains(s, p, generation, f);
      ClientPaired(s, p, generation, f, p.session.value);
      RemainingShows(s, p, i);
    case AgentFrame(f, order) =>
      AgentRemains(s, p, f, order);
      AgentPaired(s, p, f, order);
      RemainingShows(s, p, i);
    case _ =>
      QuietRemains(s, p, i);
      RemainingShows(s, p, i);
  }

  // ----- A step that takes it somewhere -----

  lemma LoadLands(s: State, p: Page, generation: nat, f: Frame)
    requires Watching(s, p) && f.Request? && f.verb == SessionLoad && SessionOf(f).Some?
    ensures var i := ClientFrame(generation, f); Shows(Step(s, i), Watch(s, p, i)) <==> Admitted(s, p, i)
  {
    var i, session := ClientFrame(generation, f), SessionOf(f).value;
    LoadTakes(s, p, generation, f);
    StepFollows(s, i, session);
    BlankAlike(Stored(s, session), B.EMPTY);
    BlankAlike(S.EMPTY, B.EMPTY);
  }

  lemma LoadTakes(s: State, p: Page, generation: nat, f: Frame)
    requires RelayIsolation.NoAnswers(s.unanswered) && f.Request? && f.verb == SessionLoad && SessionOf(f).Some?
    ensures var p', session := Watch(s, p, ClientFrame(generation, f)), SessionOf(f).value;
            && p'.session == Some(session) && p'.thread == B.EMPTY && !p'.moving
            && (Told(s, ClientFrame(generation, f), session) == StartsOver
                || Told(s, ClientFrame(generation, f), session) == Nothing)
  {
    WatchClient(s, p, generation, f);
    RelayedParts(s, f);
  }

  lemma RecordedTakes(s: State, p: Page, generation: nat, f: Frame)
    requires RelayIsolation.NoAnswers(s.unanswered) && LandingOf(s, p, ClientFrame(generation, f)).OnMade?
    ensures var i, p' := ClientFrame(generation, f), Watch(s, p, ClientFrame(generation, f));
            var made, w := LandingOf(s, p, i).made, LandingOf(s, p, i).waiting;
            p'.session == Some(made.sessionId)
                && p'.thread == B.Step(Ground(p, w), SessionStated(made.modes, made.options))
    ensures !Relays(s, f) && !LandingOf(s, p, ClientFrame(generation, f)).known
  {
    WatchClient(s, p, generation, f);
  }

  lemma MadeFromRecording(s: State, p: Page, generation: nat, f: Frame)
    requires Watching(s, p) && LandingOf(s, p, ClientFrame(generation, f)).OnMade?
    ensures var i := ClientFrame(generation, f);
            Watch(s, p, i).moving || (Shows(Step(s, i), Watch(s, p, i)) <==> MadeAdmits(s, LandingOf(s, p, i), p))
  {
    var landing := LandingOf(s, p, ClientFrame(generation, f));
    RecordedTakes(s, p, generation, f);
    StoppedParts(s, f);
    MeetAlike(Stored(s, landing.made.sessionId), Ground(p, landing.waiting), landing.made.modes, landing.made.options);
  }

  // The answer to a request of its own that takes the page somewhere.
  lemma AnswerTakes(s: State, p: Page, f: Frame, order: seq<string>)
    requires Answering(s, p, f).Some? && Takes(p, Answering(s, p, f).value, f.payload)
    ensures var w, p' := Answering(s, p, f).value, Watch(s, p, AgentFrame(f, order));
            p' == Taken(p, w, f.payload).(awaiting := p'.awaiting, resumed := p'.resumed)
  {
    WatchAgent(s, p, f, order);
  }

  lemma MakingTold(s: State, p: Page, f: Frame, order: seq<string>)
    requires Watching(s, p) && LandingOf(s, p, AgentFrame(f, order)).OnMade?
    ensures var made := f.payload.body.created.value;
            ToldByAgent(s.store, f, order, made.sessionId) == Said(SessionStated(made.modes, made.options))
  {
    assert Creates(s.methods.fromClient[f.id]);
    AtMostOneTable(s.store.tables, s.methods.fromClient, f.id);
  }

  lemma MakingStates(s: State, p: Page, f: Frame, order: seq<string>)
    requires Watching(s, p) && LandingOf(s, p, AgentFrame(f, order)).OnMade?
    ensures var made := f.payload.body.created.value;
            Stored(Step(s, AgentFrame(f, order)), made.sessionId)
              == S.Step(Stored(s, made.sessionId), SessionStated(made.modes, made.options))
  {
    MakingTold(s, p, f, order);
    StepFollows(s, AgentFrame(f, order), f.payload.body.created.value.sessionId);
  }

  lemma MadeByAgent(s: State, p: Page, f: Frame, order: seq<string>)
    requires Watching(s, p) && LandingOf(s, p, AgentFrame(f, order)).OnMade?
    ensures var i := AgentFrame(f, order);
            Watch(s, p, i).moving || (Shows(Step(s, i), Watch(s, p, i)) <==> MadeAdmits(s, LandingOf(s, p, i), p))
  {
    var made, w := f.payload.body.created.value, Answering(s, p, f).value;
    AnswerTakes(s, p, f, order);
    MakingStates(s, p, f, order);
    MeetAlike(Stored(s, made.sessionId), Ground(p, w), made.modes, made.options);
  }

  lemma FailureUntold(s: State, p: Page, f: Frame, order: seq<string>, session: string)
    requires Watching(s, p) && LandingOf(s, p, AgentFrame(f, order)).BackOn?
    ensures ToldByAgent(s.store, f, order, session) == Nothing
  {
    assert s.methods.fromClient[f.id] == SessionLoad;
  }

  lemma BackLands(s: State, p: Page, f: Frame, order: seq<string>)
    requires Watching(s, p) && LandingOf(s, p, AgentFrame(f, order)).BackOn?
    ensures var i := AgentFrame(f, order);
            var w := Answering(s, p, f).value;
            Watch(s, p, i).moving ||
            (Shows(Step(s, i), Watch(s, p, i)) <==>
               w.session.Some? && ThreadsAlike(Stored(s, w.session.value), w.thread))
  {
    var w := Answering(s, p, f).value;
    AnswerTakes(s, p, f, order);
    if w.session.Some? {
      FailureKeeps(s, p, f, order, w.session.value);
    }
  }

  lemma FailureKeeps(s: State, p: Page, f: Frame, order: seq<string>, session: string)
    requires Watching(s, p) && LandingOf(s, p, AgentFrame(f, order)).BackOn?
    ensures Stored(Step(s, AgentFrame(f, order)), session) == Stored(s, session)
  {
    FailureUntold(s, p, f, order, session);
    StepFollows(s, AgentFrame(f, order), session);
  }

  lemma ListAlike(t: S.ThreadState, b: B.ThreadState, asked: seq<Event>)
    requires ThreadsAlike(t, b) && AllAsked(asked) && !Reuses(asked)
    ensures ThreadsAlike(t, B.Run(b, asked)) <==> AllOnScreen(b, asked)
  {
    AlikeMeansErasedEqual(t, b);
    AlikeMeansErasedEqual(t, B.Run(b, asked));
    AllAskedAgain(b, asked);
  }

  // Asking touches nothing but entries, and takes none away.
  lemma {:induction false} AskedKeepRest(b: B.ThreadState, asked: seq<Event>)
    requires AllAsked(asked)
    ensures B.Run(b, asked) == b.(entries := B.Run(b, asked).entries) && |b.entries| <= |B.Run(b, asked).entries|
  {
    if asked != [] {
      var front, e := asked[..|asked| - 1], asked[|asked| - 1];
      assert IsAsked(e) && AllAsked(front) by {
        assert e in asked && forall x | x in front :: x in asked;
      }
      AskedKeepRest(b, front);
      BrowserStepShape(B.Run(b, front), e);
    }
  }

  lemma ListOnNothing(b: B.ThreadState, asked: seq<Event>)
    requires AllAsked(asked) && !Reuses(asked)
    ensures ThreadsAlike(S.EMPTY, B.Run(b, asked)) <==> BlankPage(b) && AllOnScreen(b, asked)
  {
    AskedKeepRest(b, asked);
    BlankAlike(S.EMPTY, b);
    BlankAlike(S.EMPTY, B.Run(b, asked));
    if BlankPage(b) {
      ListAlike(S.EMPTY, b, asked);
    }
  }

  lemma ViewedAlike(t: S.ThreadState)
    ensures ThreadsAlike(t, ReplayLaws.Viewed(t))
    ensures Replay.ThreadFromReplay(Replay.Serialised(t)) == Some(ReplayLaws.Viewed(t))
  {
    AlikeMeansErasedEqual(t, ReplayLaws.Viewed(t));
    ReplayLaws.ReplayReads(t);
  }

  // What the answer to the replay leaves on screen, before anything is asked again.
  lemma ReplayLeaves(s: State, p: Page, f: Frame)
    requires f.Request? && f.verb == SessionReplay
    ensures var q := Heard(Sent(p, f), ExtensionReply(s.store, f));
            match TypedSession(f)
            case None => q.session == p.session && q.thread == p.thread && q.moving == p.moving
            case Some(session) =>
              && q.session == Some(session)
              && q.thread == if session in s.store.threads then ReplayLaws.Viewed(s.store.threads[session])
                  else p.thread
  {
    if TypedSession(f).Some? && TypedSession(f).value in s.store.threads {
      ViewedAlike(s.store.threads[TypedSession(f).value]);
    }
  }

  lemma ReplayLands(s: State, p: Page, generation: nat, f: Frame)
    requires Watching(s, p) && Kept(s, p) && f.Request? && f.verb == SessionReplay && RelayReload.IdsApart(s.unanswered)
    ensures var i := ClientFrame(generation, f);
            Watch(s, p, i).moving || (Shows(Step(s, i), Watch(s, p, i)) <==> ReplayAdmits(s, p, f))
  {
    var asked := RelayReload.AllShown(s.unanswered);
    WatchClient(s, p, generation, f);
    StoppedParts(s, f);
    ReplayLeaves(s, p, f);
    RelayReload.ApartAsksApart(s.unanswered);
    match TypedSession(f)
    case None =>
      if !p.moving {
        ListAlike(Stored(s, p.session.value), p.thread, asked);
      }
    case Some(session) =>
      if session in s.store.threads {
        ViewedAlike(s.store.threads[session]);
        ListAlike(s.store.threads[session], ReplayLaws.Viewed(s.store.threads[session]), asked);
      } else {
        ListOnNothing(p.thread, asked);
      }
  }

  lemma MadeLands(s: State, p: Page, i: Input)
    requires Watching(s, p) && LandingOf(s, p, i).OnMade? && !Watch(s, p, i).moving
    ensures Shows(Step(s, i), Watch(s, p, i)) <==> MadeAdmits(s, LandingOf(s, p, i), p)
  {
    if i.ClientFrame? {
      MadeFromRecording(s, p, i.generation, i.frame);
    } else {
      MadeByAgent(s, p, i.frame, i.order);
    }
  }

  lemma LandsShowing(s: State, p: Page, i: Input)
    requires Watching(s, p) && Kept(s, p) && RelayReload.IdsApart(s.unanswered)
    requires LandingOf(s, p, i) != Nowhere && !Watch(s, p, i).moving
    ensures Shows(Step(s, i), Watch(s, p, i)) <==> Admitted(s, p, i)
  {
    match LandingOf(s, p, i)
    case OnLoaded(_) => LoadLands(s, p, i.generation, i.frame);
    case OnReplayed => ReplayLands(s, p, i.generation, i.frame);
    case OnMade(_, _, _) => MadeLands(s, p, i);
    case BackOn(_) => BackLands(s, p, i.frame, i.order);
  }

  // A page that shows what is stored, or is between two conversations, still is
  // so after a step if and only if the step is admitted.
  lemma StepShows(s: State, p: Page, i: Input)
    requires Watching(s, p) && Kept(s, p) && Stays(s, i) && RelayReload.IdsApart(s.unanswered)
    ensures Kept(Step(s, i), Watch(s, p, i)) <==> Admitted(s, p, i)
  {
    if !Watch(s, p, i).moving {
      if LandingOf(s, p, i) == Nowhere {
        StaysShowing(s, p, i);
      } else {
        LandsShowing(s, p, i);
      }
    }
  }

  // ===== A whole attachment =====

  // The inputs of an attachment: its own socket's frames, under ids it awaits no
  // answer to, and anything else that does not end it.
  predicate Attachment(s: State, p: Page, inputs: seq<Input>) {
    inputs == [] ||
    var front, last := inputs[..|inputs| - 1], inputs[|inputs| - 1];
    Attachment(s, p, front) && Stays(Run(s, front), last) && Counts(Watched(s, p, front), last)
  }

  ghost predicate AllAdmitted(s: State, p: Page, inputs: seq<Input>) {
    inputs == [] ||
    var front, last := inputs[..|inputs| - 1], inputs[|inputs| - 1];
    AllAdmitted(s, p, front) && Admitted(Run(s, front), Watched(s, p, front), last)
  }

  lemma {:induction false} StaysWatching(s: State, p: Page, inputs: seq<Input>)
    requires Watching(s, p) && Attachment(s, p, inputs)
    ensures Watching(Run(s, inputs), Watched(s, p, inputs))
  {
    if inputs != [] {
      var front, last := inputs[..|inputs| - 1], inputs[|inputs| - 1];
      StaysWatching(s, p, front);
      StepWatching(Run(s, front), Watched(s, p, front), last);
    }
  }

  lemma {:induction false} StaysApart(s: State, inputs: seq<Input>)
    requires Considerate(s, inputs) && RelayReload.IdsApart(s.unanswered)
    ensures RelayReload.IdsApart(Run(s, inputs).unanswered)
  {
    if inputs != [] {
      StaysApart(s, inputs[..|inputs| - 1]);
      RelayReload.StepApart(Run(s, inputs[..|inputs| - 1]), inputs[|inputs| - 1]);
    }
  }

  // A page just attached has no conversation yet.
  lemma FirstWatching(servers: seq<Offering.Server>, before: seq<Input>)
    ensures Watching(WithAttach(Run(Initially(servers), before)), OPENED)
  {
    AlwaysConsistent(servers, before);
    StepConsistent(Run(Initially(servers), before), Attach);
    RelayIsolation.RunKeepsQuestions(Initially(servers), before);
    AlwaysSoundThreads(servers, before);
  }

  lemma {:induction false} AlwaysSoundThreads(servers: seq<Offering.Server>, inputs: seq<Input>)
    ensures ThreadsSound(Run(Initially(servers), inputs).store.threads) && MakingKnown(Run(Initially(servers), inputs))
  {
    if inputs != [] {
      var front, last := inputs[..|inputs| - 1], inputs[|inputs| - 1];
      AlwaysSoundThreads(servers, front);
      AlwaysConsistent(servers, front);
      StepSound(Run(Initially(servers), front), last);
      match last
      case ClientFrame(_, f) => ClientMaking(Run(Initially(servers), front), f);
      case AgentFrame(f, order) => AgentMaking(Run(Initially(servers), front), f, order);
      case _ =>
    }
  }

  // An attachment so far, and what is asked of the agent in it.
  ghost predicate Course(s: State, p: Page, inputs: seq<Input>) {
    && Watching(s, p) && Kept(s, p) && RelayReload.IdsApart(s.unanswered)
    && Attachment(s, p, inputs) && Considerate(s, inputs)
  }

  ghost predicate KeptAfter(s: State, p: Page, inputs: seq<Input>) {
    Kept(Run(s, inputs), Watched(s, p, inputs))
  }

  lemma LastKeeps(s: State, p: Page, inputs: seq<Input>)
    requires inputs != [] && Course(s, p, inputs) && KeptAfter(s, p, inputs[..|inputs| - 1])
    ensures var front, last := inputs[..|inputs| - 1], inputs[|inputs| - 1];
            KeptAfter(s, p, inputs) <==> Admitted(Run(s, front), Watched(s, p, front), last)
  {
    var front, last := inputs[..|inputs| - 1], inputs[|inputs| - 1];
    StaysWatching(s, p, front);
    StaysApart(s, front);
    StepShows(Run(s, front), Watched(s, p, front), last);
  }

  lemma {:induction false} AdmittedKeeps(s: State, p: Page, inputs: seq<Input>)
    requires Course(s, p, inputs) && AllAdmitted(s, p, inputs)
    ensures KeptAfter(s, p, inputs)
  {
    if inputs != [] {
      AdmittedKeeps(s, p, inputs[..|inputs| - 1]);
      LastKeeps(s, p, inputs);
    }
  }

  lemma {:induction false} FirstNotKept(s: State, p: Page, inputs: seq<Input>) returns (k: nat)
    requires Course(s, p, inputs) && !AllAdmitted(s, p, inputs)
    ensures k <= |inputs| && !KeptAfter(s, p, inputs[..k])
  {
    var front := inputs[..|inputs| - 1];
    if AllAdmitted(s, p, front) {
      k := |inputs|;
      AdmittedKeeps(s, p, front);
      LastKeeps(s, p, inputs);
      assert inputs[..k] == inputs;
    } else {
      k := FirstNotKept(s, p, front);
      assert front[..k] == inputs[..k];
    }
  }

  lemma {:induction false} CourseSoFar(s: State, p: Page, inputs: seq<Input>, k: nat)
    requires Course(s, p, inputs) && AllAdmitted(s, p, inputs) && k <= |inputs|
    ensures Course(s, p, inputs[..k]) && AllAdmitted(s, p, inputs[..k])
    decreases |inputs|
  {
    if k < |inputs| {
      CourseSoFar(s, p, inputs[..|inputs| - 1], k);
      assert inputs[..|inputs| - 1][..k] == inputs[..k];
    } else {
      assert inputs[..k] == inputs;
    }
  }

  lemma KeptThroughout(s: State, p: Page, inputs: seq<Input>)
    requires Course(s, p, inputs)
    ensures (forall k | 0 <= k <= |inputs| :: KeptAfter(s, p, inputs[..k])) <==> AllAdmitted(s, p, inputs)
  {
    if AllAdmitted(s, p, inputs) {
      forall k | 0 <= k <= |inputs|
        ensures KeptAfter(s, p, inputs[..k])
      {
        CourseSoFar(s, p, inputs, k);
        AdmittedKeeps(s, p, inputs[..k]);
      }
    } else {
      var k := FirstNotKept(s, p, inputs);
    }
  }

  // Whatever went before it and whatever happens while it stays, a page shows at
  // every moment what is stored for its session, or is between two conversations,
  // if and only if each step was admitted.
  lemma PageShowsWhatIsStored(servers: seq<Offering.Server>, before: seq<Input>, inputs: seq<Input>)
    requires Considerate(Initially(servers), before)
    requires var s := WithAttach(Run(Initially(servers), before));
             Attachment(s, OPENED, inputs) && Considerate(s, inputs)
    ensures var s := WithAttach(Run(Initially(servers), before));
            (forall k | 0 <= k <= |inputs| :: KeptAfter(s, OPENED, inputs[..k])) <==> AllAdmitted(s, OPENED, inputs)
  {
    FirstWatching(servers, before);
    RelayReload.AlwaysApart(servers, before);
    KeptThroughout(WithAttach(Run(Initially(servers), before)), OPENED, inputs);
  }

  // And what is stored is what a reload gives back.
  lemma ReloadGivesBack(s: State, p: Page)
    requires p.session.Some? && p.session.value in s.store.threads
    ensures var rebuilt := Replay.ThreadFromReplay(Replay.Serialised(s.store.threads[p.session.value]));
            rebuilt.Some? && (Erased(rebuilt.value) == Erased(p.thread) <==> Shows(s, p))
  {
    ViewedAlike(s.store.threads[p.session.value]);
    AlikeMeansErasedEqual(s.store.threads[p.session.value], p.thread);
  }
}
