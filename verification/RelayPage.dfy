// A page that stays attached: what its socket is given in each step, and what
// that makes of the conversation on its screen.

module RelayPages {
  import opened Wrappers
  import opened ThreadModel
  import opened Protocol
  import opened Bridging
  import opened Relay
  import opened RelayTables
  import opened Pages
  import Handshaking
  import Offering
  import RelayIsolation
  import RelayQuestions
  import RelayReload
  import RelayThreads
  import ReloadLaws
  import Sessions
  import Sinking
  import B = BrowserThread
  import S = ServerThread

  // ===== The lines of one step =====

  function Wires(frames: seq<Frame>): seq<Line> {
    seq(|frames|, i requires 0 <= i < |frames| => Wire(frames[i]))
  }

  function Introduced(verb: Method, resumed: bool): seq<Line> {
    if verb == Initialize then [Notify(AgentInfo(resumed))] else []
  }

  function ClientLines(s: State, f: Frame): seq<Line> {
    if !f.Request? || Relays(s, f) then []
    else if IsExtension(f.verb) then
      [ExtensionReply(s.store, f)] + if f.verb == SessionReplay then Wires(s.unanswered) else []
    else [Wire(Response(f.id, Result(Handshaking.Answer(s.recording, f.verb).value)))] + Introduced(f.verb, true)
  }

  // A frame from the agent as it goes out, if it does.
  function Forwarded(s: State, f: Frame): seq<Line> {
    if !f.Response? then [Wire(f)]
    else if Lookup(s.bridge, f.id).Some? then [Wire(Response(Lookup(s.bridge, f.id).value, f.payload))]
    else if EndsTurn(s, f).Some? then [Notify(TurnOver(EndsTurn(s, f).value, StopText(f.payload)))]
    else []
  }

  function AgentLines(s: State, f: Frame): seq<Line> {
    if Intercepts(s.servers, f) then [Notify(Inspected(true, f))]
    else Forwarded(s, f) + if f.Response? && Label(s.methods, f).Some?
        then Introduced(Label(s.methods, f).value, false) else []
  }

  function Lines(s: State, i: Input): seq<Line> {
    match i
    case ClientFrame(_, f) => ClientLines(s, f)
    case AgentFrame(f, _) => AgentLines(s, f)
    case AgentText(text) => [Raw(text)]
    case Mirror(text) => [Notify(Mirrored(text))]
    case _ => []
  }

  function Delivered(lines: seq<Line>, generation: nat): seq<Sinking.Delivery> {
    seq(|lines|, i requires 0 <= i < |lines| => Sinking.Delivery(lines[i], Some(generation)))
  }

  function Given(sink: Sinking.Sink, lines: seq<Line>): Sinking.Sink {
    sink.(log := sink.log + Delivered(lines, sink.generation))
  }

  lemma OneGiven(sink: Sinking.Sink, line: Line)
    requires RelayIsolation.Live(sink, sink.generation)
    ensures Sinking.Sent(sink, line) == Given(sink, [line])
  {
    assert Delivered([line], sink.generation) == [Sinking.Delivery(line, Some(sink.generation))];
  }

  lemma NoneGiven(sink: Sinking.Sink)
    ensures Given(sink, []) == sink
  {
    assert sink.log + Delivered([], sink.generation) == sink.log;
  }

  lemma MoreGiven(sink: Sinking.Sink, lines: seq<Line>, more: seq<Line>)
    ensures Given(Given(sink, lines), more) == Given(sink, lines + more)
  {
    assert Delivered(lines + more, sink.generation)
        == Delivered(lines, sink.generation) + Delivered(more, sink.generation);
  }

  lemma ListGiven(sink: Sinking.Sink, frames: seq<Frame>)
    requires RelayIsolation.Live(sink, sink.generation)
    ensures HandAll(sink, frames) == Given(sink, Wires(frames))
  {
    RelayQuestions.HandAllDelivers(sink, frames);
    assert Delivered(Wires(frames), sink.generation)
        == seq(|frames|, i requires 0 <= i < |frames| => Sinking.Delivery(Wire(frames[i]), Some(sink.generation)));
  }

  lemma ClientGives(s: State, f: Frame)
    requires RelayIsolation.Live(s.sink, s.sink.generation)
    ensures WithClientFrame(s, f).sink == Given(s.sink, ClientLines(s, f))
  {
    NoneGiven(s.sink);
    if Relays(s, f) {
      RelayedParts(s, f);
    } else if f.Request? && IsExtension(f.verb) {
      var reply := ExtensionReply(s.store, f);
      OneGiven(s.sink, reply);
      if f.verb == SessionReplay {
        ListGiven(Sinking.Sent(s.sink, reply), s.unanswered);
        MoreGiven(s.sink, [reply], Wires(s.unanswered));
      }
    } else if f.Request? {
      var answer := Wire(Response(f.id, Result(Handshaking.Answer(s.recording, f.verb).value)));
      OneGiven(s.sink, answer);
      OneGiven(Given(s.sink, [answer]), Notify(AgentInfo(true)));
      MoreGiven(s.sink, [answer], [Notify(AgentInfo(true))]);
    }
  }

  lemma ForwardGives(s: State, listed: State, f: Frame)
    requires listed.sink == s.sink && listed.bridge == s.bridge && RelayIsolation.Live(s.sink, s.sink.generation)
    ensures WithForwarded(listed, f, EndsTurn(s, f)).sink == Given(s.sink, Forwarded(s, f))
  {
    NoneGiven(s.sink);
    if Forwarded(s, f) != [] {
      OneGiven(s.sink, Forwarded(s, f)[0]);
    }
  }

  lemma AgentGives(s: State, f: Frame, order: seq<string>)
    requires RelayIsolation.Live(s.sink, s.sink.generation)
    ensures WithAgentFrame(s, f, order).sink == Given(s.sink, AgentLines(s, f))
  {
    var o := WithAgentObserved(s, f, order);
    ObservedParts(s, f, order);
    if Intercepts(s.servers, f) {
      OneGiven(s.sink, Notify(Inspected(true, f)));
    } else {
      var listed := if f.Request? then o.(unanswered := o.unanswered + [f]) else o;
      ForwardGives(s, listed, f);
      OneGiven(Given(s.sink, Forwarded(s, f)), Notify(AgentInfo(false)));
      MoreGiven(s.sink, Forwarded(s, f), [Notify(AgentInfo(false))]);
      assert Forwarded(s, f) + [] == Forwarded(s, f);
    }
  }

  // Until it ends, the attached socket is given exactly these lines.
  lemma StepGives(s: State, i: Input)
    requires RelayIsolation.Live(s.sink, s.sink.generation) && !RelayIsolation.Ends(i, s.sink.generation)
    ensures Step(s, i).sink == Given(s.sink, Lines(s, i))
  {
    NoneGiven(s.sink);
    match i
    case ClientFrame(_, f) => ClientGives(s, f);
    case AgentFrame(f, order) => AgentGives(s, f, order);
    case AgentText(text) => OneGiven(s.sink, Raw(text));
    case Mirror(text) => OneGiven(s.sink, Notify(Mirrored(text)));
    case _ =>
  }

  // ===== The page over a run =====

  function Watch(s: State, p: Page, i: Input): Page {
    HeardAll(if i.ClientFrame? then Sent(p, i.frame) else p, Lines(s, i))
  }

  function Watched(s: State, p: Page, inputs: seq<Input>): Page {
    if inputs == [] then p
    else Watch(Run(s, inputs[..|inputs| - 1]), Watched(s, p, inputs[..|inputs| - 1]), inputs[|inputs| - 1])
  }

  lemma HeardOne(p: Page, line: Line)
    ensures HeardAll(p, [line]) == Heard(p, line)
  {
    assert [line][..0] == [];
  }

  lemma {:induction false} HeardMore(p: Page, lines: seq<Line>, more: seq<Line>)
    ensures HeardAll(p, lines + more) == HeardAll(HeardAll(p, lines), more)
  {
    if more == [] {
      assert lines + more == lines;
    } else {
      var front, last := more[..|more| - 1], more[|more| - 1];
      HeardMore(p, lines, front);
      assert (lines + more)[..|lines + more| - 1] == lines + front;
    }
  }

  // The questions on the list, put one after another, are folded where the page is.
  lemma {:induction false} HeardList(p: Page, frames: seq<Frame>)
    requires RelayIsolation.NoAnswers(frames)
    ensures HeardAll(p, Wires(frames)) == p.(thread := B.Run(p.thread, RelayReload.AllShown(frames)))
  {
    if frames != [] {
      var front, last := frames[..|frames| - 1], frames[|frames| - 1];
      assert Wires(frames)[..|frames| - 1] == Wires(front);
      assert last in frames && RelayIsolation.NoAnswers(front);
      HeardList(p, front);
      HeardQuestion(HeardAll(p, Wires(front)), last);
      ShownMore(p.thread, front, last);
      assert frames == front + [last];
    }
  }

  lemma HeardQuestion(p: Page, f: Frame)
    requires f.Request?
    ensures Heard(p, Wire(f)) == p.(thread := if ShownBy(f).Some? then B.Step(p.thread, ShownBy(f).value) else p.thread)
  {
  }

  lemma ShownMore(b: B.ThreadState, front: seq<Frame>, last: Frame)
    ensures B.Run(b, RelayReload.AllShown(front + [last])) ==
            var b' := B.Run(b, RelayReload.AllShown(front));
            if ShownBy(last).Some? then B.Step(b', ShownBy(last).value) else b'
  {
    var shown := RelayReload.AllShown(front);
    assert (front + [last])[..|front|] == front;
    if ShownBy(last).Some? {
      ReloadLaws.RunsStep(b, shown, ShownBy(last).value);
    } else {
      assert shown + [] == shown;
    }
  }

  lemma Introduction(p: Page, verb: Method, resumed: bool)
    ensures HeardAll(p, Introduced(verb, resumed)) == p.(resumed := HeardAll(p, Introduced(verb, resumed)).resumed)
  {
    HeardOne(p, Notify(AgentInfo(resumed)));
  }

  // What one step does to the page, line by line.
  lemma WatchClient(s: State, p: Page, generation: nat, f: Frame)
    requires RelayIsolation.NoAnswers(s.unanswered)
    ensures var q, p' := Sent(p, f), Watch(s, p, ClientFrame(generation, f));
            if !f.Request? || Relays(s, f) then p' == q
            else if IsExtension(f.verb) then
              var replied := Heard(q, ExtensionReply(s.store, f));
              p' == if f.verb == SessionReplay
                    then replied.(thread := B.Run(replied.thread, RelayReload.AllShown(s.unanswered))) else replied
            else
              p' == Heard(q, Wire(Response(f.id,
                  Result(Handshaking.Answer(s.recording, f.verb).value)))).(resumed := p'.resumed)
  {
    var q := Sent(p, f);
    if f.Request? && !Relays(s, f) {
      if IsExtension(f.verb) {
        HeardOne(q, ExtensionReply(s.store, f));
        if f.verb == SessionReplay {
          HeardMore(q, [ExtensionReply(s.store, f)], Wires(s.unanswered));
          HeardList(Heard(q, ExtensionReply(s.store, f)), s.unanswered);
        } else {
          assert [ExtensionReply(s.store, f)] + [] == [ExtensionReply(s.store, f)];
        }
      } else {
        var answer := Wire(Response(f.id, Result(Handshaking.Answer(s.recording, f.verb).value)));
        HeardOne(q, answer);
        HeardMore(q, [answer], Introduced(f.verb, true));
        Introduction(Heard(q, answer), f.verb, true);
      }
    }
  }

  lemma WatchAgent(s: State, p: Page, f: Frame, order: seq<string>)
    ensures var p' := Watch(s, p, AgentFrame(f, order));
            p' == (if Intercepts(s.servers, f) || Forwarded(s, f) == [] then p
                else Heard(p, Forwarded(s, f)[0])).(resumed := p'.resumed)
  {
    if Intercepts(s.servers, f) {
      HeardOne(p, Notify(Inspected(true, f)));
    } else {
      var out := Forwarded(s, f);
      if out != [] {
        HeardOne(p, out[0]);
        assert out == [out[0]];
      }
      if f.Response? && Label(s.methods, f).Some? {
        HeardMore(p, out, Introduced(Label(s.methods, f).value, false));
        Introduction(HeardAll(p, out), Label(s.methods, f).value, false);
      } else {
        assert AgentLines(s, f) == out;
      }
    }
  }

  // ===== What ties the page to the relay =====

  // Each request of its own the relay holds outstanding is one it awaits, under
  // the method it was sent with, and no two are the same.
  ghost predicate Tie(outstanding: map<RequestId, RequestId>, methods: map<RequestId, Method>,
                      awaiting: map<RequestId, Waiting>) {
    && (forall m | m in outstanding ::
          m in methods && outstanding[m] in awaiting && awaiting[outstanding[m]].verb == methods[m])
    && (forall m, n | m in outstanding && n in outstanding && m != n :: outstanding[m] != outstanding[n])
  }

  ghost predicate Tied(s: State, p: Page) {
    Tie(s.bridge.outstanding, s.methods.fromClient, p.awaiting)
  }

  lemma TieGrows(outstanding: map<RequestId, RequestId>, methods: map<RequestId, Method>,
                 awaiting: map<RequestId, Waiting>, m: RequestId, id: RequestId, w: Waiting)
    requires Tie(outstanding, methods, awaiting) && m !in methods && id !in awaiting
    ensures Tie(outstanding[m := id], methods[m := w.verb], awaiting[id := w])
  {
  }

  lemma TieShrinks(outstanding: map<RequestId, RequestId>, methods: map<RequestId, Method>,
                 awaiting: map<RequestId, Waiting>, m: RequestId)
    requires Tie(outstanding, methods, awaiting)
    ensures m in outstanding ==> Tie(outstanding - {m}, methods - {m}, awaiting - {outstanding[m]})
    ensures m !in outstanding ==> Tie(outstanding, methods - {m}, awaiting)
  {
  }

  // A request that makes a session is in the table for those until it is answered.
  ghost predicate MakingKnown(s: State) {
    forall m | m in s.methods.fromClient && Creates(s.methods.fromClient[m]) :: m in s.store.tables.creations
  }

  ghost predicate ThreadsSound(threads: map<string, S.ThreadState>) {
    forall x | x in threads :: ReloadLaws.OpenHoldNothing(threads[x].entries)
  }

  ghost predicate Watching(s: State, p: Page) {
    && Consistent(s) && Tied(s, p) && MakingKnown(s) && ThreadsSound(s.store.threads)
    && RelayIsolation.NoAnswers(s.unanswered) && RelayIsolation.Live(s.sink, s.sink.generation)
    && (p.session.None? ==> p.moving)
  }

  // A page numbers its own requests, and never one as another it still awaits.
  predicate Counts(p: Page, i: Input) {
    i.ClientFrame? && i.frame.Request? ==> i.frame.id !in p.awaiting
  }

  // It is the one being read, and nothing ends its attachment.
  predicate Stays(s: State, i: Input) {
    !RelayIsolation.Ends(i, s.sink.generation)
        && (i.ClientFrame? || i.ClientText? ==> i.generation == s.sink.generation)
  }

  lemma StepSound(s: State, i: Input)
    requires Consistent(s) && ThreadsSound(s.store.threads)
    ensures ThreadsSound(Step(s, i).store.threads)
  {
    var after := Step(s, i).store.threads;
    forall x | x in after
      ensures ReloadLaws.OpenHoldNothing(after[x].entries)
    {
      RelayThreads.StepFollows(s, i, x);
      var news := RelayThreads.Told(s, i, x);
      if news.Said? {
        ReloadLaws.StepKeepsOpen(Sessions.ThreadOf(s.store.threads, x), news.event);
      }
    }
  }

  lemma CreationsStay(store: Sessions.Store, f: Frame, order: seq<string>, m: RequestId)
    requires Unrepeated(store.tables.creations) && m in store.tables.creations && !(f.Response? && f.id == m)
    ensures m in Sessions.FromAgent(store, f, order).tables.creations
  {
    match f
    case Response(id, Result(body)) => RemovedFirstIs(store.tables.creations, id);
    case Response(id, Error(_, _)) => RemovedIs(store.tables.creations, id);
    case _ => AgentKeepsTables(store, f, order);
  }

  lemma AgentMaking(s: State, f: Frame, order: seq<string>)
    requires Consistent(s) && MakingKnown(s)
    ensures MakingKnown(WithAgentFrame(s, f, order))
  {
    AgentFrameParts(s, f, order);
    var s' := WithAgentFrame(s, f, order);
    assert s'.store.tables == Sessions.FromAgent(s.store, f, order).tables;
    forall m | m in s'.methods.fromClient && Creates(s'.methods.fromClient[m])
      ensures m in s'.store.tables.creations
    {
      CreationsStay(s.store, f, order, m);
    }
  }

  lemma ClientMaking(s: State, f: Frame)
    requires Consistent(s) && MakingKnown(s)
    ensures MakingKnown(WithClientFrame(s, f))
  {
    if Relays(s, f) {
      RelayedParts(s, f);
      if f.Request? {
        EntersMaking(s.store.tables, Presented(s, f));
      } else {
        AnswerKeepsTables(s.store, f);
      }
    } else {
      StoppedParts(s, f);
    }
  }

  lemma EntersMaking(t: Sessions.Tables, f: Frame)
    requires f.Request?
    ensures Sessions.Entered(t, f).creations == if Creates(f.verb) then t.creations + [f.id] else t.creations
  {
  }

  lemma SentAwaits(p: Page, f: Frame)
    ensures Sent(p, f).awaiting == if f.Request? then Awaiting(p, f).awaiting else p.awaiting
  {
  }

  // An answer is awaited no more; nothing else changes what is awaited.
  lemma HeardAwaits(p: Page, line: Line)
    ensures Heard(p, line).awaiting ==
            match RelayIsolation.AnswerId(line)
            case Some(id) => p.awaiting - {id}
            case None => p.awaiting
  {
  }

  lemma ClientTied(s: State, p: Page, generation: nat, f: Frame)
    requires Watching(s, p) && Counts(p, ClientFrame(generation, f))
    ensures Tied(WithClientFrame(s, f), Watch(s, p, ClientFrame(generation, f)))
  {
    var p' := Watch(s, p, ClientFrame(generation, f));
    SentAwaits(p, f);
    if Relays(s, f) {
      WatchClient(s, p, generation, f);
      RelayedParts(s, f);
      if f.Request? {
        assert Minted(s.bridge) !in s.methods.fromClient;
        TieGrows(s.bridge.outstanding, s.methods.fromClient, p.awaiting, Minted(s.bridge), f.id, p'.awaiting[f.id]);
      }
    } else {
      StoppedParts(s, f);
      StoppedAwaits(s, p, generation, f);
    }
  }

  // A request answered here is awaited no longer than the step.
  lemma StoppedAwaits(s: State, p: Page, generation: nat, f: Frame)
    requires !Relays(s, f) && RelayIsolation.NoAnswers(s.unanswered) && Counts(p, ClientFrame(generation, f))
    ensures Watch(s, p, ClientFrame(generation, f)).awaiting == p.awaiting
  {
    WatchClient(s, p, generation, f);
    SentAwaits(p, f);
    if f.Request? {
      HeardAwaits(Sent(p, f), if IsExtension(f.verb) then ExtensionReply(s.store, f)
                              else Wire(Response(f.id, Result(Handshaking.Answer(s.recording, f.verb).value))));
      assert (p.awaiting[f.id := Awaiting(p, f).awaiting[f.id]]) - {f.id} == p.awaiting;
    }
  }

  lemma AgentTied(s: State, p: Page, f: Frame, order: seq<string>)
    requires Watching(s, p)
    ensures Tied(WithAgentFrame(s, f, order), Watch(s, p, AgentFrame(f, order)))
  {
    var p' := Watch(s, p, AgentFrame(f, order));
    AgentFrameParts(s, f, order);
    WatchAgent(s, p, f, order);
    if f.Response? {
      TieShrinks(s.bridge.outstanding, s.methods.fromClient, p.awaiting, f.id);
      AnswerAwaits(s, p, f);
    } else {
      HeardAwaits(p, Wire(f));
    }
  }

  lemma AnswerAwaits(s: State, p: Page, f: Frame)
    requires f.Response?
    ensures Intercepts(s.servers, f) ==> f.id.Name?
    ensures Forwarded(s, f) != [] ==>
              Heard(p, Forwarded(s, f)[0]).awaiting == if f.id in s.bridge.outstanding
                  then p.awaiting - {s.bridge.outstanding[f.id]}
                                                      else p.awaiting
    ensures Forwarded(s, f) == [] ==> f.id !in s.bridge.outstanding
  {
    if Forwarded(s, f) != [] {
      HeardAwaits(p, Forwarded(s, f)[0]);
    }
  }

  // A page that has found a session is not without one again.
  lemma HeardFinds(p: Page, line: Line)
    requires p.session.None? ==> p.moving
    ensures Heard(p, line).session.None? ==> Heard(p, line).moving
  {
  }

  lemma WatchFinds(s: State, p: Page, i: Input)
    requires RelayIsolation.NoAnswers(s.unanswered) && (p.session.None? ==> p.moving)
    ensures Watch(s, p, i).session.None? ==> Watch(s, p, i).moving
  {
    AllFind(if i.ClientFrame? then Sent(p, i.frame) else p, Lines(s, i));
  }

  lemma {:induction false} AllFind(p: Page, lines: seq<Line>)
    requires p.session.None? ==> p.moving
    ensures HeardAll(p, lines).session.None? ==> HeardAll(p, lines).moving
  {
    if lines != [] {
      AllFind(p, lines[..|lines| - 1]);
      HeardFinds(HeardAll(p, lines[..|lines| - 1]), lines[|lines| - 1]);
    }
  }

  lemma StepTied(s: State, p: Page, i: Input)
    requires Watching(s, p) && Stays(s, i) && Counts(p, i)
    ensures Tied(Step(s, i), Watch(s, p, i)) && MakingKnown(Step(s, i))
  {
    match i
    case ClientFrame(generation, f) =>
      ClientTied(s, p, generation, f);
      ClientMaking(s, f);
    case AgentFrame(f, order) =>
      AgentTied(s, p, f, order);
      AgentMaking(s, f, order);
    case AgentText(text) => HeardOne(p, Raw(text));
    case Mirror(text) => HeardOne(p, Notify(Mirrored(text)));
    case _ =>
  }

  lemma StepWatching(s: State, p: Page, i: Input)
    requires Watching(s, p) && Stays(s, i) && Counts(p, i)
    ensures Watching(Step(s, i), Watch(s, p, i))
  {
    StepConsistent(s, i);
    StepSound(s, i);
    StepGives(s, i);
    RelayIsolation.StepKeepsQuestions(s, i);
    StepTied(s, p, i);
    WatchFinds(s, p, i);
  }
}
