// Many browsers come and go on one agent: each is given the answers to its own
// requests and nothing meant for another, over every interleaving.

module RelayIsolation {
  import opened Wrappers
  import opened ThreadModel
  import opened Protocol
  import opened Bridging
  import opened Relay
  import opened RelayTables
  import Sinking
  import Handshaking
  import Offering
  import RelayQuestions

  // ----- The bridge along a run -----

  function BridgeAfter(s: State, i: Input): Bridge {
    match i
    case Attach => Bridge(s.bridge.next, map[])
    case ClientFrame(_, f) => if f.Request? && Relays(s, f) then WithRequest(s.bridge, f.id) else s.bridge
    case AgentFrame(f, _) => if f.Response? && !Intercepts(s.servers, f) then WithAnswer(s.bridge, f.id) else s.bridge
    case _ => s.bridge
  }

  lemma BridgeFollows(s: State, i: Input)
    ensures Step(s, i).bridge == BridgeAfter(s, i)
    ensures Step(s, i).sink.generation == s.sink.generation + if i == Attach then 1 else 0
    ensures Step(s, i).reader == match i
                                 case Attach => Some(s.sink.generation + 1)
                                 case Detach(g) => if s.reader == Some(g) then None else s.reader
                                 case _ => s.reader
  {
    match i
    case ClientFrame(_, f) =>
      if Relays(s, f) {
        RelayedParts(s, f);
      } else {
        StoppedParts(s, f);
      }
    case AgentFrame(f, order) => AgentFrameParts(s, f, order);
    case _ =>
  }

  // Step k of the run is the request for which `agent` was minted: it came from
  // the socket of that generation, under the browser's own id.
  ghost predicate MintedAt(servers: seq<Offering.Server>, inputs: seq<Input>, k: int, agent: RequestId,
                           generation: nat, browser: RequestId) {
    && 0 <= k < |inputs|
    && inputs[k].ClientFrame? && inputs[k].generation == generation
    && inputs[k].frame.Request? && inputs[k].frame.id == browser
    && Relays(Run(Initially(servers), inputs[..k]), inputs[k].frame)
    && agent == Minted(Run(Initially(servers), inputs[..k]).bridge)
  }

  ghost predicate Traced(servers: seq<Offering.Server>, inputs: seq<Input>, agent: RequestId, generation: nat,
                         browser: RequestId) {
    exists k :: MintedAt(servers, inputs, k, agent, generation, browser)
  }

  lemma TracedStays(servers: seq<Offering.Server>, front: seq<Input>, last: Input, agent: RequestId, generation: nat,
                    browser: RequestId)
    requires Traced(servers, front, agent, generation, browser)
    ensures Traced(servers, front + [last], agent, generation, browser)
  {
    var k :| MintedAt(servers, front, k, agent, generation, browser);
    assert (front + [last])[..k] == front[..k];
    assert MintedAt(servers, front + [last], k, agent, generation, browser);
  }

  lemma TracedNow(servers: seq<Offering.Server>, front: seq<Input>, generation: nat, f: Frame)
    requires f.Request? && Relays(Run(Initially(servers), front), f)
    ensures Traced(servers, front + [ClientFrame(generation, f)], Minted(Run(Initially(servers), front).bridge),
            generation, f.id)
  {
    var inputs := front + [ClientFrame(generation, f)];
    assert inputs[..|front|] == front;
    assert MintedAt(servers, inputs, |front|, Minted(Run(Initially(servers), front).bridge), generation, f.id);
  }

  // The socket being read is the one attached last, and everything it is still
  // owed was asked by it.
  ghost predicate OwedToReader(servers: seq<Offering.Server>, inputs: seq<Input>, s: State) {
    && (s.reader.Some? ==> s.reader.value == s.sink.generation)
    && forall agent | agent in s.bridge.outstanding ::
         Traced(servers, inputs, agent, s.sink.generation, s.bridge.outstanding[agent])
  }

  lemma StepTraces(servers: seq<Offering.Server>, front: seq<Input>, last: Input, s: State, agent: RequestId)
    requires s == Run(Initially(servers), front) && OwedToReader(servers, front, s) && FromReader(s, last)
    requires last != Attach && agent in BridgeAfter(s, last).outstanding
    ensures Traced(servers, front + [last], agent, s.sink.generation, BridgeAfter(s, last).outstanding[agent])
  {
    if last.ClientFrame? && last.frame.Request? && Relays(s, last.frame) && agent == Minted(s.bridge) {
      TracedNow(servers, front, last.generation, last.frame);
    } else {
      TracedStays(servers, front, last, agent, s.sink.generation, s.bridge.outstanding[agent]);
    }
  }

  lemma StepOwed(servers: seq<Offering.Server>, front: seq<Input>, last: Input, s: State)
    requires s == Run(Initially(servers), front) && OwedToReader(servers, front, s) && FromReader(s, last)
    ensures OwedToReader(servers, front + [last], Step(s, last))
  {
    BridgeFollows(s, last);
    if last != Attach {
      forall agent | agent in BridgeAfter(s, last).outstanding
        ensures Traced(servers, front + [last], agent, s.sink.generation, BridgeAfter(s, last).outstanding[agent])
      {
        StepTraces(servers, front, last, s, agent);
      }
    }
  }

  lemma {:induction false} AlwaysOwed(servers: seq<Offering.Server>, inputs: seq<Input>)
    requires Attended(Initially(servers), inputs)
    ensures OwedToReader(servers, inputs, Run(Initially(servers), inputs))
  {
    if inputs != [] {
      var front, last := inputs[..|inputs| - 1], inputs[|inputs| - 1];
      AlwaysOwed(servers, front);
      StepOwed(servers, front, last, Run(Initially(servers), front));
      assert inputs == front + [last];
    }
  }

  // ----- What one step hands over -----

  // The id a line answers, if it is an answer.
  function AnswerId(line: Line): Option<RequestId> {
    match line
    case Wire(Response(id, _)) => Some(id)
    case Replayed(id, _) => Some(id)
    case _ => None
  }

  // An answer is to the request just made, or to the one the agent's response is for.
  predicate Due(s: State, i: Input, line: Line) {
    || AnswerId(line).None?
    || (i.ClientFrame? && i.frame.Request? && AnswerId(line) == Some(i.frame.id))
    || (i.AgentFrame? && i.frame.Response? && AnswerId(line) == Lookup(s.bridge, i.frame.id))
  }

  predicate Proper(s: State, i: Input, d: Sinking.Delivery) {
    (d.to.None? || d.to == Some(s.sink.generation)) && Due(s, i, d.line)
  }

  // The sink's log only grew, by deliveries proper to this step.
  predicate Adds(s: State, i: Input, sink: Sinking.Sink) {
    && |s.sink.log| <= |sink.log| && sink.log[..|s.sink.log|] == s.sink.log
    && forall k | |s.sink.log| <= k < |sink.log| :: Proper(s, i, sink.log[k])
  }

  lemma SentAdds(s: State, i: Input, sink: Sinking.Sink, line: Line)
    requires Adds(s, i, sink) && sink.generation == s.sink.generation && Due(s, i, line)
    ensures Adds(s, i, Sinking.Sent(sink, line))
  {
  }

  predicate NoAnswers(frames: seq<Frame>) {
    forall f | f in frames :: f.Request?
  }

  lemma {:induction false} HandAllAdds(s: State, i: Input, sink: Sinking.Sink, frames: seq<Frame>)
    requires Adds(s, i, sink) && sink.generation == s.sink.generation && NoAnswers(frames)
    ensures Adds(s, i, HandAll(sink, frames))
  {
    if frames != [] {
      var front, last := frames[..|frames| - 1], frames[|frames| - 1];
      assert NoAnswers(front) && last in frames;
      HandAllAdds(s, i, sink, front);
      HandAllGeneration(sink, front);
      SentAdds(s, i, HandAll(sink, front), Wire(last));
    }
  }

  lemma ExtensionAdds(s: State, generation: nat, f: Frame)
    requires NoAnswers(s.unanswered) && f.Request? && IsExtension(f.verb)
    ensures Adds(s, ClientFrame(generation, f), WithExtension(s, f).sink)
  {
    var i, reply := ClientFrame(generation, f), ExtensionReply(s.store, f);
    SentAdds(s, i, s.sink, reply);
    HandAllAdds(s, i, Hand(s, reply).sink, s.unanswered);
  }

  lemma ClientFrameAdds(s: State, generation: nat, f: Frame)
    requires NoAnswers(s.unanswered)
    ensures Adds(s, ClientFrame(generation, f), WithClientFrame(s, f).sink)
  {
    var i := ClientFrame(generation, f);
    if Relays(s, f) {
      RelayedParts(s, f);
    } else if f.Request? && IsExtension(f.verb) {
      ExtensionAdds(s, generation, f);
    } else if f.Request? {
      var answer := Wire(Response(f.id, Result(Handshaking.Answer(s.recording, f.verb).value)));
      SentAdds(s, i, s.sink, answer);
      SentAdds(s, i, Sinking.Sent(s.sink, answer), Notify(AgentInfo(true)));
    }
  }

  lemma ForwardedAdds(s: State, listed: State, f: Frame, order: seq<string>, ends: Option<string>)
    requires listed.sink == s.sink && listed.bridge == s.bridge
    ensures Adds(s, AgentFrame(f, order), WithForwarded(listed, f, ends).sink)
  {
    var i := AgentFrame(f, order);
    if !f.Response? {
      SentAdds(s, i, s.sink, Wire(f));
    } else if Lookup(s.bridge, f.id).Some? {
      SentAdds(s, i, s.sink, Wire(Response(Lookup(s.bridge, f.id).value, f.payload)));
    } else if ends.Some? {
      SentAdds(s, i, s.sink, Notify(TurnOver(ends.value, StopText(f.payload))));
    }
  }

  lemma AgentFrameAdds(s: State, f: Frame, order: seq<string>)
    ensures Adds(s, AgentFrame(f, order), WithAgentFrame(s, f, order).sink)
  {
    var i, o := AgentFrame(f, order), WithAgentObserved(s, f, order);
    ObservedParts(s, f, order);
    if Intercepts(s.servers, f) {
      SentAdds(s, i, s.sink, Notify(Inspected(true, f)));
    } else {
      var listed := if f.Request? then o.(unanswered := o.unanswered + [f]) else o;
      ForwardedAdds(s, listed, f, order, EndsTurn(s, f));
      ForwardedParts(listed, f, EndsTurn(s, f));
      SentAdds(s, i, WithForwarded(listed, f, EndsTurn(s, f)).sink, Notify(AgentInfo(false)));
    }
  }

  lemma StepAdds(s: State, i: Input)
    requires NoAnswers(s.unanswered)
    ensures Adds(s, i, Step(s, i).sink)
  {
    match i
    case ClientFrame(generation, f) => ClientFrameAdds(s, generation, f);
    case AgentFrame(f, order) => AgentFrameAdds(s, f, order);
    case Attach => SentAdds(s, i, s.sink, Notify(TakenOver));
    case AgentText(text) => SentAdds(s, i, s.sink, Raw(text));
    case Mirror(text) => SentAdds(s, i, s.sink, Notify(Mirrored(text)));
    case _ =>
  }

  lemma WithoutIdKeepsQuestions(frames: seq<Frame>, id: RequestId)
    requires NoAnswers(frames)
    ensures NoAnswers(WithoutId(frames, id))
  {
    forall g | g in WithoutId(frames, id)
      ensures g.Request?
    {
      RelayQuestions.InWithoutId(frames, id, g);
    }
  }

  lemma WithoutSessionKeepsQuestions(frames: seq<Frame>, session: string)
    requires NoAnswers(frames)
    ensures NoAnswers(WithoutSession(frames, session))
  {
    forall g | g in WithoutSession(frames, session)
      ensures g.Request?
    {
      RelayQuestions.InWithoutSession(frames, session, g);
    }
  }

  lemma StepKeepsQuestions(s: State, i: Input)
    requires NoAnswers(s.unanswered)
    ensures NoAnswers(Step(s, i).unanswered)
  {
    match i
    case ClientFrame(_, f) =>
      if Relays(s, f) {
        RelayedParts(s, f);
        if f.Response? {
          WithoutIdKeepsQuestions(s.unanswered, f.id);
        }
      } else {
        StoppedParts(s, f);
      }
    case AgentFrame(f, order) =>
      AgentFrameParts(s, f, order);
      if EndsTurn(s, f).Some? {
        WithoutSessionKeepsQuestions(s.unanswered, EndsTurn(s, f).value);
      }
    case _ =>
  }

  lemma {:induction false} RunKeepsQuestions(s: State, inputs: seq<Input>)
    requires NoAnswers(s.unanswered)
    ensures NoAnswers(Run(s, inputs).unanswered)
  {
    if inputs != [] {
      RunKeepsQuestions(s, inputs[..|inputs| - 1]);
      StepKeepsQuestions(Run(s, inputs[..|inputs| - 1]), inputs[|inputs| - 1]);
    }
  }

  // ----- Isolation -----

  // Some step of the run is a request with this id from that socket.
  predicate AskedBy(inputs: seq<Input>, generation: nat, browser: RequestId) {
    exists k | 0 <= k < |inputs| ::
      inputs[k].ClientFrame? && inputs[k].generation == generation && inputs[k].frame.Request?
          && inputs[k].frame.id == browser
  }

  // An answer a socket took is to a request that same socket made.
  predicate Owed(inputs: seq<Input>, d: Sinking.Delivery) {
    AnswerId(d.line).Some? && d.to.Some? ==> AskedBy(inputs, d.to.value, AnswerId(d.line).value)
  }

  lemma AskedByStays(front: seq<Input>, last: Input, generation: nat, browser: RequestId)
    requires AskedBy(front, generation, browser)
    ensures AskedBy(front + [last], generation, browser)
  {
    var k :| 0 <= k < |front| && front[k].ClientFrame? && front[k].generation == generation
             && front[k].frame.Request? && front[k].frame.id == browser;
    assert (front + [last])[k] == front[k];
  }

  lemma AskedByLast(front: seq<Input>, last: Input)
    requires last.ClientFrame? && last.frame.Request?
    ensures AskedBy(front + [last], last.generation, last.frame.id)
  {
    assert (front + [last])[|front|] == last;
  }

  lemma TracedAsked(servers: seq<Offering.Server>, inputs: seq<Input>, agent: RequestId, generation: nat,
                    browser: RequestId)
    requires Traced(servers, inputs, agent, generation, browser)
    ensures AskedBy(inputs, generation, browser)
  {
    var k :| MintedAt(servers, inputs, k, agent, generation, browser);
    assert inputs[k].ClientFrame?;
  }

  lemma ProperIsOwed(servers: seq<Offering.Server>, front: seq<Input>, last: Input, s: State, d: Sinking.Delivery)
    requires OwedToReader(servers, front, s) && FromReader(s, last) && Proper(s, last, d)
    ensures Owed(front + [last], d)
  {
    if AnswerId(d.line).Some? && d.to.Some? {
      if last.ClientFrame? {
        AskedByLast(front, last);
      } else {
        var browser := Lookup(s.bridge, last.frame.id).value;
        TracedAsked(servers, front, last.frame.id, s.sink.generation, browser);
        AskedByStays(front, last, s.sink.generation, browser);
      }
    }
  }

  // Over any run, every answer a socket was given is owed to it: it sent a
  // request under that very id itself.
  lemma {:induction false} EveryAnswerIsOwed(servers: seq<Offering.Server>, inputs: seq<Input>)
    requires Attended(Initially(servers), inputs)
    ensures forall d | d in Run(Initially(servers), inputs).sink.log :: Owed(inputs, d)
  {
    if inputs != [] {
      var front, last := inputs[..|inputs| - 1], inputs[|inputs| - 1];
      var s := Run(Initially(servers), front);
      EveryAnswerIsOwed(servers, front);
      AlwaysOwed(servers, front);
      RunKeepsQuestions(Initially(servers), front);
      StepAdds(s, last);
      assert inputs == front + [last];
      LogStaysOwed(servers, front, last, s, Step(s, last).sink);
    }
  }

  lemma LogStaysOwed(servers: seq<Offering.Server>, front: seq<Input>, last: Input, s: State, sink: Sinking.Sink)
    requires OwedToReader(servers, front, s) && FromReader(s, last) && Adds(s, last, sink)
    requires forall d | d in s.sink.log :: Owed(front, d)
    ensures forall d | d in sink.log :: Owed(front + [last], d)
  {
    forall k | 0 <= k < |sink.log|
      ensures Owed(front + [last], sink.log[k])
    {
      var d := sink.log[k];
      if k < |s.sink.log| {
        assert d == s.sink.log[k];
        assert Owed(front, d);
        if AnswerId(d.line).Some? && d.to.Some? {
          AskedByStays(front, last, d.to.value, AnswerId(d.line).value);
        }
      } else {
        ProperIsOwed(servers, front, last, s, d);
      }
    }
  }

  // A response the agent sends is handed over in exactly one case, and then
  // under the id of the very request its own id was minted for.
  lemma ResponseReachesItsAsker(servers: seq<Offering.Server>, inputs: seq<Input>, agent: RequestId, p: Payload,
                                order: seq<string>)
    requires Attended(Initially(servers), inputs)
    ensures var s := Run(Initially(servers), inputs);
            var sink := Step(s, AgentFrame(Response(agent, p), order)).sink;
            match Lookup(s.bridge, agent)
            case Some(browser) =>
              && |sink.log| > |s.sink.log|
              && sink.log[|s.sink.log|] == Sinking.Delivery(Wire(Response(browser, p)), Sinking.Takes(s.sink))
              && Traced(servers, inputs, agent, s.sink.generation, browser)
            case None =>
              forall k | |s.sink.log| <= k < |sink.log| :: AnswerId(sink.log[k].line).None?
  {
    var s, f := Run(Initially(servers), inputs), Response(agent, p);
    AlwaysOwed(servers, inputs);
    AlwaysConsistent(servers, inputs);
    match Lookup(s.bridge, agent)
    case Some(_) => FirstLine(s, agent, p, order);
    case None => NothingDue(s, f, order);
  }

  lemma NothingDue(s: State, f: Frame, order: seq<string>)
    requires f.Response? && Lookup(s.bridge, f.id).None?
    ensures var log := Step(s, AgentFrame(f, order)).sink.log;
            forall k | |s.sink.log| <= k < |log| :: AnswerId(log[k].line).None?
  {
    var i := AgentFrame(f, order);
    AgentFrameAdds(s, f, order);
    var log := WithAgentFrame(s, f, order).sink.log;
    forall k | |s.sink.log| <= k < |log|
      ensures AnswerId(log[k].line).None?
    {
      assert Proper(s, i, log[k]);
    }
  }

  // ----- Attachments -----

  predicate GoesTo(d: Sinking.Delivery, generation: nat) {
    d.to.Some? ==> d.to.value >= generation
  }

  lemma {:induction false} LaterSocketsOnly(s: State, inputs: seq<Input>)
    requires NoAnswers(s.unanswered)
    ensures var sink := Run(s, inputs).sink;
            && sink.generation >= s.sink.generation
            && |sink.log| >= |s.sink.log| && sink.log[..|s.sink.log|] == s.sink.log
            && forall k | |s.sink.log| <= k < |sink.log| :: GoesTo(sink.log[k], s.sink.generation)
  {
    if inputs != [] {
      var front, last := inputs[..|inputs| - 1], inputs[|inputs| - 1];
      var s' := Run(s, front);
      LaterSocketsOnly(s, front);
      RunKeepsQuestions(s, front);
      StepAdds(s', last);
      BridgeFollows(s', last);
      LogStaysLater(s.sink, s', last, Step(s', last).sink);
    }
  }

  lemma LogStaysLater(start: Sinking.Sink, s: State, i: Input, sink: Sinking.Sink)
    requires s.sink.generation >= start.generation && |s.sink.log| >= |start.log|
    requires s.sink.log[..|start.log|] == start.log && Adds(s, i, sink)
    requires forall k | |start.log| <= k < |s.sink.log| :: GoesTo(s.sink.log[k], start.generation)
    ensures |sink.log| >= |start.log| && sink.log[..|start.log|] == start.log
    ensures forall k | |start.log| <= k < |sink.log| :: GoesTo(sink.log[k], start.generation)
  {
    assert sink.log[..|start.log|] == sink.log[..|s.sink.log|][..|start.log|];
    forall k | |start.log| <= k < |sink.log|
      ensures GoesTo(sink.log[k], start.generation)
    {
      if k < |s.sink.log| {
        assert sink.log[k] == sink.log[..|s.sink.log|][k];
      } else {
        assert Proper(s, i, sink.log[k]);
      }
    }
  }

  // What was handed over since goes to sockets of that generation or later.
  predicate SinceOnlyTo(start: Sinking.Sink, sink: Sinking.Sink, generation: nat) {
    |start.log| <= |sink.log| && forall k | |start.log| <= k < |sink.log| :: GoesTo(sink.log[k], generation)
  }

  lemma SuccessorsOnly(s: State, after: seq<Input>)
    requires NoAnswers(s.unanswered)
    ensures SinceOnlyTo(WithAttach(s).sink, Run(WithAttach(s), after).sink, s.sink.generation + 1)
  {
    LaterSocketsOnly(WithAttach(s), after);
  }

  // A displaced socket is given nothing once its successor is attached.
  lemma DisplacedGetsNothing(servers: seq<Offering.Server>, before: seq<Input>, after: seq<Input>)
    ensures var s := Run(Initially(servers), before);
            SinceOnlyTo(WithAttach(s).sink, Run(WithAttach(s), after).sink, s.sink.generation + 1)
  {
    RunKeepsQuestions(Initially(servers), before);
    SuccessorsOnly(Run(Initially(servers), before), after);
  }

  // Nothing here ends the attachment: not another attaching, not its own
  // detaching, not its writer ending. A predecessor's late detach may be there.
  predicate Ends(i: Input, generation: nat) {
    i == Attach || i == WriterEnds || i == Detach(generation)
  }

  predicate Undisplaced(inputs: seq<Input>, generation: nat) {
    forall i | i in inputs :: !Ends(i, generation)
  }

  predicate Live(sink: Sinking.Sink, generation: nat) {
    sink.sender && sink.open && sink.generation == generation
  }

  // Still attached, and everything handed over since was taken.
  predicate TookAll(start: Sinking.Sink, sink: Sinking.Sink, generation: nat) {
    && Live(sink, generation)
    && |start.log| <= |sink.log| && sink.log[..|start.log|] == start.log
    && forall k | |start.log| <= k < |sink.log| :: sink.log[k].to == Some(generation)
  }

  lemma SentTaken(start: Sinking.Sink, sink: Sinking.Sink, line: Line, generation: nat)
    requires TookAll(start, sink, generation)
    ensures TookAll(start, Sinking.Sent(sink, line), generation)
  {
  }

  lemma {:induction false} HandAllTaken(start: Sinking.Sink, sink: Sinking.Sink, frames: seq<Frame>, generation: nat)
    requires TookAll(start, sink, generation)
    ensures TookAll(start, HandAll(sink, frames), generation)
  {
    if frames != [] {
      var front := frames[..|frames| - 1];
      HandAllTaken(start, sink, front, generation);
      SentTaken(start, HandAll(sink, front), Wire(frames[|front|]), generation);
    }
  }

  lemma ClientFrameTaken(start: Sinking.Sink, s: State, f: Frame, generation: nat)
    requires TookAll(start, s.sink, generation)
    ensures TookAll(start, WithClientFrame(s, f).sink, generation)
  {
    if Relays(s, f) {
      RelayedParts(s, f);
    } else if f.Request? && IsExtension(f.verb) {
      var reply := ExtensionReply(s.store, f);
      SentTaken(start, s.sink, reply, generation);
      HandAllTaken(start, Hand(s, reply).sink, s.unanswered, generation);
    } else if f.Request? {
      var answer := Wire(Response(f.id, Result(Handshaking.Answer(s.recording, f.verb).value)));
      SentTaken(start, s.sink, answer, generation);
      SentTaken(start, Sinking.Sent(s.sink, answer), Notify(AgentInfo(true)), generation);
    }
  }

  lemma ForwardedTaken(start: Sinking.Sink, s: State, f: Frame, ends: Option<string>, generation: nat)
    requires TookAll(start, s.sink, generation)
    ensures TookAll(start, WithForwarded(s, f, ends).sink, generation)
  {
    if !f.Response? {
      SentTaken(start, s.sink, Wire(f), generation);
    } else if Lookup(s.bridge, f.id).Some? {
      SentTaken(start, s.sink, Wire(Response(Lookup(s.bridge, f.id).value, f.payload)), generation);
    } else if ends.Some? {
      SentTaken(start, s.sink, Notify(TurnOver(ends.value, StopText(f.payload))), generation);
    }
  }

  lemma AgentFrameTaken(start: Sinking.Sink, s: State, f: Frame, order: seq<string>, generation: nat)
    requires TookAll(start, s.sink, generation)
    ensures TookAll(start, WithAgentFrame(s, f, order).sink, generation)
  {
    var o := WithAgentObserved(s, f, order);
    ObservedParts(s, f, order);
    if Intercepts(s.servers, f) {
      SentTaken(start, s.sink, Notify(Inspected(true, f)), generation);
    } else {
      var listed := if f.Request? then o.(unanswered := o.unanswered + [f]) else o;
      ForwardedTaken(start, listed, f, EndsTurn(s, f), generation);
      SentTaken(start, WithForwarded(listed, f, EndsTurn(s, f)).sink, Notify(AgentInfo(false)), generation);
    }
  }

  lemma StepTaken(start: Sinking.Sink, s: State, i: Input, generation: nat)
    requires TookAll(start, s.sink, generation) && !Ends(i, generation)
    ensures TookAll(start, Step(s, i).sink, generation)
  {
    match i
    case ClientFrame(_, f) => ClientFrameTaken(start, s, f, generation);
    case AgentFrame(f, order) => AgentFrameTaken(start, s, f, order, generation);
    case AgentText(text) => SentTaken(start, s.sink, Raw(text), generation);
    case Mirror(text) => SentTaken(start, s.sink, Notify(Mirrored(text)), generation);
    case _ =>
  }

  // Until then every line handed over is taken by that one socket: a
  // predecessor that detaches late silences nobody.
  lemma {:induction false} AttachedTakesAll(s: State, inputs: seq<Input>, generation: nat)
    requires Live(s.sink, generation) && Undisplaced(inputs, generation)
    ensures TookAll(s.sink, Run(s, inputs).sink, generation)
  {
    if inputs != [] {
      var front, last := inputs[..|inputs| - 1], inputs[|inputs| - 1];
      assert inputs == front + [last];
      assert Undisplaced(front, generation) by {
        assert forall i | i in front :: i in inputs;
      }
      assert !Ends(last, generation) by {
        assert last in inputs;
      }
      AttachedTakesAll(s, front, generation);
      StepTaken(s.sink, Run(s, front), last, generation);
    }
  }

  // ----- The answer does arrive -----

  predicate Unanswered(inputs: seq<Input>, agent: RequestId) {
    forall i | i in inputs :: i != Attach && !(i.AgentFrame? && i.frame.Response? && i.frame.id == agent)
  }

  lemma {:induction false} LookupKept(s: State, inputs: seq<Input>, agent: RequestId)
    requires Unanswered(inputs, agent) && agent.Number? && agent.n <= s.bridge.next
    ensures Lookup(Run(s, inputs).bridge, agent) == Lookup(s.bridge, agent)
            && Run(s, inputs).bridge.next >= s.bridge.next
  {
    if inputs != [] {
      var front, last := inputs[..|inputs| - 1], inputs[|inputs| - 1];
      assert Unanswered(front, agent) && last in inputs;
      LookupKept(s, front, agent);
      BridgeFollows(Run(s, front), last);
    }
  }

  // A request that reaches the agent is answered to the browser that made it,
  // under its own id, once and whatever happens in between, unless another
  // browser attaches first.
  lemma RequestIsAnswered(s: State, generation: nat, f: Frame, inputs: seq<Input>, p: Payload, order: seq<string>)
    requires Consistent(s) && Live(s.sink, generation) && f.Request? && Relays(s, f)
    requires Unanswered(inputs, Minted(s.bridge)) && Undisplaced(inputs, generation)
    ensures var s1 := Run(Step(s, ClientFrame(generation, f)), inputs);
            var s2 := Step(s1, AgentFrame(Response(Minted(s.bridge), p), order));
            && |s2.sink.log| > |s1.sink.log|
            && s2.sink.log[|s1.sink.log|] == Sinking.Delivery(Wire(Response(f.id, p)), Some(generation))
            && Cleared(s2, Minted(s.bridge))
  {
    var agent, s0 := Minted(s.bridge), Step(s, ClientFrame(generation, f));
    BridgeFollows(s, ClientFrame(generation, f));
    LookupKept(s0, inputs, agent);
    StepTaken(s.sink, s, ClientFrame(generation, f), generation);
    AttachedTakesAll(s0, inputs, generation);
    StepConsistent(s, ClientFrame(generation, f));
    RunConsistent(s0, inputs);
    StepConsistent(Run(s0, inputs), AgentFrame(Response(agent, p), order));
    FirstLine(Run(s0, inputs), agent, p, order);
  }

  lemma ForwardedFirst(s: State, agent: RequestId, p: Payload, ends: Option<string>)
    requires Lookup(s.bridge, agent).Some?
    ensures WithForwarded(s, Response(agent, p), ends).sink.log ==
              s.sink.log + [Sinking.Delivery(Wire(Response(Lookup(s.bridge, agent).value, p)), Sinking.Takes(s.sink))]
  {
  }

  lemma FirstLine(s: State, agent: RequestId, p: Payload, order: seq<string>)
    requires !OwnedByName(agent) && Lookup(s.bridge, agent).Some?
    ensures var log := Step(s, AgentFrame(Response(agent, p), order)).sink.log;
            && |log| > |s.sink.log|
            && log[|s.sink.log|] == Sinking.Delivery(Wire(Response(Lookup(s.bridge, agent).value, p)),
                Sinking.Takes(s.sink))
  {
    var f := Response(agent, p);
    ObservedParts(s, f, order);
    ForwardedFirst(WithAgentObserved(s, f, order), agent, p, EndsTurn(s, f));
  }

  lemma {:induction false} RunConsistent(s: State, inputs: seq<Input>)
    requires Consistent(s)
    ensures Consistent(Run(s, inputs))
  {
    if inputs != [] {
      RunConsistent(s, inputs[..|inputs| - 1]);
      StepConsistent(Run(s, inputs[..|inputs| - 1]), inputs[|inputs| - 1]);
    }
  }
}
