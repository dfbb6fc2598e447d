// What passes through the relay passes through whole: to the agent under ids of
// the relay's own, to the browser as the agent said it.

module RelayTransparency {
  import opened Wrappers
  import opened ThreadModel
  import opened Protocol
  import opened Relay
  import RelayIsolation
  import Offering
  import RelayQuestions
  import Sinking

  // ----- To the agent -----

  // The same frame, but for the id it travels under, what the server says it
  // provides, and the MCP servers it offers.
  predicate SameButId(sent: Frame, f: Frame) {
    match (sent, f)
    case (Request(_, verb, params), Request(_, verb', params')) =>
      var was := OrElse(params', NO_PARAMS);
      verb == verb' &&
      (params == params' ||
       (verb == Initialize && params == Some(was.(capable := true))) ||
       (Offering.OpensSession(verb) && params.Some? && was.servers.Some? && params.value.servers.Some?
        && was.servers.value <= params.value.servers.value
        && params.value == was.(servers := params.value.servers, typed := params.value.typed)))
    case _ => sent == f
  }

  lemma PresentedSame(s: State, f: Frame)
    ensures SameButId(Rewritten(Presented(s, f)), f)
  {
    var r := Rebound(s.bridge, f);
    Offering.MergedLeavesTheRest(r, s.servers, TransportsOf(s.recording));
    assert f.Request? ==> r.verb == f.verb && r.params == f.params;
  }

  // A frame from the browser either stays here or reaches the agent once, whole:
  // a request under a new number, an answer under the agent's own id.
  lemma BrowserFrameReachesAgent(s: State, generation: nat, f: Frame)
    ensures var toAgent := Step(s, ClientFrame(generation, f)).toAgent;
            if Relays(s, f) then
              && |toAgent| == |s.toAgent| + 1 && toAgent[..|s.toAgent|] == s.toAgent
              && toAgent[|s.toAgent|].ToAgent? && SameButId(toAgent[|s.toAgent|].frame, f)
              && (f.Request? ==> toAgent[|s.toAgent|].frame.id == Number(s.bridge.next + 1))
            else toAgent == s.toAgent
  {
    if Relays(s, f) {
      RelayedParts(s, f);
      PresentedSame(s, f);
    } else {
      StoppedParts(s, f);
    }
  }

  // A request numbered by the relay.
  predicate Numbered(line: AgentLine) {
    line.ToAgent? && line.frame.Request? && line.frame.id.Number?
  }

  // No two of them share a number, and none is past the counter.
  predicate Distinct(lines: seq<AgentLine>, next: nat) {
    && (forall k | 0 <= k < |lines| && Numbered(lines[k]) :: lines[k].frame.id.n <= next)
    && (forall k, m | 0 <= k < m < |lines| && Numbered(lines[k]) && Numbered(lines[m]) ::
          lines[k].frame.id != lines[m].frame.id)
  }

  lemma OneMoreLine(lines: seq<AgentLine>, line: AgentLine, next: nat, next': nat)
    requires Distinct(lines, next) && next <= next'
    requires Numbered(line) ==> line.frame.id == Number(next') && next < next'
    ensures Distinct(lines + [line], next')
  {
  }

  lemma StepNumbers(s: State, i: Input)
    requires Distinct(s.toAgent, s.bridge.next)
    requires i.ServerToAgent? ==> !Numbered(ToAgent(i.frame))
    ensures Distinct(Step(s, i).toAgent, Step(s, i).bridge.next)
  {
    RelayIsolation.BridgeFollows(s, i);
    match i
    case ClientFrame(generation, f) =>
      BrowserFrameReachesAgent(s, generation, f);
      if Relays(s, f) {
        var toAgent := Step(s, i).toAgent;
        assert toAgent == toAgent[..|s.toAgent|] + [toAgent[|s.toAgent|]];
        OneMoreLine(s.toAgent, toAgent[|s.toAgent|], s.bridge.next, Step(s, i).bridge.next);
      }
    case ClientText(_, text) => OneMoreLine(s.toAgent, RawToAgent(text), s.bridge.next, s.bridge.next);
    case ServerToAgent(f) => OneMoreLine(s.toAgent, ToAgent(f), s.bridge.next, s.bridge.next);
    case AgentFrame(f, order) => AgentFrameParts(s, f, order);
    case _ =>
  }

  // Over every run, whichever browsers asked and however each of them counts,
  // no two of their requests reach the agent under one number.
  lemma {:induction false} NoTwoRequestsCollide(servers: seq<Offering.Server>, inputs: seq<Input>)
    requires forall i | i in inputs && i.ServerToAgent? :: !Numbered(ToAgent(i.frame))
    ensures Distinct(Run(Initially(servers), inputs).toAgent, Run(Initially(servers), inputs).bridge.next)
  {
    if inputs != [] {
      var front, last := inputs[..|inputs| - 1], inputs[|inputs| - 1];
      assert last in inputs && forall i | i in front :: i in inputs;
      NoTwoRequestsCollide(servers, front);
      StepNumbers(Run(Initially(servers), front), last);
    }
  }

  // ----- To the browser -----

  // A request or a notification from the agent is handed over as it came, unless
  // the server answers it; then it is only mirrored, and never asked again.
  lemma AgentFrameReachesBrowser(s: State, f: Frame, order: seq<string>)
    requires !f.Response?
    ensures var s' := Step(s, AgentFrame(f, order));
            var line := if Intercepts(s.servers, f) then Notify(Inspected(true, f)) else Wire(f);
            && s'.sink.log == s.sink.log + [Sinking.Delivery(line, Sinking.Takes(s.sink))]
            && s'.unanswered == s.unanswered + if f.Request? && !Intercepts(s.servers, f) then [f] else []
  {
    ObservedParts(s, f, order);
    AgentFrameParts(s, f, order);
  }

  // What the server answers in the browser's place: files and terminals always,
  // MCP traffic when there is a server here for it to reach.
  predicate AnsweredHere(servers: seq<Offering.Server>, verb: Method) {
    verb.Capability? || (verb.McpOverAcp? && exists x | x in servers :: x.kind == Offering.OverAcp && x.available)
  }

  // A call of that kind is only mirrored, and no other: every other one goes out as
  // it came, and a request is kept to be put again.
  lemma CallsGoWhereTheyBelong(s: State, f: Frame, order: seq<string>)
    requires !f.Response?
    ensures var s', here := Step(s, AgentFrame(f, order)), AnsweredHere(s.servers, f.verb);
            && s'.sink.log == s.sink.log +
                 [Sinking.Delivery(if here then Notify(Inspected(true, f)) else Wire(f), Sinking.Takes(s.sink))]
            && s'.unanswered == s.unanswered + if f.Request? && !here then [f] else []
  {
    AgentFrameReachesBrowser(s, f, order);
    HostsIs(s.servers);
  }

  lemma HostsIs(servers: seq<Offering.Server>)
    ensures Offering.Hosts(servers) <==> exists x | x in servers :: x.kind == Offering.OverAcp && x.available
  {
    if Offering.Hosts(servers) {
      var i :| 0 <= i < |servers| && servers[i].kind == Offering.OverAcp && servers[i].available;
      assert servers[i] in servers;
    }
  }

  // An answer under an id this server gave out is mirrored and goes no further.
  lemma OwnAnswersStayHere(s: State, name: string, payload: Payload, order: seq<string>)
    ensures var s' := Step(s, AgentFrame(Response(Name("mjx-mcp-" + name), payload), order));
            s'.sink.log == s.sink.log +
              [Sinking.Delivery(Notify(Inspected(true, Response(Name("mjx-mcp-" + name), payload))),
                  Sinking.Takes(s.sink))]
  {
    var id := Name("mjx-mcp-" + name);
    assert id.s[..8] == "mjx-mcp-";
    ObservedParts(s, Response(id, payload), order);
  }

  predicate NoneAnsweredHere(servers: seq<Offering.Server>, frames: seq<Frame>) {
    forall f | f in frames :: f.Request? && !AnsweredHere(servers, f.verb)
  }

  lemma StepListsNone(s: State, i: Input)
    requires NoneAnsweredHere(s.servers, s.unanswered)
    ensures Step(s, i).servers == s.servers && NoneAnsweredHere(s.servers, Step(s, i).unanswered)
  {
    match i
    case ClientFrame(_, f) =>
      if Relays(s, f) {
        RelayedParts(s, f);
        if f.Response? {
          forall g | g in WithoutId(s.unanswered, f.id)
            ensures g in s.unanswered
          {
            RelayQuestions.InWithoutId(s.unanswered, f.id, g);
          }
        }
      } else {
        StoppedParts(s, f);
      }
    case AgentFrame(f, order) =>
      AgentFrameParts(s, f, order);
      HostsIs(s.servers);
      if EndsTurn(s, f).Some? {
        forall g | g in WithoutSession(s.unanswered, EndsTurn(s, f).value)
          ensures g in s.unanswered
        {
          RelayQuestions.InWithoutSession(s.unanswered, EndsTurn(s, f).value, g);
        }
      }
    case _ =>
  }

  // So over every run nothing the server answers is ever put to a browser again.
  lemma {:induction false} NeverAskedAgain(servers: seq<Offering.Server>, inputs: seq<Input>)
    ensures var s := Run(Initially(servers), inputs);
            s.servers == servers && NoneAnsweredHere(servers, s.unanswered)
  {
    if inputs != [] {
      var front, last := inputs[..|inputs| - 1], inputs[|inputs| - 1];
      NeverAskedAgain(servers, front);
      StepListsNone(Run(Initially(servers), front), last);
    }
  }

  lemma {:induction false} HandAllGrows(sink: Sinking.Sink, frames: seq<Frame>)
    ensures sink.log <= HandAll(sink, frames).log
  {
    if frames != [] {
      HandAllGrows(sink, frames[..|frames| - 1]);
    }
  }

  lemma AnsweredFirst(s: State, f: Frame)
    requires f.Request? && IsExtension(f.verb)
    ensures s.sink.log + [Sinking.Delivery(ExtensionReply(s.store, f), Sinking.Takes(s.sink))] <=
              WithExtension(s, f).sink.log
  {
    HandAllGrows(Hand(s, ExtensionReply(s.store, f)).sink, s.unanswered);
  }

  // A frame meant for this server gets one answer, first, under the browser's
  // own id, and the agent hears nothing of it.
  lemma ExtensionStaysHere(s: State, generation: nat, f: Frame)
    requires f.Request? && IsExtension(f.verb)
    ensures RelayIsolation.AnswerId(ExtensionReply(s.store, f)) == Some(f.id)
    ensures var s' := Step(s, ClientFrame(generation, f));
            && s.sink.log + [Sinking.Delivery(ExtensionReply(s.store, f), Sinking.Takes(s.sink))] <= s'.sink.log
            && s'.toAgent == s.toAgent && s'.store == s.store && s'.bridge == s.bridge
  {
    StoppedParts(s, f);
    AnsweredFirst(s, f);
  }

  // A browser that is displaced is told so, and that is the last line it gets.
  lemma DisplacedIsTold(s: State, after: seq<Input>)
    requires s.reader.Some? && RelayIsolation.Live(s.sink, s.sink.generation) && RelayIsolation.NoAnswers(s.unanswered)
    ensures var attached := Step(s, Attach).sink;
            && attached.log == s.sink.log + [Sinking.Delivery(Notify(TakenOver), Some(s.sink.generation))]
            && RelayIsolation.SinceOnlyTo(attached, Run(Step(s, Attach), after).sink, s.sink.generation + 1)
  {
    RelayIsolation.SuccessorsOnly(s, after);
  }
}
