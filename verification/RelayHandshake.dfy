// The handshake is made with the agent once: browsers that attach later are
// given the agent's first answers, and only while those still apply.

module RelayHandshake {
  import opened Wrappers
  import opened ThreadModel
  import opened Protocol
  import opened Handshaking
  import opened Relay
  import Offering
  import Sinking

  // The result a step brings for a method, if it brings one.
  function ResultFor(s: State, i: Input, m: Method): Option<Body> {
    if i.AgentFrame? && i.frame.Response? && i.frame.payload.Result? && Label(s.methods, i.frame) == Some(m)
    then Some(i.frame.payload.body) else None
  }

  // The first successful result a run brought for a method.
  function FirstResult(s: State, inputs: seq<Input>, m: Method): Option<Body> {
    if inputs == [] then None
    else Earlier(FirstResult(s, inputs[..|inputs| - 1], m),
                 ResultFor(Run(s, inputs[..|inputs| - 1]), inputs[|inputs| - 1], m))
  }

  function Earlier(first: Option<Body>, second: Option<Body>): Option<Body> {
    if first.Some? then first else second
  }

  function RecordingAfter(s: State, i: Input): Recording {
    match i
    case Attach => Reattached(s.recording)
    case ClientFrame(_, f) =>
      if f.Request? && !IsExtension(f.verb) then Handshaking.Answered(s.recording, f.verb) else s.recording
    case AgentFrame(f, _) =>
      if f.Response? && f.payload.Result? && Label(s.methods, f).Some?
      then Recorded(s.recording, Label(s.methods, f).value, f.payload.body) else s.recording
    case _ => s.recording
  }

  lemma RecordingFollows(s: State, i: Input)
    ensures Step(s, i).recording == RecordingAfter(s, i)
  {
    match i
    case AgentFrame(f, order) => ForwardedKeepsRecording(s, f, order);
    case _ =>
  }

  lemma ForwardedKeepsRecording(s: State, f: Frame, order: seq<string>)
    ensures WithAgentFrame(s, f, order).recording == WithAgentObserved(s, f, order).recording
  {
    var o := WithAgentObserved(s, f, order);
    var listed := if f.Request? then o.(unanswered := o.unanswered + [f]) else o;
    ForwardedParts(listed, f, EndsTurn(s, f));
  }

  // What is recorded is the first successful result for each of the two methods.
  lemma {:induction false} FirstResultsRecorded(servers: seq<Offering.Server>, inputs: seq<Input>)
    ensures var s := Initially(servers);
            && Run(s, inputs).recording.initialize == FirstResult(s, inputs, Initialize)
            && Run(s, inputs).recording.newSession == FirstResult(s, inputs, SessionNew)
  {
    if inputs != [] {
      FirstResultsRecorded(servers, inputs[..|inputs| - 1]);
      RecordingFollows(Run(Initially(servers), inputs[..|inputs| - 1]), inputs[|inputs| - 1]);
    }
  }

  lemma {:induction false} InitializeStays(s: State, inputs: seq<Input>)
    requires s.recording.initialize.Some?
    ensures Run(s, inputs).recording.initialize == s.recording.initialize
  {
    if inputs != [] {
      InitializeStays(s, inputs[..|inputs| - 1]);
      RecordingFollows(Run(s, inputs[..|inputs| - 1]), inputs[|inputs| - 1]);
    }
  }

  // ----- initialize -----

  predicate Initializes(line: AgentLine) {
    line.ToAgent? && line.frame.Request? && line.frame.verb == Initialize
  }

  // From `start` on, `initialize` reached the agent only if the server's own
  // tasks sent it.
  predicate NotInitializedSince(start: nat, toAgent: seq<AgentLine>, inputs: seq<Input>) {
    start <= |toAgent| &&
    forall k | start <= k < |toAgent| && Initializes(toAgent[k]) :: ServerToAgent(toAgent[k].frame) in inputs
  }

  lemma StepInitializesNot(s: State, i: Input)
    requires s.recording.initialize.Some?
    ensures var toAgent := Step(s, i).toAgent;
            toAgent == s.toAgent ||
            exists line :: toAgent == s.toAgent + [line] && (Initializes(line) ==> i == ServerToAgent(line.frame))
  {
    match i
    case ClientFrame(_, f) =>
      if Relays(s, f) {
        RelayedParts(s, f);
        assert !Initializes(ToAgent(Rewritten(Presented(s, f))));
      } else {
        StoppedParts(s, f);
      }
    case AgentFrame(f, order) => AgentFrameParts(s, f, order);
    case _ =>
  }

  // Once the agent has answered `initialize`, no browser's `initialize` is put
  // to it again, whoever attaches and whatever they send.
  lemma {:induction false} InitializedOnce(s: State, inputs: seq<Input>)
    requires s.recording.initialize.Some?
    ensures NotInitializedSince(|s.toAgent|, Run(s, inputs).toAgent, inputs)
  {
    if inputs != [] {
      var front, last := inputs[..|inputs| - 1], inputs[|inputs| - 1];
      var s' := Run(s, front);
      InitializedOnce(s, front);
      InitializeStays(s, front);
      StepInitializesNot(s', last);
      LineAdded(|s.toAgent|, s'.toAgent, Step(s', last).toAgent, front, last);
      assert inputs == front + [last];
    }
  }

  lemma LineAdded(start: nat, before: seq<AgentLine>, after: seq<AgentLine>, front: seq<Input>, last: Input)
    requires NotInitializedSince(start, before, front)
    requires after == before ||
             exists line :: after == before + [line] && (Initializes(line) ==> last == ServerToAgent(line.frame))
    ensures NotInitializedSince(start, after, front + [last])
  {
    forall k | start <= k < |after| && Initializes(after[k])
      ensures ServerToAgent(after[k].frame) in front + [last]
    {
      if k < |before| {
        assert after[k] == before[k];
        assert ServerToAgent(before[k].frame) in front;
      } else {
        var line :| after == before + [line] && (Initializes(line) ==> last == ServerToAgent(line.frame));
        assert after[k] == line;
        assert (front + [last])[|front|] == last;
      }
    }
  }

  // Instead every later `initialize` is answered here, with the first result,
  // followed by the news that the agent was already running.
  lemma LaterInitializeAnswered(servers: seq<Offering.Server>, inputs: seq<Input>, generation: nat, id: CallId,
                                params: Option<Params>)
    requires FirstResult(Initially(servers), inputs, Initialize).Some?
    ensures var s, first := Run(Initially(servers), inputs), FirstResult(Initially(servers), inputs, Initialize).value;
            var s' := Step(s, ClientFrame(generation, Request(id, Initialize, params)));
            && s'.toAgent == s.toAgent
            && |s'.sink.log| == |s.sink.log| + 2 && s'.sink.log[..|s.sink.log|] == s.sink.log
            && s'.sink.log[|s.sink.log|] == Sinking.Delivery(Wire(Response(id, Result(first))), Sinking.Takes(s.sink))
            && s'.sink.log[|s.sink.log| + 1] == Sinking.Delivery(Notify(AgentInfo(true)), Sinking.Takes(s.sink))
  {
    FirstResultsRecorded(servers, inputs);
    AnsweredHere(Run(Initially(servers), inputs), Request(id, Initialize, params));
  }

  lemma AnsweredHere(s: State, f: Frame)
    requires f.Request? && f.verb == Initialize && s.recording.initialize.Some?
    ensures var s' := WithClientFrame(s, f);
            && s'.toAgent == s.toAgent
            && s'.sink.log == s.sink.log
                 + [Sinking.Delivery(Wire(Response(f.id, Result(s.recording.initialize.value))), Sinking.Takes(s.sink)),
                    Sinking.Delivery(Notify(AgentInfo(true)), Sinking.Takes(s.sink))]
  {
  }

  // ----- session/new -----

  predicate StartsSession(i: Input) {
    i.ClientFrame? && i.frame.Request? && i.frame.verb == SessionNew
  }

  predicate SessionStarted(inputs: seq<Input>) {
    exists i | i in inputs :: StartsSession(i)
  }

  lemma SessionStartedGrows(front: seq<Input>, last: Input)
    ensures SessionStarted(front + [last]) <==> SessionStarted(front) || StartsSession(last)
  {
    assert forall i :: i in front + [last] <==> i in front || i == last;
  }

  // While one browser stays attached, its `session/new` is answered from the
  // recording exactly when it is the first it sends and the agent had already
  // answered one before that browser came.
  lemma {:induction false} FirstSessionNewOnly(s: State, inputs: seq<Input>)
    requires Attach !in inputs
    ensures var r := Run(WithAttach(s), inputs).recording;
            && Answer(r, SessionNew) == (if SessionStarted(inputs) then None else s.recording.newSession)
            && (s.recording.newSession.Some? ==> r.newSession == s.recording.newSession)
            && (s.recording.newSession.None? || SessionStarted(inputs) ==> !r.replayNewSession)
  {
    if inputs != [] {
      var front, last := inputs[..|inputs| - 1], inputs[|inputs| - 1];
      assert inputs == front + [last];
      FirstSessionNewOnly(s, front);
      SessionStartedGrows(front, last);
      RecordingFollows(Run(WithAttach(s), front), last);
      assert last in inputs;
    }
  }

  // So of two `session/new` requests from one attachment the second always
  // reaches the agent, under a newly minted id and offering the servers.
  lemma SecondSessionNewReachesAgent(s: State, inputs: seq<Input>, id: CallId, params: Option<Params>)
    requires Attach !in inputs && SessionStarted(inputs)
    ensures var s', f := Run(WithAttach(s), inputs), Request(id, SessionNew, params);
            Relays(s', f) && WithClientFrame(s', f).toAgent == s'.toAgent + [ToAgent(Presented(s', f))]
  {
    FirstSessionNewOnly(s, inputs);
    RelayedParts(Run(WithAttach(s), inputs), Request(id, SessionNew, params));
  }

  // And the one answered from the recording is given the agent's first session,
  // under its own id, while the agent hears nothing of it.
  lemma FirstSessionNewAnswered(servers: seq<Offering.Server>, before: seq<Input>, inputs: seq<Input>,
                                generation: nat, id: CallId, params: Option<Params>)
    requires FirstResult(Initially(servers), before, SessionNew).Some? && Attach !in inputs && !SessionStarted(inputs)
    ensures var s := Run(WithAttach(Run(Initially(servers), before)), inputs);
            var s' := Step(s, ClientFrame(generation, Request(id, SessionNew, params)));
            && s'.toAgent == s.toAgent && s'.bridge == s.bridge
            && s'.sink.log == s.sink.log +
                 [Sinking.Delivery(Wire(Response(id,
                     Result(FirstResult(Initially(servers), before, SessionNew).value))),
                                   Sinking.Takes(s.sink))]
  {
    var first := Run(Initially(servers), before);
    FirstResultsRecorded(servers, before);
    FirstSessionNewOnly(first, inputs);
    SessionAnsweredHere(Run(WithAttach(first), inputs), Request(id, SessionNew, params));
  }

  lemma SessionAnsweredHere(s: State, f: Frame)
    requires f.Request? && f.verb == SessionNew && Answer(s.recording, SessionNew).Some?
    ensures var s' := WithClientFrame(s, f);
            && s'.toAgent == s.toAgent && s'.bridge == s.bridge
            && s'.sink.log == s.sink.log +
                 [Sinking.Delivery(Wire(Response(f.id, Result(Answer(s.recording, SessionNew).value))),
                     Sinking.Takes(s.sink))]
  {
  }
}
