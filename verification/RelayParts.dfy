// The relay's small stateful parts. Each class updates itself in place and is
// tied, method by method, to a function on the value it stands for.

// Request ids, renumbered for the agent and given back to the browser that chose them.
module Bridging {
  import opened Wrappers
  import opened ThreadModel

  datatype Bridge = Bridge(next: nat, outstanding: map<RequestId, RequestId>)

  const NEW_BRIDGE := Bridge(0, map[])

  function Minted(b: Bridge): RequestId {
    Number(b.next + 1)
  }

  function WithRequest(b: Bridge, browser: RequestId): Bridge {
    Bridge(b.next + 1, b.outstanding[Minted(b) := browser])
  }

  function WithAnswer(b: Bridge, agent: RequestId): Bridge {
    b.(outstanding := b.outstanding - {agent})
  }

  function Lookup(b: Bridge, agent: RequestId): Option<RequestId> {
    if agent in b.outstanding then Some(b.outstanding[agent]) else None
  }

  // Every outstanding id was minted here, and the next one will be new.
  predicate Sound(b: Bridge) {
    forall id | id in b.outstanding :: id.Number? && 1 <= id.n <= b.next
  }

  class IdBridge {
    var next: nat
    var outstanding: map<RequestId, RequestId>

    function Value(): Bridge
      reads this
    {
      Bridge(next, outstanding)
    }

    constructor ()
      ensures Value() == NEW_BRIDGE
    {
      next, outstanding := 0, map[];
    }

    method Reattach()
      modifies this
      ensures Value() == old(Value()).(outstanding := map[])
    {
      outstanding := map[];
    }

    method ForAgent(browser: RequestId) returns (agent: RequestId)
      modifies this
      ensures agent == Minted(old(Value())) && Value() == WithRequest(old(Value()), browser)
      ensures old(Sound(Value())) ==> Sound(Value()) && agent !in old(outstanding)
    {
      next := next + 1;
      agent := Number(next);
      outstanding := outstanding[agent := browser];
    }

    method ForBrowser(agent: RequestId) returns (browser: Option<RequestId>)
      modifies this
      ensures browser == Lookup(old(Value()), agent) && Value() == WithAnswer(old(Value()), agent)
      ensures agent !in outstanding && (old(Sound(Value())) ==> Sound(Value()))
    {
      browser := if agent in outstanding then Some(outstanding[agent]) else None;
      outstanding := outstanding - {agent};
    }
  }
}

// Pairs responses with the methods they answer.
module Correlating {
  import opened Wrappers
  import opened ThreadModel
  import opened Protocol

  datatype Direction = ClientToAgent | AgentToClient

  function Reply(d: Direction): Direction {
    if d == ClientToAgent then AgentToClient else ClientToAgent
  }

  datatype Methods = Methods(fromClient: map<RequestId, Method>, fromAgent: map<RequestId, Method>)

  const NO_METHODS := Methods(map[], map[])

  function Pending(c: Methods, d: Direction): map<RequestId, Method> {
    if d == ClientToAgent then c.fromClient else c.fromAgent
  }

  function WithPending(c: Methods, d: Direction, m: map<RequestId, Method>): Methods {
    if d == ClientToAgent then c.(fromClient := m) else c.(fromAgent := m)
  }

  function Observed(c: Methods, d: Direction, f: Frame): Methods {
    match f
    case Request(id, verb, _) => WithPending(c, d, Pending(c, d)[id := verb])
    case Response(id, _) => WithPending(c, Reply(d), Pending(c, Reply(d)) - {id})
    case Notification(_, _) => c
  }

  // The method a response answers, if its request was seen.
  function Answers(c: Methods, d: Direction, f: Frame): Option<Method> {
    if f.Response? && f.id in Pending(c, Reply(d)) then Some(Pending(c, Reply(d))[f.id]) else None
  }

  class MethodCorrelator {
    var fromClient: map<RequestId, Method>
    var fromAgent: map<RequestId, Method>

    function Value(): Methods
      reads this
    {
      Methods(fromClient, fromAgent)
    }

    constructor ()
      ensures Value() == NO_METHODS
    {
      fromClient, fromAgent := map[], map[];
    }

    method Observe(d: Direction, f: Frame) returns (verb: Option<Method>)
      modifies this
      ensures verb == Answers(old(Value()), d, f) && Value() == Observed(old(Value()), d, f)
    {
      verb := None;
      match f {
        case Request(id, m, _) =>
          if d == ClientToAgent {
            fromClient := fromClient[id := m];
          } else {
            fromAgent := fromAgent[id := m];
          }
        case Response(id, _) =>
          // The request was seen going in the opposite direction.
          if d == ClientToAgent {
            verb := if id in fromAgent then Some(fromAgent[id]) else None;
            fromAgent := fromAgent - {id};
          } else {
            verb := if id in fromClient then Some(fromClient[id]) else None;
            fromClient := fromClient - {id};
          }
        case Notification(_, _) =>
      }
    }
  }
}

// What the agent answered to `initialize` and to the first `session/new`, and
// whether the attached browser is still due the second.
module Handshaking {
  import opened Wrappers
  import opened Protocol

  datatype Recording = Recording(initialize: Option<Body>, newSession: Option<Body>, replayNewSession: bool)

  const NOTHING_RECORDED := Recording(None, None, false)

  function Reattached(h: Recording): Recording {
    h.(replayNewSession := h.newSession.Some?)
  }

  function Recorded(h: Recording, m: Method, result: Body): Recording {
    if m == Initialize && h.initialize.None? then h.(initialize := Some(result))
    else if m == SessionNew && h.newSession.None? then h.(newSession := Some(result))
    else h
  }

  // The answer this attachment should be given, and what giving it leaves.
  function Answer(h: Recording, m: Method): Option<Body> {
    if m == Initialize then h.initialize
    else if m == SessionNew && h.replayNewSession then h.newSession
    else None
  }

  function Answered(h: Recording, m: Method): Recording {
    if m == SessionNew then h.(replayNewSession := false) else h
  }

  class Handshake {
    var initialize: Option<Body>
    var newSession: Option<Body>
    var replayNewSession: bool

    function Value(): Recording
      reads this
    {
      Recording(initialize, newSession, replayNewSession)
    }

    constructor ()
      ensures Value() == NOTHING_RECORDED
    {
      initialize, newSession, replayNewSession := None, None, false;
    }

    method Reattach()
      modifies this
      ensures Value() == Reattached(old(Value()))
    {
      replayNewSession := newSession.Some?;
    }

    method Record(m: Method, result: Body)
      modifies this
      ensures Value() == Recorded(old(Value()), m, result)
    {
      match m {
        case Initialize =>
          if initialize.None? { initialize := Some(result); }
        case SessionNew =>
          if newSession.None? { newSession := Some(result); }
        case _ =>
      }
    }

    method TakeRecorded(m: Method) returns (answer: Option<Body>)
      modifies this
      ensures answer == Answer(old(Value()), m) && Value() == Answered(old(Value()), m)
    {
      match m {
        case Initialize =>
          answer := initialize;
        case SessionNew =>
          answer := if replayNewSession then newSession else None;
          replayNewSession := false;
        case _ =>
          answer := None;
      }
    }
  }
}

// The attached socket, if there is one, and the lines each socket was given.
module Sinking {
  import opened Wrappers
  import opened Protocol

  // One line handed to the sink, and the attachment whose socket took it.
  datatype Delivery = Delivery(line: Line, to: Option<nat>)

  // `sender` says whether a socket is attached; `open`, whether its writer is
  // still there to drain it.
  datatype Sink = Sink(generation: nat, sender: bool, open: bool, log: seq<Delivery>)

  const NO_SOCKET := Sink(0, false, false, [])

  function Attached(s: Sink): Sink {
    Sink(s.generation + 1, true, true, s.log)
  }

  function Detached(s: Sink, generation: nat): Sink {
    if s.generation == generation then s.(sender := false) else s
  }

  function Takes(s: Sink): Option<nat> {
    if s.sender && s.open then Some(s.generation) else None
  }

  function Sent(s: Sink, line: Line): Sink {
    s.(sender := s.sender && s.open, log := s.log + [Delivery(line, Takes(s))])
  }

  class BrowserSink {
    var generation: nat
    var sender: bool
    var open: bool
    var log: seq<Delivery>

    function Value(): Sink
      reads this
    {
      Sink(generation, sender, open, log)
    }

    constructor ()
      ensures Value() == NO_SOCKET
    {
      generation, sender, open, log := 0, false, false, [];
    }

    method Attach() returns (number: nat)
      modifies this
      ensures Value() == Attached(old(Value())) && number == generation
    {
      generation := generation + 1;
      sender, open := true, true;
      number := generation;
    }

    method Detach(number: nat)
      modifies this
      ensures Value() == Detached(old(Value()), number)
    {
      if generation == number {
        sender := false;
      }
    }

    // The writer of the attached socket has ended and dropped its end.
    method WriterEnds()
      modifies this
      ensures Value() == old(Value()).(open := false)
    {
      open := false;
    }

    method Send(line: Line)
      modifies this
      ensures Value() == Sent(old(Value()), line)
    {
      if !sender {
        log := log + [Delivery(line, None)];
        return;
      }
      if open {
        log := log + [Delivery(line, Some(generation))];
      } else {
        log := log + [Delivery(line, None)];
        sender := false;
      }
    }
  }
}
