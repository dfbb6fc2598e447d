// MCP servers held here on the agent's behalf: three id spaces, and nothing
// that belongs to one of them turns up in another.

// One server, and the calls it has not answered yet.
module McpServers {
  import opened ThreadModel

  datatype Answer = Result(value: Json) | Error(code: int, message: string)

  datatype McpFrame =
    | Request(id: RequestId, verb: string, params: Json)
    | Response(id: RequestId, answer: Answer)
    | Notification(verb: string, params: Json)

  // Something the server said that nobody asked for.
  datatype FromServer = Told(verb: string, params: Json) | Asked(id: RequestId, verb: string, params: Json)

  // `given` is what each call was answered with so far, in the order the calls
  // were made; `open`, whether the server's input is still being written.
  datatype Server = Server(
    name: string, next: nat, pending: map<RequestId, nat>, given: seq<seq<Answer>>, open: bool,
    sent: seq<McpFrame>, events: seq<FromServer>)

  function Spawned(name: string): Server {
    Server(name, 1, map[], [], true, [], [])
  }

  function Gone(name: string, what: string): Answer {
    Error(-32603, "the MCP server `" + name + "` " + what)
  }

  function Written(s: Server, f: McpFrame): Server {
    if s.open then s.(sent := s.sent + [f]) else s
  }

  function Called(s: Server, verb: string, params: Json): Server {
    var id, call := Number(s.next), |s.given|;
    if s.open then
      s.(next := s.next + 1, pending := s.pending[id := call], given := s.given + [[]],
         sent := s.sent + [Request(id, verb, params)])
    else
      s.(next := s.next + 1, pending := s.pending[id := call] - {id},
          given := s.given + [[Gone(s.name, "is not running")]])
  }

  function Given(given: seq<seq<Answer>>, call: nat, answer: Answer): seq<seq<Answer>> {
    if call < |given| then given[call := given[call] + [answer]] else given
  }

  function Heard(s: Server, f: McpFrame): Server {
    match f
    case Response(id, answer) =>
      if id in s.pending then s.(pending := s.pending - {id}, given := Given(s.given, s.pending[id], answer)) else s
    case Notification(verb, params) => s.(events := s.events + [Told(verb, params)])
    case Request(id, verb, params) => s.(events := s.events + [Asked(id, verb, params)])
  }

  function AllGiven(given: seq<seq<Answer>>, calls: set<nat>, answer: Answer): seq<seq<Answer>> {
    seq(|given|, c requires 0 <= c < |given| => if c in calls then given[c] + [answer] else given[c])
  }

  function Ended(s: Server): Server {
    s.(pending := map[], given := AllGiven(s.given, s.pending.Values, Gone(s.name, "stopped")))
  }

  // Every call waiting is waiting under the id minted for it, and every call
  // has been answered once or is waiting: never both, never neither.
  predicate Accounted(s: Server) {
    && s.next == |s.given| + 1
    && (forall id | id in s.pending :: s.pending[id] < |s.given| && id == Number(s.pending[id] + 1))
    && (forall c | 0 <= c < |s.given| :: |s.given[c]| == if Number(c + 1) in s.pending then 0 else 1)
  }

  datatype Event =
    | Call(verb: string, params: Json)
    | Tell(verb: string, params: Json)
    | Reply(id: RequestId, answer: Answer)
    | Line(frame: McpFrame)
    | InputCloses
    | OutputEnds        // nothing the server says is read any more
    | ShutDown

  function Step(s: Server, e: Event): Server {
    match e
    case Call(verb, params) => Called(s, verb, params)
    case Tell(verb, params) => Written(s, Notification(verb, params))
    case Reply(id, answer) => Written(s, Response(id, answer))
    case Line(f) => Heard(s, f)
    case InputCloses => s.(open := false)
    case OutputEnds => Ended(s)
    case ShutDown => Ended(s)
  }

  function Run(s: Server, events: seq<Event>): Server {
    if events == [] then s else Step(Run(s, events[..|events| - 1]), events[|events| - 1])
  }

  lemma StepAccounted(s: Server, e: Event)
    requires Accounted(s)
    ensures Accounted(Step(s, e))
  {
    if e.OutputEnds? || e.ShutDown? {
      forall c | 0 <= c < |s.given|
        ensures c in s.pending.Values <==> Number(c + 1) in s.pending
      {
        if Number(c + 1) in s.pending {
          assert s.pending[Number(c + 1)] == c;
        }
      }
    }
  }

  // Over every run no call is lost and none is answered twice.
  lemma {:induction false} AlwaysAccounted(name: string, events: seq<Event>)
    ensures Accounted(Run(Spawned(name), events))
  {
    if events != [] {
      AlwaysAccounted(name, events[..|events| - 1]);
      StepAccounted(Run(Spawned(name), events[..|events| - 1]), events[|events| - 1]);
    }
  }

  // A call still waiting gets exactly the answer that comes under its own id,
  // and gets it alone.
  lemma AnswerFindsItsCall(s: Server, c: nat, answer: Answer)
    requires Accounted(s) && c < |s.given| && Number(c + 1) in s.pending
    ensures var s' := Heard(s, Response(Number(c + 1), answer));
            && s'.given[c] == [answer] && Number(c + 1) !in s'.pending
            && |s'.given| == |s.given| && forall d | 0 <= d < |s.given| && d != c :: s'.given[d] == s.given[d]
  {
    assert s.pending[Number(c + 1)] == c;
  }

  // An answer nobody is waiting for, a second one included, changes nothing.
  lemma StrayAnswerIsDropped(s: Server, id: RequestId, answer: Answer, again: Answer)
    requires Accounted(s)
    ensures Heard(Heard(s, Response(id, answer)), Response(id, again)) == Heard(s, Response(id, answer))
    ensures id !in s.pending ==> Heard(s, Response(id, answer)) == s
  {
  }

  // What a call was given is what it keeps, whatever happens later.
  lemma {:induction false} AnswersAreFinal(s: Server, events: seq<Event>, c: nat)
    requires Accounted(s) && c < |s.given| && s.given[c] != []
    ensures var s' := Run(s, events); Accounted(s') && c < |s'.given| && s'.given[c] == s.given[c]
  {
    if events != [] {
      var s', e := Run(s, events[..|events| - 1]), events[|events| - 1];
      AnswersAreFinal(s, events[..|events| - 1], c);
      StepAccounted(s', e);
      StepKeepsAnswer(s', e, c);
    }
  }

  lemma StepKeepsAnswer(s: Server, e: Event, c: nat)
    requires Accounted(s) && c < |s.given| && s.given[c] != []
    ensures c < |Step(s, e).given| && Step(s, e).given[c] == s.given[c]
  {
    assert Number(c + 1) !in s.pending;
    assert forall id | id in s.pending :: s.pending[id] != c;
  }

  // When the server's output ends every call made so far has its answer: the
  // ones still waiting are all told the server stopped.
  lemma EndAnswersEveryCall(s: Server, c: nat)
    requires Accounted(s) && c < |s.given|
    ensures Ended(s).given[c] == if Number(c + 1) in s.pending then [Gone(s.name, "stopped")] else s.given[c]
    ensures |Ended(s).given[c]| == 1 && Ended(s).pending == map[]
  {
    StepAccounted(s, ShutDown);
    if Number(c + 1) in s.pending {
      assert s.pending[Number(c + 1)] == c;
    } else {
      assert forall id | id in s.pending :: s.pending[id] != c;
    }
  }

  lemma GoneIs(name: string)
    ensures Gone(name, "stopped") == Error(-32603, "the MCP server `" + name + "` stopped")
    ensures Gone(name, "is not running") == Error(-32603, "the MCP server `" + name + "` is not running")
  {
    assert "` " + "stopped" == "` stopped" && "` " + "is not running" == "` is not running";
    assert "the MCP server `" + name + "` " + "stopped" == "the MCP server `" + name + ("` " + "stopped");
    assert "the MCP server `" + name + "` " + "is not running" == "the MCP server `" + name + ("` " + "is not running");
  }

  // What a call that will get no answer is told: that its server is not running, or
  // has stopped, as an internal error of JSON-RPC (section 5.1).
  lemma GoneSays(s: Server, verb: string, params: Json)
    requires Accounted(s)
    ensures !s.open ==>
              Called(s, verb, params).given == s.given + [[Error(-32603,
                  "the MCP server `" + s.name + "` is not running")]]
    ensures forall c | 0 <= c < |s.given| && s.given[c] == [] ::
              Ended(s).given[c] == [Error(-32603, "the MCP server `" + s.name + "` stopped")]
  {
    GoneIs(s.name);
    forall c | 0 <= c < |s.given| && s.given[c] == []
      ensures Ended(s).given[c] == [Error(-32603, "the MCP server `" + s.name + "` stopped")]
    {
      EndAnswersEveryCall(s, c);
    }
  }

  // Once the output has ended it has nothing more to say and no second end.
  predicate Silent(events: seq<Event>) {
    forall e | e in events :: !e.Line? && !e.OutputEnds?
  }

  // Of a server that is heard no more, a waiting call gets its answer from a
  // shutdown, and from nothing else.
  lemma {:induction false} WaitsForShutdown(s: Server, events: seq<Event>, c: nat)
    requires Accounted(s) && c < |s.given| && Number(c + 1) in s.pending && Silent(events)
    ensures var s' := Run(s, events);
            && Accounted(s') && s'.name == s.name && c < |s'.given|
            && s'.given[c] == (if ShutDown in events then [Gone(s.name, "stopped")] else [])
  {
    if events != [] {
      var front, e := events[..|events| - 1], events[|events| - 1];
      var s1 := Run(s, front);
      assert events == front + [e];
      assert Silent(front) && !e.Line? && !e.OutputEnds? by {
        assert e in events && forall x | x in front :: x in events;
      }
      WaitsForShutdown(s, front, c);
      StepAccounted(s1, e);
      if ShutDown in front {
        StepKeepsAnswer(s1, e, c);
      } else if e == ShutDown {
        EndAnswersEveryCall(s1, c);
      }
    }
  }

  lemma {:induction false} RunAccounted(s: Server, events: seq<Event>)
    requires Accounted(s)
    ensures Accounted(Run(s, events)) && Run(s, events).name == s.name
  {
    if events != [] {
      RunAccounted(s, events[..|events| - 1]);
      StepAccounted(Run(s, events[..|events| - 1]), events[|events| - 1]);
    }
  }

  // A call made after the output has ended, in any run, is answered at once if
  // the server's input has been closed; otherwise it has its answer if and only
  // if the server is shut down later.
  lemma CallAfterTheEnd(name: string, before: seq<Event>, between: seq<Event>, verb: string, params: Json,
                        after: seq<Event>)
    requires Silent(between) && Silent(after)
    ensures var s := Run(Ended(Run(Spawned(name), before)), between);
            var s', c := Run(Called(s, verb, params), after), |s.given|;
            && c < |s'.given|
            && (s'.given[c] != [] <==> !s.open || ShutDown in after)
            && s'.given[c] == (if !s.open then [Gone(name, "is not running")]
                               else if ShutDown in after then [Gone(name, "stopped")] else [])
  {
    AlwaysAccounted(name, before);
    RunAccounted(Spawned(name), before);
    var ended := Ended(Run(Spawned(name), before));
    StepAccounted(Run(Spawned(name), before), OutputEnds);
    RunAccounted(ended, between);
    var s := Run(ended, between);
    StepAccounted(s, Call(verb, params));
    if s.open {
      WaitsForShutdown(Called(s, verb, params), after, |s.given|);
    } else {
      AnswersAreFinal(Called(s, verb, params), after, |s.given|);
    }
  }

  // ===== The same, in place =====

  class McpServer {
    const name: string
    var next: nat
    var pending: map<RequestId, nat>
    var given: seq<seq<Answer>>
    var open: bool
    var sent: seq<McpFrame>
    var events: seq<FromServer>

    function Value(): Server
      reads this
    {
      Server(name, next, pending, given, open, sent, events)
    }

    constructor (name: string)
      ensures Value() == Spawned(name)
    {
      this.name := name;
      next, pending, given, open, sent, events := 1, map[], [], true, [], [];
    }

    method MakeCall(verb: string, params: Json)
      modifies this
      ensures Value() == Called(old(Value()), verb, params)
    {
      var id, call := Number(next), |given|;
      next := next + 1;
      given := given + [[]];
      pending := pending[id := call];
      if !open {
        pending := pending - {id};
        given := given[call := [Gone(name, "is not running")]];
        return;
      }
      sent := sent + [Request(id, verb, params)];
    }

    method OnLine(f: McpFrame)
      modifies this
      ensures Value() == Heard(old(Value()), f)
    {
      match f {
        case Response(id, answer) =>
          if id in pending {
            var call := pending[id];
            pending := pending - {id};
            given := Given(given, call, answer);
          }
        case Notification(verb, params) =>
          events := events + [Told(verb, params)];
        case Request(id, verb, params) =>
          events := events + [Asked(id, verb, params)];
      }
    }

    method Reply(id: RequestId, answer: Answer)
      modifies this
      ensures Value() == Written(old(Value()), Response(id, answer))
    {
      if open {
        sent := sent + [Response(id, answer)];
      }
    }

    method Tell(verb: string, params: Json)
      modifies this
      ensures Value() == Written(old(Value()), Notification(verb, params))
    {
      if open {
        sent := sent + [Notification(verb, params)];
      }
    }

    // The table is emptied first and its senders told after, in whatever order
    // the table gives them up.
    method FailEverythingPending()
      requires Accounted(Value())
      modifies this
      ensures Value() == Ended(old(Value()))
    {
      ghost var all := pending.Values;
      var waiting := pending;
      pending := map[];
      while waiting != map[]
        invariant waiting.Keys <= old(pending).Keys && forall id | id in waiting :: waiting[id] == old(pending)[id]
        invariant Value() == old(Value()).(pending := map[],
                    given := AllGiven(old(given), all - waiting.Values, Gone(name, "stopped")))
        decreases |waiting|
      {
        var id :| id in waiting;
        var call := waiting[id];
        OneFewer(waiting, id, all, old(given), Gone(name, "stopped"));
        given := Given(given, call, Gone(name, "stopped"));
        waiting := waiting - {id};
      }
      assert all - waiting.Values == all;
    }
  }

  lemma OneFewer(waiting: map<RequestId, nat>, id: RequestId, all: set<nat>, given: seq<seq<Answer>>, answer: Answer)
    requires id in waiting && waiting.Values <= all && waiting[id] < |given|
    requires forall a | a in waiting :: a == Number(waiting[a] + 1)
    ensures (waiting - {id}).Values == waiting.Values - {waiting[id]}
    ensures Given(AllGiven(given, all - waiting.Values, answer), waiting[id], answer)
         == AllGiven(given, all - (waiting - {id}).Values, answer)
    ensures |waiting - {id}| < |waiting|
  {
    var fewer := waiting - {id};
    forall c
      ensures c in fewer.Values <==> c in waiting.Values && c != waiting[id]
    {
      if c in waiting.Values && c != waiting[id] {
        var a :| a in waiting && waiting[a] == c;
        assert a in fewer && fewer[a] == c;
      }
    }
    assert |fewer.Keys| < |waiting.Keys| by {
      assert fewer.Keys == waiting.Keys - {id};
    }
  }
}
