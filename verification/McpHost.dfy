// The MCP servers of one agent: connections the agent opens, and requests a
// server makes, which reach the agent under ids of the host's own.

module McpHosts {
  import opened Wrappers
  import opened ThreadModel
  import opened McpServers
  import Decimal
  import Bridging
  import Relay

  datatype Envelope = Envelope(connection: string, verb: string, params: Json)
  datatype Outgoing = OneWay(envelope: Envelope) | Query(id: RequestId, envelope: Envelope)

  // Which server asked, and under which id of its own.
  datatype Asker = Asker(server: nat, id: RequestId)

  // `connections` names, server by server, the connection it was started for.
  datatype Host = Host(
    configured: set<string>, live: map<string, nat>, awaiting: map<RequestId, Asker>, next: nat,
    servers: seq<Server>, connections: seq<string>, toAgent: seq<Outgoing>)

  function Initially(configured: set<string>): Host {
    Host(configured, map[], map[], 1, [], [], [])
  }

  function ConnectionId(n: nat): string {
    "mcp-" + Decimal.Print(n)
  }

  function AgentId(n: nat): RequestId {
    Name("mjx-mcp-" + Decimal.Print(n))
  }

  function Adjusted(h: Host, k: nat, e: McpServers.Event): Host {
    if k < |h.servers| then h.(servers := h.servers[k := McpServers.Step(h.servers[k], e)]) else h
  }

  // ===== What the agent does =====

  function WithConnect(h: Host, server: string, starts: bool): Host {
    if server !in h.configured || !starts then h
    else
      h.(next := h.next + 1, live := h.live[ConnectionId(h.next) := |h.servers|],
         servers := h.servers + [Spawned(server)], connections := h.connections + [ConnectionId(h.next)])
  }

  function Connected(h: Host, server: string, starts: bool): Option<string> {
    if server !in h.configured || !starts then None else Some(ConnectionId(h.next))
  }

  function WithDisconnect(h: Host, connection: string): Host {
    if connection in h.live then Adjusted(h, h.live[connection], ShutDown).(live := h.live - {connection}) else h
  }

  function WithMessage(h: Host, connection: string, verb: Option<string>, params: Json): Host {
    if connection in h.live && verb.Some? then Adjusted(h, h.live[connection], Call(verb.value, params)) else h
  }

  function WithNotice(h: Host, connection: string, verb: Option<string>, params: Json): Host {
    if connection in h.live && verb.Some? then Adjusted(h, h.live[connection], Tell(verb.value, params)) else h
  }

  // ===== What a server says =====

  // The next thing a server said unprompted is passed on.
  function WithEvent(h: Host, k: nat): Host {
    if k >= |h.servers| || k >= |h.connections| || h.servers[k].events == [] then h
    else
      var e, rest := h.servers[k].events[0], h.servers[k].(events := h.servers[k].events[1..]);
      var taken := h.(servers := h.servers[k := rest]);
      match e
      case Told(verb, params) =>
        taken.(toAgent := h.toAgent + [OneWay(Envelope(h.connections[k], verb, params))])
      case Asked(id, verb, params) =>
        taken.(next := h.next + 1, awaiting := h.awaiting[AgentId(h.next) := Asker(k, id)],
               toAgent := h.toAgent + [Query(AgentId(h.next), Envelope(h.connections[k], verb, params))])
  }

  // ===== What the agent answers =====

  function WithClaim(h: Host, id: RequestId, answer: Answer): Host {
    if Relay.OwnedByName(id) && id in h.awaiting then
      Adjusted(h, h.awaiting[id].server, Reply(h.awaiting[id].id, answer)).(awaiting := h.awaiting - {id})
    else h
  }

  function WithShutdown(h: Host): Host {
    h.(live := map[],
       servers := seq(|h.servers|, k requires 0 <= k < |h.servers| =>
                    if k in h.live.Values then Ended(h.servers[k]) else h.servers[k]))
  }

  // ===== One step =====

  datatype Input =
    | Connect(name: string, starts: bool)
    | Disconnect(connection: string)
    | Messaged(connection: string, verb: Option<string>, params: Json)
    | Noticed(connection: string, verb: Option<string>, params: Json)
    | ServerSays(server: nat, frame: McpFrame)
    | ServerInputCloses(server: nat)
    | ServerStops(server: nat)
    | PassOn(server: nat)
    | AgentAnswers(id: RequestId, answer: Answer)
    | ShutdownAll

  function Step(h: Host, i: Input): Host {
    match i
    case Connect(server, starts) => WithConnect(h, server, starts)
    case Disconnect(connection) => WithDisconnect(h, connection)
    case Messaged(connection, verb, params) => WithMessage(h, connection, verb, params)
    case Noticed(connection, verb, params) => WithNotice(h, connection, verb, params)
    case ServerSays(k, f) => Adjusted(h, k, Line(f))
    case ServerInputCloses(k) => Adjusted(h, k, InputCloses)
    case ServerStops(k) => Adjusted(h, k, OutputEnds)
    case PassOn(k) => WithEvent(h, k)
    case AgentAnswers(id, answer) => WithClaim(h, id, answer)
    case ShutdownAll => WithShutdown(h)
  }

  function Run(h: Host, inputs: seq<Input>): Host {
    if inputs == [] then h else Step(Run(h, inputs[..|inputs| - 1]), inputs[|inputs| - 1])
  }

  // ===== Three id spaces =====

  lemma AgentIdsDiffer(m: nat, n: nat)
    ensures AgentId(m) == AgentId(n) ==> m == n
    ensures Relay.OwnedByName(AgentId(n))
  {
    var p, a, b := "mjx-mcp-", Decimal.Print(m), Decimal.Print(n);
    assert |p| == 8 && (p + b)[..8] == p;
    if AgentId(m) == AgentId(n) {
      assert p + a == p + b;
      assert (p + a)[8..] == a && (p + b)[8..] == b;
      Decimal.PrintInjective(m, n);
    }
  }

  lemma ConnectionIdsDiffer(m: nat, n: nat)
    ensures ConnectionId(m) == ConnectionId(n) ==> m == n
  {
    var p, a, b := "mcp-", Decimal.Print(m), Decimal.Print(n);
    if ConnectionId(m) == ConnectionId(n) {
      assert (p + a)[4..] == a && (p + b)[4..] == b;
      Decimal.PrintInjective(m, n);
    }
  }

  // What the relay leaves to the host by its name is always an id minted here
  // and never one the relay minted for a browser's request, so the host takes
  // no browser's answer and no browser is given the host's.
  lemma IdSpacesAreApart(n: nat, b: Bridging.Bridge)
    ensures Relay.OwnedByName(AgentId(n)) && !Relay.OwnedByName(Bridging.Minted(b))
    ensures AgentId(n) != Bridging.Minted(b)
  {
    AgentIdsDiffer(n, n);
  }

  // Every id waiting for the agent was minted here, below the next one, and
  // every connection belongs to a server that was started for it.
  predicate Sound(h: Host) {
    && |h.connections| == |h.servers|
    && (forall id | id in h.awaiting :: MintedBelow(id, h.next) && h.awaiting[id].server < |h.servers|)
    && (forall c | c in h.live :: h.live[c] < |h.servers| && h.connections[h.live[c]] == c)
    && (forall k | 0 <= k < |h.servers| :: Accounted(h.servers[k]) && ConnectedBelow(h.connections[k], h.next))
    && (forall j, k | 0 <= j < k < |h.servers| :: h.connections[j] != h.connections[k])
  }

  predicate MintedBelow(id: RequestId, next: nat) {
    exists n | 0 <= n < next :: id == AgentId(n)
  }

  predicate ConnectedBelow(connection: string, next: nat) {
    exists n | 0 <= n < next :: connection == ConnectionId(n)
  }

  lemma AdjustedSound(h: Host, k: nat, e: McpServers.Event)
    requires Sound(h)
    ensures Sound(Adjusted(h, k, e)) && Adjusted(h, k, e).awaiting == h.awaiting && Adjusted(h, k, e).next == h.next
    ensures Adjusted(h, k, e).live == h.live && |Adjusted(h, k, e).servers| == |h.servers|
  {
    if k < |h.servers| {
      StepAccounted(h.servers[k], e);
    }
  }

  lemma ConnectSound(h: Host, server: string)
    requires Sound(h) && server in h.configured
    ensures Sound(WithConnect(h, server, true)) && ConnectionId(h.next) !in h.connections
  {
    var h' := WithConnect(h, server, true);
    forall k | 0 <= k < |h.servers|
      ensures h.connections[k] != ConnectionId(h.next) && ConnectedBelow(h.connections[k], h'.next)
    {
      assert ConnectedBelow(h.connections[k], h.next);
      var n :| 0 <= n < h.next && h.connections[k] == ConnectionId(n);
      ConnectionIdsDiffer(n, h.next);
    }
    forall id | id in h'.awaiting
      ensures MintedBelow(id, h'.next)
    {
      assert MintedBelow(id, h.next);
    }
    assert ConnectedBelow(ConnectionId(h.next), h'.next);
  }

  lemma TakenSound(h: Host, k: nat)
    requires Sound(h) && k < |h.servers| && h.servers[k].events != []
    ensures Sound(h.(servers := h.servers[k := h.servers[k].(events := h.servers[k].events[1..])]))
  {
  }

  lemma AwaitingSound(h: Host, k: nat, id: RequestId)
    requires Sound(h) && k < |h.servers|
    ensures Sound(h.(next := h.next + 1, awaiting := h.awaiting[AgentId(h.next) := Asker(k, id)]))
  {
    forall j | 0 <= j < |h.servers|
      ensures ConnectedBelow(h.connections[j], h.next + 1)
    {
      assert ConnectedBelow(h.connections[j], h.next);
    }
    forall other | other in h.awaiting
      ensures MintedBelow(other, h.next + 1)
    {
      assert MintedBelow(other, h.next);
    }
    assert MintedBelow(AgentId(h.next), h.next + 1);
  }

  lemma SaidToAgentSound(h: Host, toAgent: seq<Outgoing>)
    requires Sound(h)
    ensures Sound(h.(toAgent := toAgent))
  {
  }

  lemma EventSound(h: Host, k: nat)
    requires Sound(h)
    ensures Sound(WithEvent(h, k))
  {
    if k < |h.servers| && h.servers[k].events != [] {
      var taken := h.(servers := h.servers[k := h.servers[k].(events := h.servers[k].events[1..])]);
      TakenSound(h, k);
      match h.servers[k].events[0]
      case Told(_, _) => SaidToAgentSound(taken, WithEvent(h, k).toAgent);
      case Asked(id, _, _) =>
        AwaitingSound(taken, k, id);
        SaidToAgentSound(taken.(next := h.next + 1, awaiting := h.awaiting[AgentId(h.next) := Asker(k, id)]),
                         WithEvent(h, k).toAgent);
    }
  }

  lemma DisconnectSound(h: Host, connection: string)
    requires Sound(h)
    ensures Sound(WithDisconnect(h, connection)) && WithDisconnect(h, connection).next == h.next
  {
    if connection in h.live {
      AdjustedSound(h, h.live[connection], ShutDown);
    }
  }

  lemma ClaimSound(h: Host, id: RequestId, answer: Answer)
    requires Sound(h)
    ensures Sound(WithClaim(h, id, answer)) && WithClaim(h, id, answer).next == h.next
  {
    if id in h.awaiting {
      AdjustedSound(h, h.awaiting[id].server, Reply(h.awaiting[id].id, answer));
    }
  }

  lemma ShutdownSound(h: Host)
    requires Sound(h)
    ensures Sound(WithShutdown(h)) && WithShutdown(h).next == h.next
  {
    forall k | 0 <= k < |h.servers|
      ensures Accounted(Ended(h.servers[k]))
    {
      StepAccounted(h.servers[k], ShutDown);
    }
  }

  lemma CarrySound(h: Host, connection: string, verb: Option<string>, params: Json)
    requires Sound(h)
    ensures Sound(WithMessage(h, connection, verb, params)) && WithMessage(h, connection, verb, params).next == h.next
    ensures Sound(WithNotice(h, connection, verb, params)) && WithNotice(h, connection, verb, params).next == h.next
  {
    if connection in h.live && verb.Some? {
      AdjustedSound(h, h.live[connection], Call(verb.value, params));
      AdjustedSound(h, h.live[connection], Tell(verb.value, params));
    }
  }

  lemma StepSound(h: Host, i: Input)
    requires Sound(h)
    ensures Sound(Step(h, i)) && Step(h, i).next >= h.next
  {
    match i
    case Connect(server, starts) =>
      if server in h.configured && starts {
        ConnectSound(h, server);
      }
    case Disconnect(connection) => DisconnectSound(h, connection);
    case Messaged(connection, verb, params) => CarrySound(h, connection, verb, params);
    case Noticed(connection, verb, params) => CarrySound(h, connection, verb, params);
    case ServerSays(k, f) => AdjustedSound(h, k, Line(f));
    case ServerInputCloses(k) => AdjustedSound(h, k, InputCloses);
    case ServerStops(k) => AdjustedSound(h, k, OutputEnds);
    case PassOn(k) => EventSound(h, k);
    case AgentAnswers(id, answer) => ClaimSound(h, id, answer);
    case ShutdownAll => ShutdownSound(h);
  }

  lemma {:induction false} AlwaysSound(configured: set<string>, inputs: seq<Input>)
    ensures Sound(Run(Initially(configured), inputs))
  {
    if inputs != [] {
      AlwaysSound(configured, inputs[..|inputs| - 1]);
      StepSound(Run(Initially(configured), inputs[..|inputs| - 1]), inputs[|inputs| - 1]);
    }
  }

  // ----- A server's request, from its line to its answer -----

  // The server said, at some step of the run, a request under this id of its own.
  predicate SaidBy(inputs: seq<Input>, server: nat, id: RequestId) {
    exists k | 0 <= k < |inputs| ::
      inputs[k].ServerSays? && inputs[k].server == server && inputs[k].frame.Request? && inputs[k].frame.id == id
  }

  lemma SaidByStays(front: seq<Input>, last: Input, server: nat, id: RequestId)
    requires SaidBy(front, server, id)
    ensures SaidBy(front + [last], server, id)
  {
    var k :| 0 <= k < |front| && front[k].ServerSays? && front[k].server == server
             && front[k].frame.Request? && front[k].frame.id == id;
    assert (front + [last])[k] == front[k];
  }

  predicate EventsSaid(inputs: seq<Input>, server: nat, events: seq<FromServer>) {
    forall e | e in events :: e.Asked? ==> SaidBy(inputs, server, e.id)
  }

  // Everything waiting to be passed on or answered was said by that server.
  predicate Traced(inputs: seq<Input>, h: Host) {
    && (forall k | 0 <= k < |h.servers| :: EventsSaid(inputs, k, h.servers[k].events))
    && (forall id | id in h.awaiting :: SaidBy(inputs, h.awaiting[id].server, h.awaiting[id].id))
  }

  lemma EventsStaySaid(front: seq<Input>, last: Input, server: nat, events: seq<FromServer>)
    requires EventsSaid(front, server, events)
    ensures EventsSaid(front + [last], server, events)
  {
    forall e | e in events && e.Asked?
      ensures SaidBy(front + [last], server, e.id)
    {
      SaidByStays(front, last, server, e.id);
    }
  }

  lemma TracedStays(front: seq<Input>, last: Input, h: Host)
    requires Traced(front, h)
    ensures Traced(front + [last], h)
  {
    forall k | 0 <= k < |h.servers|
      ensures EventsSaid(front + [last], k, h.servers[k].events)
    {
      EventsStaySaid(front, last, k, h.servers[k].events);
    }
    forall id | id in h.awaiting
      ensures SaidBy(front + [last], h.awaiting[id].server, h.awaiting[id].id)
    {
      SaidByStays(front, last, h.awaiting[id].server, h.awaiting[id].id);
    }
  }

  lemma LineTraced(front: seq<Input>, h: Host, k: nat, f: McpFrame)
    requires Traced(front, h) && k < |h.servers|
    ensures Traced(front + [ServerSays(k, f)], Adjusted(h, k, Line(f)))
  {
    var inputs := front + [ServerSays(k, f)];
    TracedStays(front, ServerSays(k, f), h);
    assert inputs[|front|] == ServerSays(k, f);
    assert f.Request? ==> SaidBy(inputs, k, f.id);
    assert EventsSaid(inputs, k, Heard(h.servers[k], f).events);
  }

  lemma OtherEventsKept(h: Host, k: nat, e: McpServers.Event)
    requires !e.Line? && k < |h.servers|
    ensures forall j | 0 <= j < |h.servers| :: Adjusted(h, k, e).servers[j].events == h.servers[j].events
  {
  }

  // Nothing but a server's own line adds to what it said.
  predicate NoMoreSaid(h: Host, h': Host) {
    && |h.servers| <= |h'.servers|
    && (forall k | 0 <= k < |h'.servers| ::
          forall e | e in h'.servers[k].events :: k < |h.servers| && e in h.servers[k].events)
    && (forall id | id in h'.awaiting :: (id in h.awaiting && h'.awaiting[id] == h.awaiting[id]) ||
          (h'.awaiting[id].server < |h.servers| &&
           exists e | e in h.servers[h'.awaiting[id].server].events :: e.Asked? && e.id == h'.awaiting[id].id))
  }

  lemma NoMoreSaidTraced(inputs: seq<Input>, h: Host, h': Host)
    requires Traced(inputs, h) && NoMoreSaid(h, h')
    ensures Traced(inputs, h')
  {
    forall k | 0 <= k < |h'.servers|
      ensures EventsSaid(inputs, k, h'.servers[k].events)
    {
      assert k < |h.servers| ==> EventsSaid(inputs, k, h.servers[k].events);
    }
    forall id | id in h'.awaiting
      ensures SaidBy(inputs, h'.awaiting[id].server, h'.awaiting[id].id)
    {
      if !(id in h.awaiting && h'.awaiting[id] == h.awaiting[id]) {
        assert EventsSaid(inputs, h'.awaiting[id].server, h.servers[h'.awaiting[id].server].events);
      }
    }
  }

  lemma AdjustedSaysNoMore(h: Host, k: nat, e: McpServers.Event)
    requires !e.Line?
    ensures NoMoreSaid(h, Adjusted(h, k, e))
  {
    if k < |h.servers| {
      OtherEventsKept(h, k, e);
    }
  }

  lemma EventSaysNoMore(h: Host, k: nat)
    requires Sound(h)
    ensures NoMoreSaid(h, WithEvent(h, k))
  {
    if k < |h.servers| && k < |h.connections| && h.servers[k].events != [] {
      var e := h.servers[k].events[0];
      assert e in h.servers[k].events;
      assert forall x | x in h.servers[k].events[1..] :: x in h.servers[k].events;
    }
  }

  lemma AgentSaysNoMore(h: Host, connection: string, e: McpServers.Event)
    requires !e.Line? && connection in h.live
    ensures NoMoreSaid(h, Adjusted(h, h.live[connection], e))
    ensures NoMoreSaid(h, Adjusted(h, h.live[connection], e).(live := h.live - {connection}))
  {
    AdjustedSaysNoMore(h, h.live[connection], e);
  }

  lemma ClaimSaysNoMore(h: Host, id: RequestId, answer: Answer)
    ensures NoMoreSaid(h, WithClaim(h, id, answer))
  {
    if id in h.awaiting {
      AdjustedSaysNoMore(h, h.awaiting[id].server, Reply(h.awaiting[id].id, answer));
    }
  }

  lemma StepSaysNoMore(h: Host, i: Input)
    requires Sound(h) && !i.ServerSays?
    ensures NoMoreSaid(h, Step(h, i))
  {
    match i
    case Disconnect(c) =>
      if c in h.live {
        AgentSaysNoMore(h, c, ShutDown);
      }
    case Messaged(c, verb, params) =>
      if c in h.live && verb.Some? {
        AgentSaysNoMore(h, c, Call(verb.value, params));
      }
    case Noticed(c, verb, params) =>
      if c in h.live && verb.Some? {
        AgentSaysNoMore(h, c, Tell(verb.value, params));
      }
    case ServerInputCloses(k) => AdjustedSaysNoMore(h, k, InputCloses);
    case ServerStops(k) => AdjustedSaysNoMore(h, k, OutputEnds);
    case PassOn(k) => EventSaysNoMore(h, k);
    case AgentAnswers(id, answer) => ClaimSaysNoMore(h, id, answer);
    case _ =>
  }

  lemma StepTraced(front: seq<Input>, last: Input, h: Host)
    requires Sound(h) && Traced(front, h)
    ensures Traced(front + [last], Step(h, last))
  {
    TracedStays(front, last, h);
    if last.ServerSays? {
      if last.server < |h.servers| {
        LineTraced(front, h, last.server, last.frame);
      }
    } else {
      StepSaysNoMore(h, last);
      NoMoreSaidTraced(front + [last], h, Step(h, last));
    }
  }

  lemma {:induction false} AlwaysTraced(configured: set<string>, inputs: seq<Input>)
    ensures Traced(inputs, Run(Initially(configured), inputs))
  {
    if inputs != [] {
      var front, last := inputs[..|inputs| - 1], inputs[|inputs| - 1];
      AlwaysTraced(configured, front);
      AlwaysSound(configured, front);
      StepTraced(front, last, Run(Initially(configured), front));
      assert inputs == front + [last];
    }
  }

  // The agent's answer reaches exactly the server that asked, under the id it
  // asked with, and that server did ask it.
  lemma AnswerReachesTheAsker(configured: set<string>, inputs: seq<Input>, id: RequestId, answer: Answer)
    ensures var h := Run(Initially(configured), inputs);
            var h' := Step(h, AgentAnswers(id, answer));
            id in h.awaiting ==>
              var asker := h.awaiting[id];
              && SaidBy(inputs, asker.server, asker.id) && asker.server < |h.servers| == |h'.servers|
              && h'.servers[asker.server] == Written(h.servers[asker.server], Response(asker.id, answer))
              && (forall k | 0 <= k < |h.servers| && k != asker.server :: h'.servers[k] == h.servers[k])
              && id !in h'.awaiting
  {
    var h := Run(Initially(configured), inputs);
    AlwaysSound(configured, inputs);
    AlwaysTraced(configured, inputs);
    if id in h.awaiting {
      assert MintedBelow(id, h.next);
      var n :| 0 <= n < h.next && id == AgentId(n);
      AgentIdsDiffer(n, n);
    }
  }

  // ----- At most once -----

  predicate Spent(h: Host, n: nat) {
    Sound(h) && n < h.next && AgentId(n) !in h.awaiting
  }

  lemma StepKeepsSpent(h: Host, i: Input, n: nat)
    requires Spent(h, n)
    ensures Spent(Step(h, i), n)
  {
    StepSound(h, i);
    if i.PassOn? {
      AgentIdsDiffer(n, h.next);
    }
  }

  lemma {:induction false} RunKeepsSpent(h: Host, inputs: seq<Input>, n: nat)
    requires Spent(h, n)
    ensures Spent(Run(h, inputs), n)
  {
    if inputs != [] {
      RunKeepsSpent(h, inputs[..|inputs| - 1], n);
      StepKeepsSpent(Run(h, inputs[..|inputs| - 1]), inputs[|inputs| - 1], n);
    }
  }

  // However often and however late the agent answers again, no server is told.
  lemma AnsweredAtMostOnce(h: Host, n: nat, answer: Answer, inputs: seq<Input>, again: Answer)
    requires Sound(h) && n < h.next
    ensures var later := Run(Step(h, AgentAnswers(AgentId(n), answer)), inputs);
            Step(later, AgentAnswers(AgentId(n), again)) == later
  {
    AgentIdsDiffer(n, n);
    StepSound(h, AgentAnswers(AgentId(n), answer));
    RunKeepsSpent(Step(h, AgentAnswers(AgentId(n), answer)), inputs, n);
  }

  // ----- And it does get there -----

  predicate Unanswered(inputs: seq<Input>, id: RequestId) {
    forall i | i in inputs :: !(i.AgentAnswers? && i.id == id)
  }

  predicate Awaits(h: Host, n: nat, asker: Asker) {
    && Sound(h) && n < h.next && asker.server < |h.servers|
    && AgentId(n) in h.awaiting && h.awaiting[AgentId(n)] == asker
  }

  lemma StepKeepsAwaiting(h: Host, i: Input, n: nat, asker: Asker)
    requires Awaits(h, n, asker) && !(i.AgentAnswers? && i.id == AgentId(n))
    ensures Awaits(Step(h, i), n, asker)
  {
    StepSound(h, i);
    if i.PassOn? {
      AgentIdsDiffer(n, h.next);
    }
  }

  lemma {:induction false} RunKeepsAwaiting(h: Host, inputs: seq<Input>, n: nat, asker: Asker)
    requires Awaits(h, n, asker) && Unanswered(inputs, AgentId(n))
    ensures Awaits(Run(h, inputs), n, asker)
  {
    if inputs != [] {
      var front, last := inputs[..|inputs| - 1], inputs[|inputs| - 1];
      assert Unanswered(front, AgentId(n)) && !(last.AgentAnswers? && last.id == AgentId(n)) by {
        assert last in inputs && forall i | i in front :: i in inputs;
      }
      RunKeepsAwaiting(h, front, n, asker);
      StepKeepsAwaiting(Run(h, front), last, n, asker);
    }
  }

  // A request passed on to the agent is answered to the server that made it, under
  // its own id, whatever happens before the answer comes.
  lemma RequestIsAnswered(h: Host, k: nat, inputs: seq<Input>, answer: Answer)
    requires Sound(h) && k < |h.servers| && k < |h.connections|
    requires h.servers[k].events != [] && h.servers[k].events[0].Asked? && Unanswered(inputs, AgentId(h.next))
    ensures var later := Run(Step(h, PassOn(k)), inputs);
            var answered := Step(later, AgentAnswers(AgentId(h.next), answer));
            && k < |later.servers| == |answered.servers|
            && answered.servers[k] == Written(later.servers[k], Response(h.servers[k].events[0].id, answer))
  {
    var passed, asker := Step(h, PassOn(k)), Asker(k, h.servers[k].events[0].id);
    StepSound(h, PassOn(k));
    RunKeepsAwaiting(passed, inputs, h.next, asker);
    AgentIdsDiffer(h.next, h.next);
  }

  // The ids the host gives out, by the one counter it keeps for both kinds.
  lemma IdsAreSpelt(h: Host, server: string, k: nat)
    ensures server in h.configured ==>
              && Connected(h, server, true) == Some("mcp-" + Decimal.Print(h.next))
              && WithConnect(h, server, true).connections == h.connections + ["mcp-" + Decimal.Print(h.next)]
              && WithConnect(h, server, true).next == h.next + 1
    ensures k < |h.servers| && k < |h.connections| && h.servers[k].events != [] && h.servers[k].events[0].Asked? ==>
              var e, passed := h.servers[k].events[0], WithEvent(h, k);
              && passed.toAgent == h.toAgent + [Query(Name("mjx-mcp-" + Decimal.Print(h.next)),
                                                      Envelope(h.connections[k], e.verb, e.params))]
              && passed.next == h.next + 1
  {
  }

  // The first connection of a host is the first of its numbers, and a server that is
  // not configured, or does not start, gives none.
  lemma FirstConnection(configured: set<string>, server: string, starts: bool, verb: string, params: Json)
    ensures var h := Step(Initially(configured), Connect(server, starts));
            if server in configured && starts then
              && Connected(Initially(configured), server, starts) == Some("mcp-1")
              && h.connections == ["mcp-1"] && |h.servers| == 1 && h.live == map["mcp-1" := 0]
              && h.servers[0].name == server && h.servers[0].pending == map[] && h.servers[0].sent == []
              && Step(h, Messaged("mcp-1", Some(verb), params)).servers[0].sent ==
                   [McpServers.Request(Number(1), verb, params)]
            else Connected(Initially(configured), server, starts) == None && h == Initially(configured)
  {
    assert Decimal.Print(1) == "1" && "mcp-" + "1" == "mcp-1";
    assert ConnectionId(1) == "mcp-1";
  }

  // Shutting down ends every live connection and its server's calls; a server whose
  // connection has gone already is left as it was.
  lemma ShutdownIsForTheLive(h: Host, k: nat)
    requires Sound(h) && k < |h.servers|
    ensures var h' := Step(h, ShutdownAll);
            && h'.live == map[] && |h'.servers| == |h.servers|
            && if h.connections[k] in h.live then
                 && h'.servers[k].pending == map[]
                 && forall c | 0 <= c < |h'.servers[k].given| :: |h'.servers[k].given[c]| == 1
               else h'.servers[k] == h.servers[k]
  {
    if h.connections[k] in h.live {
      assert h.live[h.connections[k]] == k;
      forall c | 0 <= c < |h.servers[k].given|
        ensures |Ended(h.servers[k]).given[c]| == 1
      {
        EndAnswersEveryCall(h.servers[k], c);
      }
    }
  }

  // What the agent says on a live connection reaches that connection's server and no
  // other, as a call under the server's next number or as a notification, while the
  // server is being written to; a message that names no method reaches nobody.
  lemma MessagesAreCarried(h: Host, connection: string, verb: Option<string>, params: Json)
    requires Sound(h)
    ensures var called, told := Step(h, Messaged(connection, verb, params)), Step(h, Noticed(connection, verb, params));
            if connection !in h.live || verb.None? then called == h && told == h
            else
              var k := h.live[connection];
              var s, s' := h.servers[k], called.servers[k];
              && s'.sent == s.sent + (if s.open then [McpServers.Request(Number(s.next), verb.value, params)] else [])
              && |s'.given| == |s.given| + 1 && s'.events == s.events && s'.open == s.open
              && called.servers == h.servers[k := s'] && called.toAgent == h.toAgent
              && told.servers == h.servers[k := s.(sent :=
                     s.sent + if s.open then [McpServers.Notification(verb.value, params)] else [])]
              && told.toAgent == h.toAgent
  {
  }

  // What a server says unasked waits its turn to be told the agent, in order.
  lemma ServersAreHeard(h: Host, k: nat, id: RequestId, verb: string, params: Json)
    requires k < |h.servers|
    ensures var told, asked := Step(h, ServerSays(k, McpServers.Notification(verb, params))),
            Step(h, ServerSays(k, McpServers.Request(id, verb, params)));
            && told.servers == h.servers[k := told.servers[k]] && asked.servers == h.servers[k := asked.servers[k]]
            && told.servers[k].events == h.servers[k].events + [Told(verb, params)]
            && asked.servers[k].events == h.servers[k].events + [Asked(id, verb, params)]
            && told.servers[k].pending == asked.servers[k].pending == h.servers[k].pending
            && told.servers[k].sent == asked.servers[k].sent == h.servers[k].sent
            && told.servers[k].open == asked.servers[k].open == h.servers[k].open
  {
  }

  // A server whose input closes is told nothing more, but what it has been asked
  // already it may still answer;
  lemma ClosingIsNotStopping(h: Host, k: nat, connection: string, verb: string, params: Json, id: RequestId, a: Answer)
    requires Sound(h) && connection in h.live && h.live[connection] == k
    ensures var closed := Step(h, ServerInputCloses(k));
            && closed.servers[k].pending == h.servers[k].pending && closed.servers[k].given == h.servers[k].given
            && Step(closed, Noticed(connection, Some(verb), params)) == closed
            && (id in h.servers[k].pending ==>
                  Step(closed, ServerSays(k, McpServers.Response(id, a))).servers[k].given ==
                    h.servers[k].given[h.servers[k].pending[id] := h.servers[k].given[h.servers[k].pending[id]] + [a]])
  {
  }

  // one that stops answers nobody.
  lemma StoppingAnswersNobody(h: Host, k: nat, id: RequestId, a: Answer)
    requires k < |h.servers|
    ensures var stopped := Step(h, ServerStops(k));
            && stopped.servers[k].pending == map[] && stopped.servers[k].open == h.servers[k].open
            && Step(stopped, ServerSays(k, McpServers.Response(id, a))) == stopped
  {
  }

  // ----- Connections -----

  // Connecting twice gives two connections, and ending one leaves the other as
  // it was.
  lemma ConnectionsAreSeparate(h: Host, server: string)
    requires Sound(h) && server in h.configured
    ensures var a, b := ConnectionId(h.next), ConnectionId(h.next + 1);
            var both := WithConnect(WithConnect(h, server, true), server, true);
            var one := WithDisconnect(both, a);
            && a != b && a in both.live && b in both.live && both.live[a] != both.live[b]
            && a !in one.live && b in one.live && one.live[b] == both.live[b]
            && one.servers[one.live[b]] == both.servers[both.live[b]]
  {
    ConnectionIdsDiffer(h.next, h.next + 1);
    ConnectSound(h, server);
  }

  // ===== The same, in place =====

  // The servers are held by value, each as `McpServers.McpServer` leaves it.
  class McpHost {
    const configured: set<string>
    var live: map<string, nat>
    var awaiting: map<RequestId, Asker>
    var next: nat
    var servers: seq<Server>
    var connections: seq<string>
    var toAgent: seq<Outgoing>

    function Value(): Host
      reads this
    {
      Host(configured, live, awaiting, next, servers, connections, toAgent)
    }

    constructor (configured: set<string>)
      ensures Value() == Initially(configured)
    {
      this.configured := configured;
      live, awaiting, next, servers, connections, toAgent := map[], map[], 1, [], [], [];
    }

    method Connect(server: string, starts: bool) returns (connection: Option<string>)
      modifies this
      ensures Value() == WithConnect(old(Value()), server, starts)
      ensures connection == Connected(old(Value()), server, starts)
    {
      if server !in configured || !starts {
        return None;
      }
      var id := ConnectionId(next);
      next := next + 1;
      live := live[id := |servers|];
      servers, connections := servers + [Spawned(server)], connections + [id];
      return Some(id);
    }

    method Find(connection: string) returns (k: Option<nat>)
      ensures k == if connection in live then Some(live[connection]) else None
    {
      k := if connection in live then Some(live[connection]) else None;
    }

    method Take(connection: string) returns (k: Option<nat>)
      modifies this
      ensures k == if connection in old(live) then Some(old(live)[connection]) else None
      ensures Value() == old(Value()).(live := old(live) - {connection})
    {
      k := if connection in live then Some(live[connection]) else None;
      live := live - {connection};
    }

    method Adjust(k: nat, e: McpServers.Event)
      modifies this
      ensures Value() == Adjusted(old(Value()), k, e)
    {
      if k < |servers| {
        servers := servers[k := McpServers.Step(servers[k], e)];
      }
    }

    method Disconnect(connection: string) returns (ok: bool)
      modifies this
      ensures Value() == WithDisconnect(old(Value()), connection) && ok == (connection in old(live))
    {
      assert connection !in live ==> live - {connection} == live;
      var k := Take(connection);
      if k.None? {
        return false;
      }
      Adjust(k.value, ShutDown);
      return true;
    }

    method CarryMessage(connection: string, verb: Option<string>, params: Json) returns (ok: bool)
      modifies this
      ensures Value() == WithMessage(old(Value()), connection, verb, params)
      ensures ok == (connection in live && verb.Some?)
    {
      var k := Find(connection);
      if k.None? || verb.None? {
        return false;
      }
      Adjust(k.value, Call(verb.value, params));
      return true;
    }

    method ToAgent(k: nat)
      modifies this
      ensures Value() == WithEvent(old(Value()), k)
    {
      if k >= |servers| || k >= |connections| || servers[k].events == [] {
        return;
      }
      var e := servers[k].events[0];
      servers := servers[k := servers[k].(events := servers[k].events[1..])];
      match e {
        case Told(verb, params) =>
          toAgent := toAgent + [OneWay(Envelope(connections[k], verb, params))];
        case Asked(id, verb, params) =>
          var ours := AgentId(next);
          next := next + 1;
          awaiting := awaiting[ours := Asker(k, id)];
          toAgent := toAgent + [Query(ours, Envelope(connections[k], verb, params))];
      }
    }

    method ShutdownAll()
      modifies this
      ensures Value() == WithShutdown(old(Value()))
    {
      var closing := live.Values;
      live := map[];
      for k := 0 to |servers|
        invariant |servers| == |old(servers)| && Value() == old(Value()).(live := map[], servers := servers)
        invariant forall j | 0 <= j < |servers| ::
                    servers[j] == if j < k && j in closing then Ended(old(servers)[j]) else old(servers)[j]
      {
        if k in closing {
          servers := servers[k := Ended(servers[k])];
        }
      }
    }

    method ClaimResponse(id: RequestId, answer: Answer) returns (claimed: bool)
      modifies this
      ensures Value() == WithClaim(old(Value()), id, answer) && claimed == Relay.OwnedByName(id)
    {
      if !id.Name? {
        return false;
      }
      if |id.s| < 8 || id.s[..8] != "mjx-mcp-" {
        return false;
      }
      if id in awaiting {
        var asker := awaiting[id];
        awaiting := awaiting - {id};
        Adjust(asker.server, Reply(asker.id, answer));
      }
      return true;
    }
  }
}
