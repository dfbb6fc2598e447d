// How the MCP servers configured here get into a session's list of servers.

module Offering {
  import opened Wrappers
  import opened Protocol

  datatype Kind = Stdio | Http | Sse | OverAcp
  datatype Server = Server(name: string, kind: Kind, available: bool)

  // Some server is held here, for the agent to reach through the protocol itself.
  predicate Hosts(servers: seq<Server>) {
    exists i | 0 <= i < |servers| :: servers[i].kind == OverAcp && servers[i].available
  }

  // Every agent takes a server it is to spawn itself; the rest it must have asked for.
  predicate CanOffer(server: Server, t: Transports) {
    server.available &&
    match server.kind
    case Stdio => true
    case Http => t.http
    case Sse => t.sse
    case OverAcp => t.acp
  }

  predicate OpensSession(m: Method) {
    m == SessionNew || m == SessionLoad || m == SessionFork || m == SessionResume
  }

  // The configured servers to add, by name, to those the client declared.
  function Added(servers: seq<Server>, declared: seq<string>, t: Transports): seq<string> {
    if servers == [] then []
    else
      var last := servers[|servers| - 1];
      Added(servers[..|servers| - 1], declared, t) +
      if last.name !in declared && CanOffer(last, t) then [last.name] else []
  }

  function Merged(f: Frame, servers: seq<Server>, t: Transports): Frame {
    if !f.Request? || !OpensSession(f.verb) then f
    else
      var params := if f.params.Some? then f.params.value else NO_PARAMS;
      if !params.isObject || params.servers.None? then f
      else
        var added := Added(servers, params.servers.value, t);
        if added == [] then f
        else Request(f.id, f.verb, Some(params.(servers := Some(params.servers.value + added),
            typed := params.typedWithServers)))
  }

  // The same frame but for the servers it lists.
  predicate SameButServers(sent: Frame, f: Frame) {
    sent == f ||
    (f.Request? && sent.Request? && OpensSession(f.verb) && sent.id == f.id && sent.verb == f.verb
        && sent.params.Some? &&
     var params := if f.params.Some? then f.params.value else NO_PARAMS;
     sent.params.value == params.(servers := sent.params.value.servers, typed := sent.params.value.typed))
  }

  lemma {:induction false} AddedIs(servers: seq<Server>, declared: seq<string>, t: Transports, name: string)
    ensures name in Added(servers, declared, t) <==>
              (name !in declared && exists server | server in servers :: server.name == name && CanOffer(server, t))
  {
    if servers != [] {
      var front, last := servers[..|servers| - 1], servers[|servers| - 1];
      AddedIs(front, declared, t, name);
      assert servers == front + [last];
    }
  }

  // A request that opens a session, and lists servers at all, reaches the agent
  // listing what the client declared, in its order, and after it exactly the
  // configured servers this agent can be offered that the client did not name.
  lemma MergedOffersAll(f: Frame, servers: seq<Server>, t: Transports, name: string)
    requires f.Request? && OpensSession(f.verb)
    requires var params := if f.params.Some? then f.params.value else NO_PARAMS; params.isObject && params.servers.Some?
    ensures var declared := (if f.params.Some? then f.params.value else NO_PARAMS).servers.value;
            var sent := Merged(f, servers, t);
            var listed := if sent.params.Some? then sent.params.value.servers.value else declared;
            && declared <= listed && SameButServers(sent, f)
            && (name in listed <==>
                  (name in declared || exists server | server in servers :: server.name == name && CanOffer(server, t)))
  {
    var declared := (if f.params.Some? then f.params.value else NO_PARAMS).servers.value;
    AddedIs(servers, declared, t, name);
  }

  // Anything else passes as it came.
  lemma MergedLeavesTheRest(f: Frame, servers: seq<Server>, t: Transports)
    ensures SameButServers(Merged(f, servers, t), f)
    ensures !(f.Request? && OpensSession(f.verb)) || servers == [] ==> Merged(f, servers, t) == f
  {
  }
}
