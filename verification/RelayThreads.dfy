// Each stored thread is the fold of what the session store took in for its session.

module RelayThreads {
  import opened Wrappers
  import opened ThreadModel
  import opened Protocol
  import opened Relay
  import opened Pages
  import opened RelayTables
  import Offering
  import Sessions
  import S = ServerThread

  // What one step of the relay means for the thread stored for one session.
  datatype News = Nothing | StartsOver | Forgets | Said(event: Event)

  // ----- From the browser -----

  function ToldByClient(store: Sessions.Store, f: Frame, session: string): News {
    match f
    case Request(_, verb, _) =>
      if TypedSession(f) != Some(session) then Nothing
      else if verb == SessionLoad then StartsOver
      else if verb == SessionPrompt && TypedPrompt(f).Some? then Said(Prompted(TypedPrompt(f).value))
      else Nothing
    case Response(id, p) =>
      if id in store.elicitations && store.elicitations[id] == session && session in store.threads then
        var (state, content) := Sessions.Settlement(p);
        Said(Answered(id, state, content))
      else Nothing
    case Notification(_, _) => Nothing
  }

  // ----- From the agent -----

  function TurnEnd(p: Payload): Event {
    match p
    case Error(_, _) => TurnFailed
    case Result(body) => if body.stop.Some? then TurnEnded(body.stop.value) else TurnUnread(ShownReason(body.stopText))
  }

  // The thread that takes a completion: the first in the table's order that can.
  function Completes(threads: map<string, S.ThreadState>, order: seq<string>, elicitationId: string): Option<string> {
    if order == [] then None
    else if order[0] in threads && S.CanComplete(threads[order[0]], elicitationId) then Some(order[0])
    else Completes(threads, order[1..], elicitationId)
  }

  function ToldByRequest(f: Frame, session: string): News
    requires f.Request?
  {
    if TypedSession(f) != Some(session) then Nothing
    else if f.verb == ElicitationCreate && TypedQuestion(f).Some? && TypedQuestion(f).value.sessionScoped then
      var q := TypedQuestion(f).value;
      Said(Questioned(f.id, q.message, q.toolCallId, q.mode))
    else Nothing
  }

  function ToldByNotification(store: Sessions.Store, f: Frame, order: seq<string>, session: string): News
    requires f.Notification?
  {
    match f.params
    case None => Nothing
    case Some(params) =>
      if f.verb == ElicitationComplete then
        if params.completes.Some? && Completes(store.threads, order, params.completes.value) == Some(session)
        then Said(Completed(params.completes.value)) else Nothing
      else if f.verb == SessionUpdate && TypedSession(f) == Some(session) && params.update.Some? then
        Said(Updated(params.update.value))
      else Nothing
  }

  function ToldByResult(store: Sessions.Store, id: RequestId, body: Body, session: string): News {
    var t := store.tables;
    if id in t.creations then
      match body.created
      case Some(Created(created, modes, options)) => if created == session then Said(SessionStated(modes, options))
          else Nothing
      case None => Nothing
    else if id in t.states then
      if t.states[id] == session && session in store.threads && body.stated.Some?
      then Said(SessionStated(body.stated.value.modes, body.stated.value.options)) else Nothing
    else if id in t.forgets then if t.forgets[id] == session then Forgets else Nothing
    else if id in t.configs then
      if t.configs[id] == session && session in store.threads && body.options.Some?
      then Said(SessionStated(None, Some(body.options.value))) else Nothing
    else Nothing
  }

  function ToldByAgent(store: Sessions.Store, f: Frame, order: seq<string>, session: string): News {
    match f
    case Request(_, _, _) => ToldByRequest(f, session)
    case Notification(_, _) => ToldByNotification(store, f, order, session)
    case Response(id, p) =>
      if id in store.tables.prompts then
        if store.tables.prompts[id] == session && session in store.threads then Said(TurnEnd(p)) else Nothing
      else if p.Result? then ToldByResult(store, id, p.body, session)
      else Nothing
  }

  // ----- A whole run -----

  function Told(s: State, i: Input, session: string): News {
    match i
    case ClientFrame(_, f) => if Relays(s, f) then ToldByClient(s.store, Presented(s, f), session) else Nothing
    case AgentFrame(f, order) => ToldByAgent(s.store, f, order, session)
    case _ => Nothing
  }

  function Grown(before: Option<seq<Event>>, news: News): Option<seq<Event>> {
    match news
    case Nothing => before
    case StartsOver => Some([])
    case Forgets => None
    case Said(e) => Some(OrElse(before, []) + [e])
  }

  // What was taken in for the session since it was last loaded, if it has a thread.
  function TakenIn(servers: seq<Offering.Server>, inputs: seq<Input>, session: string): Option<seq<Event>> {
    if inputs == [] then None
    else
      var front, last := inputs[..|inputs| - 1], inputs[|inputs| - 1];
      Grown(TakenIn(servers, front, session), Told(Run(Initially(servers), front), last, session))
  }

  // What a step leaves of the table is what it tells.
  predicate Follows(before: map<string, S.ThreadState>, after: map<string, S.ThreadState>, session: string,
                    news: News) {
    match news
    case Nothing => if session in before then session in after && after[session] == before[session]
        else session !in after
    case StartsOver => session in after && after[session] == S.EMPTY
    case Forgets => session !in after
    case Said(e) => session in after && after[session] == S.Step(Sessions.ThreadOf(before, session), e)
  }

  lemma ClientFollows(store: Sessions.Store, f: Frame, session: string)
    ensures Follows(store.threads, Sessions.FromClient(store, f).threads, session, ToldByClient(store, f, session))
  {
  }

  lemma {:induction false} CompletionFollows(threads: map<string, S.ThreadState>, order: seq<string>, id: string,
                                             session: string)
    ensures Follows(threads, Sessions.CompletedIn(threads, order, id), session,
                    if Completes(threads, order, id) == Some(session) then Said(Completed(id)) else Nothing)
  {
    if order != [] && !(order[0] in threads && S.CanComplete(threads[order[0]], id)) {
      CompletionFollows(threads, order[1..], id, session);
    }
  }

  lemma NotificationFollows(store: Sessions.Store, f: Frame, order: seq<string>, session: string)
    requires f.Notification?
    ensures Follows(store.threads, Sessions.Notified(store, f, order).threads, session,
            ToldByNotification(store, f, order, session))
  {
    if f.params.Some? && f.verb == ElicitationComplete && f.params.value.completes.Some? {
      CompletionFollows(store.threads, order, f.params.value.completes.value, session);
    }
  }

  lemma ResultFollows(store: Sessions.Store, id: RequestId, body: Body, session: string)
    requires id !in store.tables.prompts
    ensures Follows(store.threads, Sessions.Succeeded(store, id, body).threads, session,
            ToldByResult(store, id, body, session))
  {
  }

  lemma TurnEndFollows(store: Sessions.Store, id: RequestId, p: Payload, session: string)
    requires id in store.tables.prompts
    ensures var ended := store.tables.prompts[id];
            Follows(store.threads, Sessions.GivenUp(Sessions.FromAgent(store, Response(id, p), []), ended).threads,
                session,
                    if ended == session && session in store.threads then Said(TurnEnd(p)) else Nothing)
  {
    PromptAnswered(store, id, p);
  }

  lemma AnswerFollows(s: State, f: Frame, order: seq<string>, session: string)
    requires Consistent(s) && f.Response?
    ensures Follows(s.store.threads, AgentStore(s, f, order).threads, session, ToldByAgent(s.store, f, order, session))
  {
    if f.id in s.store.tables.prompts {
      TurnEndFollows(s.store, f.id, f.payload, session);
    } else if f.payload.Result? {
      ResultFollows(s.store, f.id, f.payload.body, session);
    }
  }

  lemma AgentFollows(s: State, f: Frame, order: seq<string>, session: string)
    requires Consistent(s)
    ensures Follows(s.store.threads, AgentStore(s, f, order).threads, session, ToldByAgent(s.store, f, order, session))
  {
    match f
    case Request(_, _, _) =>
    case Notification(_, _) => NotificationFollows(s.store, f, order, session);
    case Response(_, _) => AnswerFollows(s, f, order, session);
  }

  lemma StepFollows(s: State, i: Input, session: string)
    requires Consistent(s)
    ensures Follows(s.store.threads, Step(s, i).store.threads, session, Told(s, i, session))
  {
    match i
    case ClientFrame(_, f) =>
      if Relays(s, f) {
        RelayedParts(s, f);
        ClientFollows(s.store, Presented(s, f), session);
      } else {
        StoppedParts(s, f);
      }
    case AgentFrame(f, order) =>
      AgentFrameParts(s, f, order);
      AgentFollows(s, f, order, session);
    case _ =>
  }

  // After any run a session has a thread exactly when something was taken in for
  // it, and the thread is the fold of that.
  lemma {:induction false} ThreadIsTheFold(servers: seq<Offering.Server>, inputs: seq<Input>, session: string)
    ensures var s, heard := Run(Initially(servers), inputs), TakenIn(servers, inputs, session);
            && (session in s.store.threads <==> heard.Some?)
            && (heard.Some? ==> s.store.threads[session] == S.Run(S.EMPTY, heard.value))
  {
    if inputs != [] {
      var front, last := inputs[..|inputs| - 1], inputs[|inputs| - 1];
      var s, before := Run(Initially(servers), front), TakenIn(servers, front, session);
      ThreadIsTheFold(servers, front, session);
      AlwaysConsistent(servers, front);
      StepFollows(s, last, session);
      var news := Told(s, last, session);
      if news.Said? {
        var events := OrElse(before, []);
        assert (events + [news.event])[..|events|] == events;
      }
    }
  }
}
