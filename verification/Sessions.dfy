// What the server knows of each session: its thread, and which requests and
// questions are outstanding on it.

module Sessions {
  import opened Wrappers
  import opened ThreadModel
  import opened Protocol
  import T = ServerThread

  // The requests the browser is waiting on, by what their answers will mean.
  datatype Tables = Tables(
    prompts: map<RequestId, string>, creations: seq<RequestId>, states: map<RequestId, string>,
    forgets: map<RequestId, string>, configs: map<RequestId, string>)

  datatype Store = Store(threads: map<string, T.ThreadState>, tables: Tables, elicitations: map<RequestId, string>)

  const NO_TABLES := Tables(map[], [], map[], map[], map[])
  const EMPTY_STORE := Store(map[], NO_TABLES, map[])

  function ThreadOf(threads: map<string, T.ThreadState>, session: string): T.ThreadState {
    if session in threads then threads[session] else T.EMPTY
  }

  // A table without the requests of one session.
  function Without(table: map<RequestId, string>, session: string): map<RequestId, string> {
    map id | id in table && table[id] != session :: table[id]
  }

  function Removed(ids: seq<RequestId>, id: RequestId): seq<RequestId> {
    if ids == [] then []
    else if ids[0] == id then Removed(ids[1..], id)
    else [ids[0]] + Removed(ids[1..], id)
  }

  function RemovedFirst(ids: seq<RequestId>, id: RequestId): seq<RequestId> {
    if ids == [] then []
    else if ids[0] == id then ids[1..]
    else [ids[0]] + RemovedFirst(ids[1..], id)
  }

  function WithoutRequests(t: Tables, session: string): Tables {
    t.(prompts := Without(t.prompts, session), configs := Without(t.configs, session))
  }

  function Forgotten(s: Store, session: string): Store {
    Store(s.threads - {session}, WithoutRequests(s.tables, session), Without(s.elicitations, session))
  }

  function GivenUp(s: Store, session: string): Store {
    s.(elicitations := Without(s.elicitations, session),
       threads := if session in s.threads
                  then s.threads[session := T.WithCancelled(s.threads[session])] else s.threads)
  }

  // ----- From the browser -----

  // A request enters the one table its method calls for, if it names a session.
  function Entered(t: Tables, f: Frame): Tables
    requires f.Request?
  {
    var session := TypedSession(f);
    match f.verb
    case SessionNew => t.(creations := t.creations + [f.id])
    case SessionFork => t.(creations := t.creations + [f.id])
    case SessionLoad => if session.None? then t else t.(states := t.states[f.id := session.value])
    case SessionResume => if session.None? then t else t.(states := t.states[f.id := session.value])
    case SessionDelete => if session.None? then t else t.(forgets := t.forgets[f.id := session.value])
    case SessionClose => if session.None? then t else t.(forgets := t.forgets[f.id := session.value])
    case SessionSetConfigOption => if session.None? then t else t.(configs := t.configs[f.id := session.value])
    case SessionPrompt => if TypedPrompt(f).None? then t else t.(prompts := t.prompts[f.id := session.value])
    case _ => t
  }

  // A load starts the thread from empty, and a prompt is shown at once.
  function ThreadsAsked(threads: map<string, T.ThreadState>, f: Frame): map<string, T.ThreadState>
    requires f.Request?
  {
    var session := TypedSession(f);
    if f.verb == SessionLoad && session.Some? then threads[session.value := T.EMPTY]
    else if f.verb == SessionPrompt && TypedPrompt(f).Some? then
      threads[session.value := T.WithPrompt(ThreadOf(threads, session.value), TypedPrompt(f).value)]
    else threads
  }

  function Requested(s: Store, f: Frame): Store
    requires f.Request?
  {
    Store(ThreadsAsked(s.threads, f), Entered(s.tables, f),
          if f.verb == SessionLoad && TypedSession(f).Some? then Without(s.elicitations, TypedSession(f).value)
          else s.elicitations)
  }

  function Settlement(p: Payload): (ElicitationState, Option<map<Key, Json>>) {
    match p
    case Error(_, _) => (Declined, None)
    case Result(body) =>
      match body.action
      case Some(Accept(content)) => (Accepted, content)
      case Some(Decline) => (Declined, None)
      case _ => (Cancelled, None)
  }

  function ElicitationAnswered(s: Store, id: RequestId, p: Payload): Store {
    if id !in s.elicitations then s
    else
      var session := s.elicitations[id];
      var removed := s.(elicitations := s.elicitations - {id});
      if session !in s.threads then removed
      else
        var (state, content) := Settlement(p);
        removed.(threads := s.threads[session := T.WithSettled(s.threads[session], id, state, content)])
  }

  function FromClient(s: Store, f: Frame): Store {
    match f
    case Request(_, _, _) => Requested(s, f)
    case Response(id, p) => ElicitationAnswered(s, id, p)
    case Notification(_, _) => s
  }

  // ----- From the agent -----

  function QuestionAsked(s: Store, f: Frame): Store
    requires f.Request?
  {
    var question := TypedQuestion(f);
    if question.None? || !question.value.sessionScoped || TypedSession(f).None? then s
    else
      var q, session := question.value, TypedSession(f).value;
      var asked := s.(threads := s.threads[session :=
        T.WithQuestion(ThreadOf(s.threads, session), f.id, q.message, q.toolCallId, q.mode)]);
      if q.mode.Known? then asked.(elicitations := s.elicitations[f.id := session]) else asked
  }

  // Threads are looked through in the order given, and the first that can take
  // the completion does.
  function CompletedIn(threads: map<string, T.ThreadState>, order: seq<string>, elicitationId: string)
    : map<string, T.ThreadState>
  {
    if order == [] then threads
    else if order[0] in threads && T.CanComplete(threads[order[0]], elicitationId) then
      threads[order[0] := T.WithCompleted(threads[order[0]], elicitationId)]
    else CompletedIn(threads, order[1..], elicitationId)
  }

  function Notified(s: Store, f: Frame, order: seq<string>): Store
    requires f.Notification?
  {
    match f.params
    case None => s
    case Some(params) =>
      if f.verb == ElicitationComplete then
        if params.completes.None? then s
        else s.(threads := CompletedIn(s.threads, order, params.completes.value))
      else if f.verb == SessionUpdate then
        if TypedSession(f).None? || params.update.None? then s
        else
          var session := TypedSession(f).value;
          s.(threads := s.threads[session := T.Folded(ThreadOf(s.threads, session), params.update.value)])
      else s
  }

  function WithStated(t: T.ThreadState, modes: Option<Modes>, options: Option<seq<ConfigOption>>): T.ThreadState {
    T.Step(t, SessionStated(modes, options))
  }

  // The thread a result revises, and what it becomes: each branch reads the
  // result as the answer its table is waiting for.
  function Revised(threads: map<string, T.ThreadState>, t: Tables, id: RequestId, body: Body)
    : Option<(string, T.ThreadState)>
  {
    if id in t.prompts then
      if body.stop.Some? && t.prompts[id] in threads
      then Some((t.prompts[id], T.WithTurnFinished(threads[t.prompts[id]], body.stop.value))) else None
    else if id in t.creations then
      match body.created
      case None => None
      case Some(Created(session, modes, options)) =>
        Some((session, WithStated(ThreadOf(threads, session), modes, options)))
    else if id in t.states then
      if body.stated.Some? && t.states[id] in threads
      then Some((t.states[id], WithStated(threads[t.states[id]], body.stated.value.modes, body.stated.value.options)))
      else None
    else if id in t.forgets then None
    else if id in t.configs then
      if body.options.Some? && t.configs[id] in threads
      then Some((t.configs[id], threads[t.configs[id]].(configOptions := body.options.value))) else None
    else None
  }

  // The session a result forgets, if it is the answer to a delete or a close.
  function ForgottenBy(t: Tables, id: RequestId): Option<string> {
    if id !in t.prompts && id !in t.creations && id !in t.states && id in t.forgets then Some(t.forgets[id]) else None
  }

  // What one result leaves in the tables.
  function Taken(t: Tables, id: RequestId): Tables {
    if id in t.prompts then t.(prompts := t.prompts - {id})
    else if id in t.creations then t.(creations := RemovedFirst(t.creations, id))
    else if id in t.states then t.(states := t.states - {id})
    else if id in t.forgets then WithoutRequests(t.(forgets := t.forgets - {id}), t.forgets[id])
    else if id in t.configs then t.(configs := t.configs - {id})
    else t
  }

  function Succeeded(s: Store, id: RequestId, body: Body): Store {
    var forgotten, revised := ForgottenBy(s.tables, id), Revised(s.threads, s.tables, id, body);
    Store(if forgotten.Some? then s.threads - {forgotten.value}
          else if revised.Some? then s.threads[revised.value.0 := revised.value.1]
          else s.threads,
          Taken(s.tables, id),
          if forgotten.Some? then Without(s.elicitations, forgotten.value) else s.elicitations)
  }

  // And what one error does: every table lets the id go.
  function Dropped(t: Tables, id: RequestId): Tables {
    Tables(t.prompts - {id}, Removed(t.creations, id), t.states - {id}, t.forgets - {id}, t.configs - {id})
  }

  function Failed(s: Store, id: RequestId): Store {
    Store(if id in s.tables.prompts && s.tables.prompts[id] in s.threads then
            s.threads[s.tables.prompts[id] := T.WithTurnFinished(s.threads[s.tables.prompts[id]], StopCancelled)]
          else s.threads,
          Dropped(s.tables, id), s.elicitations)
  }

  function FromAgent(s: Store, f: Frame, order: seq<string>): Store {
    match f
    case Request(_, verb, _) => if verb == ElicitationCreate then QuestionAsked(s, f) else s
    case Notification(_, _) => Notified(s, f, order)
    case Response(id, Result(body)) => Succeeded(s, id, body)
    case Response(id, Error(_, _)) => Failed(s, id)
  }

  class SessionStore {
    var threads: map<string, T.ThreadState>
    var prompts: map<RequestId, string>
    var creations: seq<RequestId>
    var states: map<RequestId, string>
    var forgets: map<RequestId, string>
    var configs: map<RequestId, string>
    var elicitations: map<RequestId, string>

    function Value(): Store
      reads this
    {
      Store(threads, Tables(prompts, creations, states, forgets, configs), elicitations)
    }

    constructor ()
      ensures Value() == EMPTY_STORE
    {
      threads, prompts, creations, states := map[], map[], [], map[];
      forgets, configs, elicitations := map[], map[], map[];
    }

    function SessionOfPrompt(id: RequestId): Option<string>
      reads this
    {
      if id in prompts then Some(prompts[id]) else None
    }

    method CancelPendingElicitations(session: string) returns (cancelled: nat)
      modifies this
      ensures Value() == GivenUp(old(Value()), session)
      ensures cancelled == T.CountPending(ThreadOf(old(threads), session).entries)
    {
      elicitations := Without(elicitations, session);
      cancelled := 0;
      if session in threads {
        cancelled := T.CountPending(threads[session].entries);
        threads := threads[session := T.WithCancelled(threads[session])];
      }
    }

    method Forget(session: string)
      modifies this
      ensures Value() == Forgotten(old(Value()), session)
    {
      threads := threads - {session};
      prompts := Without(prompts, session);
      configs := Without(configs, session);
      elicitations := Without(elicitations, session);
    }

    method ObserveFromClient(f: Frame)
      modifies this
      ensures Value() == FromClient(old(Value()), f)
    {
      match f {
        case Request(_, _, _) => ObserveClientRequest(f);
        case Response(id, p) => ObserveElicitationAnswer(id, p);
        case Notification(_, _) =>
      }
    }

    method ObserveClientRequest(f: Frame)
      requires f.Request?
      modifies this
      ensures Value() == Requested(old(Value()), f)
    {
      var session := TypedSession(f);
      match f.verb {
        case SessionNew => creations := creations + [f.id];
        case SessionFork => creations := creations + [f.id];
        case SessionLoad =>
          if session.Some? {
            threads := threads[session.value := T.EMPTY];
            elicitations := Without(elicitations, session.value);
            states := states[f.id := session.value];
          }
        case SessionResume =>
          if session.Some? { states := states[f.id := session.value]; }
        case SessionDelete =>
          if session.Some? { forgets := forgets[f.id := session.value]; }
        case SessionClose =>
          if session.Some? { forgets := forgets[f.id := session.value]; }
        case SessionSetConfigOption =>
          if session.Some? { configs := configs[f.id := session.value]; }
        case SessionPrompt =>
          var prompt := TypedPrompt(f);
          if session.Some? && prompt.Some? {
            threads := threads[session.value := T.WithPrompt(ThreadOf(threads, session.value), prompt.value)];
            prompts := prompts[f.id := session.value];
          }
        case _ =>
      }
    }

    method ObserveElicitationAnswer(id: RequestId, p: Payload)
      modifies this
      ensures Value() == ElicitationAnswered(old(Value()), id, p)
    {
      if id !in elicitations {
        return;
      }
      var session := elicitations[id];
      elicitations := elicitations - {id};
      if session !in threads {
        return;
      }
      var (state, content) := Settlement(p);
      threads := threads[session := T.WithSettled(threads[session], id, state, content)];
    }

    method ObserveFromAgent(f: Frame, order: seq<string>)
      modifies this
      ensures Value() == FromAgent(old(Value()), f, order)
    {
      match f {
        case Request(_, m, _) =>
          if m == ElicitationCreate { ObserveQuestion(f); }
        case Notification(_, _) => ObserveNotification(f, order);
        case Response(id, Result(body)) => ObserveSuccess(id, body);
        case Response(id, Error(_, _)) => ObserveFailure(id);
      }
    }

    method ObserveQuestion(f: Frame)
      requires f.Request?
      modifies this
      ensures Value() == QuestionAsked(old(Value()), f)
    {
      var question, session := TypedQuestion(f), TypedSession(f);
      if question.None? || !question.value.sessionScoped || session.None? {
        return;
      }
      var q := question.value;
      threads := threads[session.value :=
        T.WithQuestion(ThreadOf(threads, session.value), f.id, q.message, q.toolCallId, q.mode)];
      if q.mode.Known? {
        elicitations := elicitations[f.id := session.value];
      }
    }

    method ObserveNotification(f: Frame, order: seq<string>)
      requires f.Notification?
      modifies this
      ensures Value() == Notified(old(Value()), f, order)
    {
      if f.params.None? {
        return;
      }
      var params := f.params.value;
      if f.verb == ElicitationComplete {
        if params.completes.Some? { Complete(params.completes.value, order); }
      } else if f.verb == SessionUpdate {
        var session := TypedSession(f);
        if session.Some? && params.update.Some? {
          threads := threads[session.value := T.Folded(ThreadOf(threads, session.value), params.update.value)];
        }
      }
    }

    method Complete(elicitationId: string, order: seq<string>)
      modifies this`threads
      ensures threads == CompletedIn(old(threads), order, elicitationId)
    {
      var i := 0;
      while i < |order|
        invariant i <= |order| && threads == old(threads)
        invariant CompletedIn(threads, order, elicitationId) == CompletedIn(threads, order[i..], elicitationId)
      {
        if order[i] in threads && T.CanComplete(threads[order[i]], elicitationId) {
          threads := threads[order[i] := T.WithCompleted(threads[order[i]], elicitationId)];
          return;
        }
        assert order[i..][1..] == order[i + 1..];
        i := i + 1;
      }
    }

    method ObserveSuccess(id: RequestId, body: Body)
      modifies this
      ensures Value() == Succeeded(old(Value()), id, body)
    {
      if id in prompts {
        var session := prompts[id];
        prompts := prompts - {id};
        if body.stop.Some? && session in threads {
          threads := threads[session := T.WithTurnFinished(threads[session], body.stop.value)];
        }
      } else if id in creations {
        creations := RemovedFirst(creations, id);
        if body.created.Some? {
          var c := body.created.value;
          threads := threads[c.sessionId := WithStated(ThreadOf(threads, c.sessionId), c.modes, c.options)];
        }
      } else if id in states {
        var session := states[id];
        states := states - {id};
        if body.stated.Some? && session in threads {
          threads := threads[session := WithStated(threads[session], body.stated.value.modes,
              body.stated.value.options)];
        }
      } else if id in forgets {
        var session := forgets[id];
        forgets := forgets - {id};
        Forget(session);
      } else if id in configs {
        var session := configs[id];
        configs := configs - {id};
        if body.options.Some? && session in threads {
          threads := threads[session := threads[session].(configOptions := body.options.value)];
        }
      }
    }

    method ObserveFailure(id: RequestId)
      modifies this
      ensures Value() == Failed(old(Value()), id)
    {
      if id in prompts {
        if prompts[id] in threads {
          threads := threads[prompts[id] := T.WithTurnFinished(threads[prompts[id]], StopCancelled)];
        }
        prompts := prompts - {id};
      }
      creations := Removed(creations, id);
      configs := configs - {id};
      states := states - {id};
      forgets := forgets - {id};
    }
  }
}
