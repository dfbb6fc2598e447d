// The page: the conversation on its screen, and what it makes of the lines its
// socket gives it.

module Pages {
  import opened Wrappers
  import opened ThreadModel
  import opened Protocol
  import Replay
  import Sessions
  import B = BrowserThread

  // What a page knows of a request it awaits the answer to: what it asked for,
  // and what was on screen when it did.
  datatype Waiting = Waiting(
    verb: Method, target: Option<string>, mode: Option<string>, session: Option<string>, thread: B.ThreadState)

  // `moving` says that the page is between two conversations: it has not found
  // its first, waits to be replayed one, or has left one that is gone. `resumed`
  // is what the server said of the agent, and `recorded` the session to go back
  // to if the one remembered is not there.
  datatype Page = Page(
    session: Option<string>, thread: B.ThreadState, moving: bool, resumed: bool, recorded: Option<string>,
    awaiting: map<RequestId, Waiting>)

  const OPENED := Page(None, B.EMPTY, true, false, None, map[])

  function Put(p: Page, e: Event): Page {
    p.(thread := B.Step(p.thread, e))
  }

  // ----- What it sends -----

  function PromptOf(f: Frame): Option<seq<ContentBlock>> {
    if f.Response? || f.params.None? then None else f.params.value.prompt
  }

  function ModeOf(f: Frame): Option<string> {
    if f.Response? || f.params.None? then None else f.params.value.modeId
  }

  function Awaiting(p: Page, f: Frame): Page
    requires f.Request?
  {
    p.(awaiting := p.awaiting[f.id := Waiting(f.verb, SessionOf(f), ModeOf(f), p.session, p.thread)])
  }

  // What the page folds of its own accord as it sends: a prompt is shown at once,
  // and a question settled as it is answered.
  function SaysSending(f: Frame): Option<Event> {
    match f
    case Request(_, verb, _) => if verb == SessionPrompt && PromptOf(f).Some? then Some(Prompted(PromptOf(f).value))
        else None
    case Response(id, p) =>
      var (state, content) := Sessions.Settlement(p);
      Some(Answered(id, state, content))
    case Notification(_, _) => None
  }

  // A load moves the page before it is answered, and so does asking for a replay.
  function Sent(p: Page, f: Frame): Page {
    if f.Request? && f.verb == SessionLoad && SessionOf(f).Some? then
      Awaiting(p, f).(session := SessionOf(f), thread := B.EMPTY, moving := false, recorded := None)
    else if f.Request? && f.verb == SessionReplay && TypedSession(f).Some? then
      Awaiting(p, f).(session := TypedSession(f))
    else
      var waiting := if f.Request? then Awaiting(p, f) else p;
      if SaysSending(f).Some? then Put(waiting, SaysSending(f).value) else waiting
  }

  // ----- What it hears -----

  // A request it is sent: a question, a permission prompt, or nothing on the
  // timeline. It does not look which session asks.
  function ShownBy(f: Frame): Option<Event> {
    if f.Request? && f.verb == ElicitationCreate && TypedQuestion(f).Some? then
      var q := TypedQuestion(f).value;
      Some(Questioned(f.id, q.message, q.toolCallId, q.mode))
    else if f.Request? && f.verb == RequestPermission && f.params.Some? && f.params.value.permission.Some? then
      var p := f.params.value.permission.value;
      Some(PermissionAsked(p.toolCallId, p.request, p.title))
    else None
  }

  // A notification: an update of the session on screen, or a completion, whose
  // session it does not look for.
  function NoticedBy(p: Page, f: Frame): Option<Event>
    requires f.Notification?
  {
    if f.params.None? then None
    else if f.verb == ElicitationComplete && f.params.value.completes.Some?
        then Some(Completed(f.params.value.completes.value))
    else if f.verb == SessionUpdate && TypedSession(f).Some? && TypedSession(f) == p.session
        && f.params.value.update.Some? then
      Some(Updated(f.params.value.update.value))
    else None
  }

  // The reason made out of the text of an answer or a notice.
  function ShownReason(text: Option<string>): Option<StopReason> {
    match text
    case Some("end_turn") => Some(EndTurn)
    case Some("max_tokens") => Some(MaxTokens)
    case Some("max_turn_requests") => Some(MaxTurnRequests)
    case Some("refusal") => Some(Refusal)
    case Some("cancelled") => Some(StopCancelled)
    case _ => None
  }

  // What an answer adds to the thread on screen, whichever that is by then.
  function AnsweredBy(w: Waiting, payload: Payload): Option<Event> {
    match payload
    case Error(_, _) => if w.verb == SessionPrompt then Some(TurnFailed) else None
    case Result(body) =>
      match w.verb
      case SessionPrompt => Some(TurnUnread(ShownReason(body.stopText)))
      case SessionLoad => if body.stated.Some?
          then Some(SessionStated(body.stated.value.modes, body.stated.value.options)) else None
      case SessionSetConfigOption => Some(SessionStated(None, Some(OrElse(body.options, []))))
      case SessionSetMode => if w.mode.Some? then Some(ModeSwitched(w.mode.value)) else None
      case _ => None
  }

  // An answer that takes the page elsewhere: a session made, one resumed, a load
  // that failed, or the session on screen deleted or closed.
  predicate Takes(p: Page, w: Waiting, payload: Payload) {
    match payload
    case Error(_, _) => w.verb == SessionLoad && w.target.Some?
    case Result(body) =>
      || ((w.verb == SessionNew || w.verb == SessionFork) && body.created.Some?)
      || (w.verb == SessionResume && w.target.Some?)
      || ((w.verb == SessionDelete || w.verb == SessionClose) && w.target.Some? && w.target == p.session)
  }

  // The request a page makes as it connects, before it shows any session.
  predicate Connects(w: Waiting) {
    w.verb == SessionNew && w.session.None?
  }

  // The thread a session just made or resumed is stated onto.
  function Ground(p: Page, w: Waiting): B.ThreadState {
    if Connects(w) then p.thread else B.EMPTY
  }

  function Taken(p: Page, w: Waiting, payload: Payload): Page
    requires Takes(p, w, payload)
  {
    match payload
    case Error(_, _) =>
      p.(session := if w.session.Some? then w.session
          else p.session, thread := w.thread, moving := w.session.None?, recorded := None)
    case Result(body) =>
      if w.verb == SessionNew || w.verb == SessionFork then
        var made := body.created.value;
        var again := Connects(w) && p.resumed;
        p.(session := Some(made.sessionId), thread := B.Step(Ground(p, w), SessionStated(made.modes, made.options)),
           moving := again, recorded := if again then Some(made.sessionId) else None)
      else if w.verb == SessionResume then
        var stated := OrElse(body.stated, Stated(None, None));
        p.(session := w.target, thread := B.Step(B.EMPTY, SessionStated(stated.modes, stated.options)),
           moving := true, recorded := None)
      else p.(moving := true)
  }

  // The thread that comes back replaces the one on screen. If none does, the page
  // keeps what it has, unless there is another session to try.
  function Rebuilt(p: Page, thread: Json): Page {
    match Replay.ThreadFromReplay(thread)
    case Some(t) => p.(thread := t, moving := p.session.None?, recorded := None)
    case None =>
      if p.recorded.Some? && p.recorded != p.session then p.(moving := true)
      else p.(moving := p.session.None?, recorded := None)
  }

  // What a line adds to the thread on screen. A turn's end is folded there too,
  // whichever session's turn it was.
  function Says(p: Page, line: Line): Option<Event> {
    match line
    case Wire(Request(id, verb, params)) => ShownBy(Request(id, verb, params))
    case Wire(Notification(verb, params)) => NoticedBy(p, Notification(verb, params))
    case Wire(Response(id, payload)) => if id in p.awaiting then AnsweredBy(p.awaiting[id], payload) else None
    case Notify(TurnOver(_, text)) => Some(TurnUnread(ShownReason(Some(text))))
    case _ => None
  }

  function Heard(p: Page, line: Line): Page {
    match line
    case Wire(Response(id, payload)) =>
      if id !in p.awaiting then p
      else
        var q := p.(awaiting := p.awaiting - {id});
        if Takes(p, p.awaiting[id], payload) then Taken(q, p.awaiting[id], payload) else Adding(q, Says(p, line))
    case Replayed(id, thread) =>
      if id !in p.awaiting then p else Rebuilt(p.(awaiting := p.awaiting - {id}), thread)
    case Notify(AgentInfo(resumed)) => p.(resumed := resumed)
    case _ => Adding(p, Says(p, line))
  }

  function Adding(p: Page, said: Option<Event>): Page {
    if said.Some? then Put(p, said.value) else p
  }

  function HeardAll(p: Page, lines: seq<Line>): Page {
    if lines == [] then p else Heard(HeardAll(p, lines[..|lines| - 1]), lines[|lines| - 1])
  }

  // ===== The same, in place =====

  class Session {
    var session: Option<string>
    var thread: B.ThreadState
    var moving: bool
    var resumed: bool
    var recorded: Option<string>
    var awaiting: map<RequestId, Waiting>

    function Value(): Page
      reads this
    {
      Page(session, thread, moving, resumed, recorded, awaiting)
    }

    constructor ()
      ensures Value() == OPENED
    {
      session, thread, moving, resumed, recorded, awaiting := None, B.EMPTY, true, false, None, map[];
    }

    method Update(e: Event)
      modifies this`thread
      ensures Value() == Put(old(Value()), e)
    {
      thread := B.Step(thread, e);
    }

    method Show(session: Option<string>, thread: B.ThreadState, moving: bool)
      modifies this
      ensures Value() == old(Value()).(session := session, thread := thread, moving := moving, recorded := None)
    {
      this.session, this.thread, this.moving, recorded := session, thread, moving, None;
    }

    method Send(f: Frame)
      modifies this
      ensures Value() == Sent(old(Value()), f)
    {
      if f.Request? {
        awaiting := awaiting[f.id := Waiting(f.verb, SessionOf(f), ModeOf(f), session, thread)];
        if f.verb == SessionLoad && SessionOf(f).Some? {
          Show(SessionOf(f), B.EMPTY, false);
          return;
        }
        if f.verb == SessionReplay && TypedSession(f).Some? {
          session := TypedSession(f);
          return;
        }
      }
      var said := SaysSending(f);
      if said.Some? {
        Update(said.value);
      }
    }

    method Hear(line: Line)
      modifies this
      ensures Value() == Heard(old(Value()), line)
    {
      match line {
        case Wire(Response(id, payload)) => HearAnswer(id, payload);
        case Replayed(id, json) => HearReplay(id, json);
        case Notify(AgentInfo(again)) => resumed := again;
        case Notify(TurnOver(_, text)) => Update(TurnUnread(ShownReason(Some(text))));
        case Wire(f) =>
          if Says(Value(), line).Some? {
            Update(Says(Value(), line).value);
          }
        case _ =>
      }
    }

    method HearAnswer(id: RequestId, payload: Payload)
      modifies this
      ensures Value() == Heard(old(Value()), Wire(Response(id, payload)))
    {
      if id !in awaiting {
        return;
      }
      var w := awaiting[id];
      var takes := Takes(Value(), w, payload);
      awaiting := awaiting - {id};
      if takes {
        Move(w, payload);
      } else if AnsweredBy(w, payload).Some? {
        Update(AnsweredBy(w, payload).value);
      }
    }

    method Move(w: Waiting, payload: Payload)
      requires Takes(Value(), w, payload)
      modifies this
      ensures Value() == Taken(old(Value()), w, payload)
    {
      match payload {
        case Error(_, _) =>
          Show(if w.session.Some? then w.session else session, w.thread, w.session.None?);
        case Result(body) =>
          if w.verb == SessionNew || w.verb == SessionFork {
            var made, again := body.created.value, Connects(w) && resumed;
            Show(Some(made.sessionId), Ground(Value(), w), again);
            Update(SessionStated(made.modes, made.options));
            recorded := if again then Some(made.sessionId) else None;
          } else if w.verb == SessionResume {
            var stated := OrElse(body.stated, Stated(None, None));
            Show(w.target, B.EMPTY, true);
            Update(SessionStated(stated.modes, stated.options));
          } else {
            moving := true;
          }
      }
    }

    method HearReplay(id: RequestId, json: Json)
      modifies this
      ensures Value() == Heard(old(Value()), Replayed(id, json))
    {
      if id !in awaiting {
        return;
      }
      awaiting := awaiting - {id};
      match Replay.ThreadFromReplay(json) {
        case Some(t) => Show(session, t, session.None?);
        case None =>
          if recorded.Some? && recorded != session {
            moving := true;
          } else {
            moving, recorded := session.None?, None;
          }
      }
    }
  }
}
