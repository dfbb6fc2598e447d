// What only one side hears: a page folds more than the server does for the
// session on its screen, and the server, now and then, more than the page.

module LoneLaws {
  import opened Wrappers
  import opened ThreadModel
  import opened ReloadLaws
  import S = ServerThread
  import B = BrowserThread

  predicate OpenQuestion(entries: seq<S.Entry>) {
    exists i | 0 <= i < |entries| :: S.IsPending(entries[i])
  }

  predicate OpenFor(entries: seq<S.Entry>, requestId: RequestId) {
    exists i | 0 <= i < |entries| :: S.PendingFor(entries[i], requestId)
  }

  predicate OpenUrl(entries: seq<S.Entry>, elicitationId: string) {
    exists i | 0 <= i < |entries| :: S.PendingUrl(entries[i], elicitationId)
  }

  function QuestionAt(entries: seq<S.Entry>, requestId: RequestId): nat {
    S.First(entries, (x: S.Entry) => x.Asked? && x.asked.requestId == requestId)
  }

  // The first question put under this id is this one, and still open.
  predicate ShowsQuestion(entries: seq<S.Entry>, e: Event)
    requires e.Questioned? && e.mode.Known?
  {
    var i := QuestionAt(entries, e.requestId);
    i < |entries| &&
    entries[i].asked.(id := "") == Elicitation("", e.requestId, e.message, e.toolCallId, e.mode.mode, Pending, None)
  }

  // A thread over, with nothing open on it, for this reason.
  predicate AtRest(t: S.ThreadState, reason: Option<StopReason>) {
    t.status == Idle && t.stopReason == reason && !OpenQuestion(t.entries)
  }

  // An event that would leave the thread showing what it shows.
  predicate Unmoved(t: S.ThreadState, e: Event) {
    match e
    case Prompted(_) => false
    case Updated(_) => false
    case Questioned(_, _, _, mode) => mode.Unknown? || ShowsQuestion(t.entries, e)
    case Answered(answers, _, _) => !OpenFor(t.entries, answers)
    case Completed(elicitationId) => !OpenUrl(t.entries, elicitationId)
    case TurnEnded(reason) => AtRest(t, Some(reason))
    case TurnFailed => AtRest(t, t.stopReason)
    case TurnUnread(shown) => AtRest(t, shown)
    case SessionStated(modes, options) =>
      (modes.Some? ==> t.modes == modes) && (options.Some? ==> t.configOptions == options.value)
    case PermissionAsked(call, _, _) => S.IndexOfCall(t.entries, call) < |t.entries|
    case PermissionCleared(_) => true
    case ModeSwitched(chosen) => t.modes.Some? ==> t.modes.value.currentModeId == chosen
  }

  // Entry by entry: the event reaches this one.
  predicate Reaches(e: Event, x: S.Entry) {
    match e
    case Answered(answers, _, _) => S.PendingFor(x, answers)
    case Completed(elicitationId) => S.PendingUrl(x, elicitationId)
    case TurnEnded(_) => S.IsPending(x)
    case TurnFailed => S.IsPending(x)
    case TurnUnread(_) => S.IsPending(x)
    case _ => false
  }

  lemma ReachedAt(t: S.ThreadState, b: B.ThreadState, e: Event, i: nat)
    requires ThreadsAlike(t, b) && i < |t.entries|
    requires e.Answered? || e.Completed? || e.TurnEnded? || e.TurnFailed? || e.TurnUnread?
    ensures |B.Step(b, e).entries| == |t.entries|
    ensures Alike(t.entries[i], B.Step(b, e).entries[i], i) <==> !Reaches(e, t.entries[i])
  {
    assert Alike(t.entries[i], b.entries[i], i);
  }

  lemma LoneRevision(t: S.ThreadState, b: B.ThreadState, e: Event)
    requires ThreadsAlike(t, b)
    requires e.Answered? || e.Completed? || e.TurnEnded? || e.TurnFailed? || e.TurnUnread?
    ensures ThreadsAlike(t, B.Step(b, e)) <==> Unmoved(t, e)
  {
    forall i | 0 <= i < |t.entries|
      ensures Alike(t.entries[i], B.Step(b, e).entries[i], i) <==> !Reaches(e, t.entries[i])
    {
      ReachedAt(t, b, e, i);
    }
    if i :| 0 <= i < |t.entries| && Reaches(e, t.entries[i]) {
      assert !Alike(t.entries[i], B.Step(b, e).entries[i], i);
    }
  }

  lemma SameQuestion(t: S.ThreadState, b: B.ThreadState, requestId: RequestId)
    requires ThreadsAlike(t, b)
    ensures B.IndexOfQuestion(b.entries, requestId) == QuestionAt(t.entries, requestId)
  {
    forall i | 0 <= i < |b.entries|
      ensures B.IsQuestion(b.entries[i], requestId) <==>
              t.entries[i].Asked? && t.entries[i].asked.requestId == requestId
    {
      assert Alike(t.entries[i], b.entries[i], i);
    }
  }

  lemma LoneQuestion(t: S.ThreadState, b: B.ThreadState, e: Event)
    requires ThreadsAlike(t, b) && e.Questioned?
    ensures ThreadsAlike(t, B.Step(b, e)) <==> Unmoved(t, e)
  {
    if e.mode.Known? {
      SameQuestion(t, b, e.requestId);
      var i, b' := B.IndexOfQuestion(b.entries, e.requestId), B.Step(b, e);
      if i < |b.entries| {
        assert Alike(t.entries[i], b.entries[i], i);
        assert forall k | 0 <= k < |b.entries| && k != i :: b'.entries[k] == b.entries[k];
        assert Alike(t.entries[i], b'.entries[i], i) <==> ShowsQuestion(t.entries, e);
      } else {
        assert |b'.entries| == |b.entries| + 1;
      }
    }
  }

  lemma LonePermission(t: S.ThreadState, b: B.ThreadState, e: Event)
    requires ThreadsAlike(t, b) && (e.PermissionAsked? || e.PermissionCleared?)
    ensures ThreadsAlike(t, B.Step(b, e)) <==> Unmoved(t, e)
  {
    PermissionAlike(t, b, e);
  }

  lemma LonePrompt(t: S.ThreadState, b: B.ThreadState, e: Event)
    requires ThreadsAlike(t, b) && e.Prompted?
    ensures !ThreadsAlike(t, B.Step(b, e))
  {
    assert |B.Step(b, e).entries| == |t.entries| + 1;
  }

  // Heard by the page alone, an event leaves the two showing the same exactly
  // when it would show nothing new.
  lemma LoneAlike(t: S.ThreadState, b: B.ThreadState, e: Event)
    requires ThreadsAlike(t, b) && !e.Updated?
    ensures ThreadsAlike(t, B.Step(b, e)) <==> Unmoved(t, e)
  {
    match e
    case Prompted(_) => LonePrompt(t, b, e);
    case Questioned(_, _, _, _) => LoneQuestion(t, b, e);
    case Answered(_, _, _) => LoneRevision(t, b, e);
    case Completed(_) => LoneRevision(t, b, e);
    case TurnEnded(_) => LoneRevision(t, b, e);
    case TurnFailed => LoneRevision(t, b, e);
    case TurnUnread(_) => LoneRevision(t, b, e);
    case SessionStated(_, _) =>
    case PermissionAsked(_, _, _) => LonePermission(t, b, e);
    case PermissionCleared(_) => LonePermission(t, b, e);
    case ModeSwitched(_) =>
  }

  // And so does a session's state heard by the server alone.
  lemma StatedAlone(t: S.ThreadState, b: B.ThreadState, e: Event)
    requires ThreadsAlike(t, b) && e.SessionStated?
    ensures ThreadsAlike(S.Step(t, e), b) <==> Unmoved(t, e)
  {
  }
}
