// A conversation seen to be orderly from the list of its events alone.

module TidyLaws {
  import opened Wrappers
  import opened ThreadModel
  import opened ReloadLaws
  import S = ServerThread

  predicate Announces(e: Event, call: string) {
    e.Updated? &&
    match e.update
    case ToolCalled(announced) => announced.id == call
    case ToolCallUpdated(id, _) => id == call
    case _ => false
  }

  predicate AsksUrl(e: Event) {
    AsksKnown(e) && e.mode.mode.Url?
  }

  predicate UrlsReused(events: seq<Event>) {
    exists i, j | 0 <= i < j < |events| ::
      AsksUrl(events[i]) && AsksUrl(events[j]) && events[i].mode.mode.elicitationId == events[j].mode.mode.elicitationId
  }

  predicate Announced(events: seq<Event>, call: string) {
    exists i | 0 <= i < |events| :: Announces(events[i], call)
  }

  // Both sides hear this event as one thing.
  predicate Plain(e: Event) {
    !e.TurnFailed? && !e.TurnUnread? && !e.ModeSwitched?
  }

  // No id is used twice, every turn ends with a result both sides can read, no
  // mode is switched, and permission is asked for calls announced before.
  predicate Tidy(events: seq<Event>) {
    && !Reuses(events) && !UrlsReused(events)
    && (forall j | 0 <= j < |events| :: Plain(events[j]))
    && (forall j | 0 <= j < |events| && events[j].PermissionAsked? :: Announced(events[..j], events[j].forCall))
  }

  // ----- What the thread holds comes from the list -----

  predicate Asks(e: Event, x: S.Entry) {
    x.Asked? && AsksKnown(e) && e.requestId == x.asked.requestId && e.mode.mode == x.asked.mode
  }

  predicate Sourced(events: seq<Event>, x: S.Entry) {
    x.Asked? ==> exists i | 0 <= i < |events| :: Asks(events[i], x)
  }

  predicate Holds(entries: seq<S.Entry>, call: string) {
    S.IndexOfCall(entries, call) < |entries|
  }

  lemma {:induction false} AllSourced(events: seq<Event>)
    ensures forall k | 0 <= k < |S.Run(S.EMPTY, events).entries| :: Sourced(events, S.Run(S.EMPTY, events).entries[k])
  {
    if events != [] {
      var front, e := events[..|events| - 1], events[|events| - 1];
      var t, after := S.Run(S.EMPTY, front), S.Run(S.EMPTY, events).entries;
      AllSourced(front);
      StepAdds(t, e);
      forall k | 0 <= k < |after|
        ensures Sourced(events, after[k])
      {
        if k < |t.entries| {
          StepKeeps(t, e, k);
          SourcedStill(front, e, t.entries[k], after[k]);
        } else if after[k].Asked? {
          assert Asks(events[|front|], after[k]);
        }
      }
    }
  }

  lemma SourcedStill(front: seq<Event>, e: Event, x: S.Entry, y: S.Entry)
    requires Sourced(front, x) && Kept(x, y)
    ensures Sourced(front + [e], y)
  {
    if y.Asked? {
      var i :| 0 <= i < |front| && Asks(front[i], x);
      assert Asks((front + [e])[i], y);
    }
  }

  lemma CallStays(t: S.ThreadState, e: Event, call: string)
    requires Holds(t.entries, call) || Announces(e, call)
    ensures Holds(S.Step(t, e).entries, call)
  {
    var after, i := S.Step(t, e).entries, S.IndexOfCall(t.entries, call);
    if i < |t.entries| {
      StepKeeps(t, e, i);
      assert S.IsCall(after[i], call);
    } else {
      assert |after| == i + 1 && S.IsCall(after[i], call);
    }
  }

  lemma {:induction false} AnnouncedHeld(events: seq<Event>, call: string)
    requires Announced(events, call)
    ensures Holds(S.Run(S.EMPTY, events).entries, call)
  {
    var front, e := events[..|events| - 1], events[|events| - 1];
    if !Announces(e, call) {
      var i :| 0 <= i < |events| && Announces(events[i], call);
      assert Announces(front[i], call);
      AnnouncedHeld(front, call);
    }
    CallStays(S.Run(S.EMPTY, front), e, call);
  }

  // ----- So it admits what comes next -----

  lemma TidySoFar(front: seq<Event>, e: Event)
    requires Tidy(front + [e])
    ensures Tidy(front) && Plain(e) && (e.PermissionAsked? ==> Announced(front, e.forCall))
  {
    var all := front + [e];
    assert all[|front|] == e && all[..|front|] == front;
    assert forall k | 0 <= k < |front| :: all[k] == front[k] && all[..k] == front[..k];
  }

  lemma NewRequest(front: seq<Event>, e: Event)
    requires !Reuses(front + [e]) && AsksKnown(e)
    ensures !AskedAlready(S.Run(S.EMPTY, front).entries, e.requestId)
  {
    var entries, all := S.Run(S.EMPTY, front).entries, front + [e];
    AllSourced(front);
    forall k | 0 <= k < |entries| && entries[k].Asked?
      ensures entries[k].asked.requestId != e.requestId
    {
      assert Sourced(front, entries[k]);
      var i :| 0 <= i < |front| && Asks(front[i], entries[k]);
      assert all[i] == front[i] && all[|front|] == e;
    }
  }

  lemma OneOpenUrl(front: seq<Event>, elicitationId: string)
    requires !UrlsReused(front) && QuestionsDistinct(S.Run(S.EMPTY, front).entries)
    ensures !TwoPendingUrls(S.Run(S.EMPTY, front).entries, elicitationId)
  {
    var entries := S.Run(S.EMPTY, front).entries;
    AllSourced(front);
    forall k, m | 0 <= k < m < |entries| && S.PendingUrl(entries[k], elicitationId)
      ensures !S.PendingUrl(entries[m], elicitationId)
    {
      if entries[m].Asked? {
        assert Sourced(front, entries[k]) && Sourced(front, entries[m]);
        var i :| 0 <= i < |front| && Asks(front[i], entries[k]);
        var j :| 0 <= j < |front| && Asks(front[j], entries[m]);
        assert i != j;
        assert AsksUrl(front[i]);
      }
    }
  }

  lemma OneOpenRequest(entries: seq<S.Entry>, requestId: RequestId)
    requires QuestionsDistinct(entries)
    ensures !TwoPendingFor(entries, requestId)
  {
  }

  // A tidy conversation is orderly, so a reload at any moment of it loses nothing.
  lemma {:induction false} TidyIsOrderly(events: seq<Event>)
    requires Tidy(events)
    ensures Orderly(events)
    ensures forall k | 0 <= k <= |events| :: Faithful(events[..k])
  {
    TidyAdmits(events);
    ReloadLosesNothing(events);
  }

  lemma {:induction false} TidyAdmits(events: seq<Event>)
    requires Tidy(events)
    ensures Orderly(events)
  {
    if events != [] {
      var front, e := events[..|events| - 1], events[|events| - 1];
      assert events == front + [e];
      TidySoFar(front, e);
      TidyAdmits(front);
      RunsAlike(front);
      NextAdmitted(front, e);
    }
  }

  lemma NextAdmitted(front: seq<Event>, e: Event)
    requires Tidy(front + [e]) && QuestionsDistinct(S.Run(S.EMPTY, front).entries)
    ensures Admits(S.Run(S.EMPTY, front), e)
  {
    TidySoFar(front, e);
    match e
    case Questioned(_, _, _, mode) =>
      if mode.Known? {
        NewRequest(front, e);
      }
    case Answered(answers, _, _) => OneOpenRequest(S.Run(S.EMPTY, front).entries, answers);
    case Completed(elicitationId) => OneOpenUrl(front, elicitationId);
    case PermissionAsked(call, _, _) => AnnouncedHeld(front, call);
    case _ =>
  }
}
