// What the questions put again after a reload do to the thread just rebuilt.

module ReaskLaws {
  import opened Wrappers
  import opened ThreadModel
  import opened ReloadLaws
  import B = BrowserThread

  predicate IsAsked(e: Event) {
    e.Questioned? || e.PermissionAsked?
  }

  // The thread already shows what is asked: the question, open and as it was
  // put, or the call permission is asked for. What cannot be drawn is not shown.
  predicate OnScreen(b: B.ThreadState, e: Event)
    requires IsAsked(e)
  {
    match e
    case Questioned(requestId, message, call, mode) =>
      mode.Unknown? ||
      var i := B.IndexOfQuestion(b.entries, requestId);
      i < |b.entries| && b.entries[i].asked.(id := "")
          == Elicitation("", requestId, message, call, mode.mode, Pending, None)
    case PermissionAsked(call, _, _) => B.IndexOfCall(b.entries, call) < |b.entries|
  }

  // Asked once more, it changes nothing exactly when it is there.
  lemma AskedAgain(b: B.ThreadState, e: Event)
    requires IsAsked(e)
    ensures Erased(B.Step(b, e)) == Erased(b) <==> OnScreen(b, e)
  {
    var b' := B.Step(b, e);
    var x, y := Erased(b').entries, Erased(b).entries;
    if |b'.entries| == |b.entries| {
      if e.Questioned? && e.mode.Known? {
        var i := B.IndexOfQuestion(b.entries, e.requestId);
        assert forall k | 0 <= k < |b.entries| && k != i :: x[k] == y[k];
        assert x[i] == y[i] <==> OnScreen(b, e);
      } else {
        assert forall k | 0 <= k < |b.entries| :: x[k] == y[k];
      }
      assert x == y <==> forall k | 0 <= k < |b.entries| :: x[k] == y[k];
    } else {
      assert |x| != |y|;
    }
  }

  lemma SameQuestionsFound(a: B.ThreadState, b: B.ThreadState, requestId: RequestId)
    requires Erased(a) == Erased(b)
    ensures B.IndexOfQuestion(a.entries, requestId) == B.IndexOfQuestion(b.entries, requestId)
  {
    SameErased(a, b);
    forall i | 0 <= i < |a.entries|
      ensures B.IsQuestion(a.entries[i], requestId) <==> B.IsQuestion(b.entries[i], requestId)
    {
      assert ErasedEntry(a.entries[i]) == ErasedEntry(b.entries[i]);
    }
  }

  lemma SameCallsFound(a: B.ThreadState, b: B.ThreadState, call: string)
    requires Erased(a) == Erased(b)
    ensures B.IndexOfCall(a.entries, call) == B.IndexOfCall(b.entries, call)
  {
    SameErased(a, b);
    forall i | 0 <= i < |a.entries|
      ensures B.IsCall(a.entries[i], call) <==> B.IsCall(b.entries[i], call)
    {
      assert ErasedEntry(a.entries[i]) == ErasedEntry(b.entries[i]);
    }
  }

  lemma SameErased(a: B.ThreadState, b: B.ThreadState)
    requires Erased(a) == Erased(b)
    ensures |a.entries| == |b.entries|
    ensures forall i | 0 <= i < |a.entries| :: ErasedEntry(a.entries[i]) == ErasedEntry(b.entries[i])
  {
    assert |Erased(a).entries| == |a.entries| && |Erased(b).entries| == |b.entries|;
    forall i | 0 <= i < |a.entries|
      ensures ErasedEntry(a.entries[i]) == ErasedEntry(b.entries[i])
    {
      assert Erased(a).entries[i] == Erased(b).entries[i];
    }
  }

  lemma OnScreenErased(a: B.ThreadState, b: B.ThreadState, e: Event)
    requires IsAsked(e) && Erased(a) == Erased(b)
    ensures OnScreen(a, e) <==> OnScreen(b, e)
  {
    SameErased(a, b);
    match e
    case Questioned(requestId, _, _, _) => SameQuestionsFound(a, b, requestId);
    case PermissionAsked(call, _, _) => SameCallsFound(a, b, call);
  }

  predicate AllAsked(events: seq<Event>) {
    forall e | e in events :: IsAsked(e)
  }

  predicate AllOnScreen(b: B.ThreadState, events: seq<Event>)
    requires AllAsked(events)
  {
    forall e | e in events :: OnScreen(b, e)
  }

  // ----- A whole list of them -----

  predicate Asks(events: seq<Event>, requestId: RequestId) {
    exists k | 0 <= k < |events| :: AsksKnown(events[k]) && events[k].requestId == requestId
  }

  // Entries keep their place and their request, and one nobody asks about again
  // is left as it was.
  lemma {:induction false} PlacesKept(b: B.ThreadState, events: seq<Event>, i: nat)
    requires AllAsked(events) && i < |b.entries|
    ensures var b' := B.Run(b, events);
            && |b.entries| <= |b'.entries|
            && (b.entries[i].Asked? <==> b'.entries[i].Asked?)
            && (b.entries[i].Asked? ==>
                  && b'.entries[i].asked.requestId == b.entries[i].asked.requestId
                  && (!Asks(events, b.entries[i].asked.requestId) ==> b'.entries[i] == b.entries[i]))
  {
    if events != [] {
      var front, e := events[..|events| - 1], events[|events| - 1];
      assert AllAsked(front) by {
        assert forall x | x in front :: x in events;
      }
      PlacesKept(b, front, i);
      BrowserStepShape(B.Run(b, front), e);
      if b.entries[i].Asked? && !Asks(events, b.entries[i].asked.requestId) {
        NotAskedBefore(events, b.entries[i].asked.requestId);
        OthersKept(B.Run(b, front), e, i);
      }
    }
  }

  lemma NotAskedBefore(events: seq<Event>, requestId: RequestId)
    requires events != [] && !Asks(events, requestId)
    ensures !Asks(events[..|events| - 1], requestId)
    ensures AsksKnown(events[|events| - 1]) ==> events[|events| - 1].requestId != requestId
  {
    var front := events[..|events| - 1];
    assert forall k | 0 <= k < |front| :: front[k] == events[k];
  }

  lemma OthersKept(b: B.ThreadState, e: Event, i: nat)
    requires IsAsked(e) && i < |b.entries| && b.entries[i].Asked?
    requires AsksKnown(e) ==> e.requestId != b.entries[i].asked.requestId
    ensures B.Step(b, e).entries[i] == b.entries[i]
  {
  }

  lemma {:induction false} OnlyGrows(b: B.ThreadState, events: seq<Event>)
    ensures |b.entries| <= |B.Run(b, events).entries|
  {
    if events != [] {
      OnlyGrows(b, events[..|events| - 1]);
      BrowserStepShape(B.Run(b, events[..|events| - 1]), events[|events| - 1]);
    }
  }

  // Two different questions cannot make up for each other.
  lemma LastUndone(b: B.ThreadState, front: seq<Event>, e: Event)
    requires AllAsked(front) && IsAsked(e) && (AsksKnown(e) ==> !Asks(front, e.requestId))
    requires Erased(B.Step(B.Run(b, front), e)) == Erased(b)
    ensures Erased(B.Run(b, front)) == Erased(b)
  {
    var b1 := B.Run(b, front);
    var b2 := B.Step(b1, e);
    OnlyGrows(b, front);
    BrowserStepShape(b1, e);
    SameErased(b2, b);
    forall k | 0 <= k < |b.entries|
      ensures ErasedEntry(b1.entries[k]) == ErasedEntry(b.entries[k])
    {
      PlacesKept(b, front, k);
      assert ErasedEntry(b2.entries[k]) == ErasedEntry(b.entries[k]);
      if AsksKnown(e) && k == B.IndexOfQuestion(b1.entries, e.requestId) {
        assert b1.entries[k] == b.entries[k];
      } else {
        assert ErasedEntry(b2.entries[k]) == ErasedEntry(b1.entries[k]);
      }
    }
    assert Erased(b1).entries == Erased(b).entries;
    assert b1 == b2.(entries := b1.entries);
  }

  // Put again one after another, questions of different requests leave the
  // thread as it is exactly when it already shows every one of them.
  lemma {:induction false} AllAskedAgain(b: B.ThreadState, events: seq<Event>)
    requires AllAsked(events) && !Reuses(events)
    ensures Erased(B.Run(b, events)) == Erased(b) <==> AllOnScreen(b, events)
  {
    if events != [] {
      var front, e := events[..|events| - 1], events[|events| - 1];
      assert events == front + [e];
      NoReuseBefore(front, e);
      assert AllAsked(front) && IsAsked(e) by {
        assert e in events && forall x | x in front :: x in events;
      }
      AllAskedAgain(b, front);
      AskedAgain(B.Run(b, front), e);
      if Erased(B.Run(b, events)) == Erased(b) {
        LastUndone(b, front, e);
      }
      if Erased(B.Run(b, front)) == Erased(b) {
        OnScreenErased(B.Run(b, front), b, e);
      }
      assert AllOnScreen(b, events) <==> AllOnScreen(b, front) && OnScreen(b, e);
    }
  }

  lemma NoReuseBefore(front: seq<Event>, e: Event)
    requires !Reuses(front + [e])
    ensures !Reuses(front) && (AsksKnown(e) ==> !Asks(front, e.requestId))
  {
    var all := front + [e];
    assert forall k | 0 <= k < |front| :: all[k] == front[k];
    assert all[|front|] == e;
  }
}
