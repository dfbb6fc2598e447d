// A reload shows the conversation the page would have shown without it.

module ReloadLaws {
  import opened Wrappers
  import opened ThreadModel
  import opened Replay
  import opened ReplayLaws
  import S = ServerThread
  import B = BrowserThread

  // ===== When a server thread and a browser thread show the same =====

  // Inner question ids and permission prompts are each side's own business.
  predicate Alike(s: S.Entry, b: B.Entry, i: nat) {
    match (s, b)
    case (User(_, p, o, c), User(id, c', o', p')) => id == B.Placed("user", i) && p == p' && o == o' && c == c'
    case (Assistant(_, c), Assistant(id, c')) => id == B.Placed("assistant", i) && c == c'
    case (Tool(call), Tool(id, card)) => id == call.id && card.call == call
    case (Asked(a), Asked(id, a')) => id == B.Placed("elicitation", i) && a.(id := "") == a'.(id := "")
    case _ => false
  }

  ghost predicate EntriesAlike(s: seq<S.Entry>, b: seq<B.Entry>) {
    |s| == |b| && forall i | 0 <= i < |s| :: Alike(s[i], b[i], i)
  }

  ghost predicate ThreadsAlike(s: S.ThreadState, b: B.ThreadState) {
    && EntriesAlike(s.entries, b.entries)
    && s.plan == b.plan && s.status == b.status && s.stopReason == b.stopReason && s.usage == b.usage
    && s.availableCommands == b.availableCommands && s.modes == b.modes && s.configOptions == b.configOptions
  }

  function ErasedEntry(e: B.Entry): B.Entry {
    match e
    case Tool(id, card) => B.Tool(id, B.CardCall(card.call, None))
    case Asked(id, asked) => B.Asked(id, asked.(id := ""))
    case _ => e
  }

  // The thread without what a replay does not carry.
  function Erased(t: B.ThreadState): B.ThreadState {
    t.(entries := seq(|t.entries|, i requires 0 <= i < |t.entries| => ErasedEntry(t.entries[i])))
  }

  lemma AlikeMeansErasedEqual(s: S.ThreadState, b: B.ThreadState)
    ensures ThreadsAlike(s, b) <==> Erased(Viewed(s)) == Erased(b)
  {
    var x, y := Erased(Viewed(s)), Erased(b);
    if |s.entries| == |b.entries| {
      forall i | 0 <= i < |s.entries|
        ensures Alike(s.entries[i], b.entries[i], i) <==> x.entries[i] == y.entries[i]
      {
        AlikeEntries(s.entries[i], b.entries[i], i);
      }
    }
    assert x.entries == y.entries <==> EntriesAlike(s.entries, b.entries) by {
      if x.entries == y.entries {
        assert |s.entries| == |x.entries| && |b.entries| == |y.entries|;
      }
    }
  }

  lemma AlikeEntries(x: S.Entry, y: B.Entry, i: nat)
    ensures Alike(x, y, i) <==> ErasedEntry(Shown(x, i)) == ErasedEntry(y)
  {
  }

  // ===== One event keeps them alike, or does not =====

  // A question still open holds no answer,
  predicate OpenHoldNothing(entries: seq<S.Entry>) {
    forall i | 0 <= i < |entries| && S.IsPending(entries[i]) :: entries[i].asked.content == None
  }

  // and no two questions share a request.
  predicate QuestionsDistinct(entries: seq<S.Entry>) {
    && OpenHoldNothing(entries)
    && (forall i, j | 0 <= i < j < |entries| && entries[i].Asked? && entries[j].Asked? ::
          entries[i].asked.requestId != entries[j].asked.requestId)
  }

  predicate AskedAlready(entries: seq<S.Entry>, requestId: CallId) {
    exists i | 0 <= i < |entries| :: entries[i].Asked? && entries[i].asked.requestId == requestId
  }

  predicate TwoPendingFor(entries: seq<S.Entry>, requestId: RequestId) {
    exists i, j | 0 <= i < j < |entries| :: S.PendingFor(entries[i], requestId) && S.PendingFor(entries[j], requestId)
  }

  predicate TwoPendingUrls(entries: seq<S.Entry>, elicitationId: string) {
    exists i, j | 0 <= i < j < |entries| ::
      S.PendingUrl(entries[i], elicitationId) && S.PendingUrl(entries[j], elicitationId)
  }

  // What an event may do to a thread without telling the two sides different
  // things: ask a new question, answer or complete one question, ask permission
  // for a call on the timeline, end a turn as both sides would read it, and switch
  // to no mode but the one the agent reported.
  predicate Admits(t: S.ThreadState, e: Event) {
    match e
    case Questioned(requestId, _, _, mode) => mode.Known? ==> !AskedAlready(t.entries, requestId)
    case Answered(answers, _, _) => !TwoPendingFor(t.entries, answers)
    case Completed(elicitationId) => !TwoPendingUrls(t.entries, elicitationId)
    case PermissionAsked(call, _, _) => S.IndexOfCall(t.entries, call) < |t.entries|
    case TurnFailed => t.stopReason == Some(StopCancelled)
    case TurnUnread(shown) => t.status == Idle && t.stopReason == shown
    case ModeSwitched(chosen) => t.modes.Some? ==> t.modes.value.currentModeId == chosen
    case _ => true
  }

  lemma SameIndexOfCall(s: seq<S.Entry>, b: seq<B.Entry>, id: string)
    requires EntriesAlike(s, b)
    ensures S.IndexOfCall(s, id) == B.IndexOfCall(b, id)
  {
    forall i | 0 <= i < |s|
      ensures S.IsCall(s[i], id) <==> B.IsCall(b[i], id)
    {
      assert Alike(s[i], b[i], i);
    }
  }

  lemma LastReplacedAlike(s: seq<S.Entry>, b: seq<B.Entry>, x: S.Entry, y: B.Entry)
    requires EntriesAlike(s, b) && s != [] && Alike(x, y, |s| - 1)
    ensures EntriesAlike(s[|s| - 1 := x], b[..|b| - 1] + [y])
  {
    forall i | 0 <= i < |s| - 1
      ensures Alike(s[i], (b[..|b| - 1] + [y])[i], i)
    {
      assert Alike(s[i], b[i], i);
    }
  }

  lemma ReplacedAlike(s: seq<S.Entry>, b: seq<B.Entry>, at: nat, x: S.Entry, y: B.Entry)
    requires EntriesAlike(s, b) && at < |s| && Alike(x, y, at)
    ensures EntriesAlike(s[at := x], b[at := y])
  {
  }

  lemma AppendedAlike(s: seq<S.Entry>, b: seq<B.Entry>, x: S.Entry, y: B.Entry)
    requires EntriesAlike(s, b) && Alike(x, y, |s|)
    ensures EntriesAlike(s + [x], b + [y])
  {
    forall i | 0 <= i < |s|
      ensures Alike((s + [x])[i], (b + [y])[i], i)
    {
      assert Alike(s[i], b[i], i);
    }
  }

  lemma UserChunkAlike(s: S.ThreadState, b: B.ThreadState, content: ContentBlock, id: Option<string>)
    requires ThreadsAlike(s, b)
    ensures ThreadsAlike(S.WithUserChunk(s, content, id), B.AppendUserContent(b, content, id))
  {
    var n := |s.entries|;
    var s', b' := S.WithUserChunk(s, content, id), B.AppendUserContent(b, content, id);
    assert n > 0 ==> Alike(s.entries[n - 1], b.entries[n - 1], n - 1);
    if n > 0 && S.AbsorbsEcho(s.entries[n - 1], content, id) {
      if s.entries[n - 1].protocolId.None? {
        if id.Some? {
          LastReplacedAlike(s.entries, b.entries, s'.entries[n - 1], b'.entries[n - 1]);
        } else {
          assert s'.entries == s.entries;
        }
      }
    } else if n > 0 && S.ExtendsUser(s.entries[n - 1], id) {
      LastReplacedAlike(s.entries, b.entries, s'.entries[n - 1], b'.entries[n - 1]);
    } else {
      AppendedAlike(s.entries, b.entries, s'.entries[n], b'.entries[n]);
    }
  }

  lemma AgentChunkAlike(s: S.ThreadState, b: B.ThreadState, kind: ChunkKind, content: ContentBlock, id: Option<string>)
    requires ThreadsAlike(s, b)
    ensures ThreadsAlike(S.WithAssistantChunk(s, kind, content, id), B.AppendAssistantChunk(b, kind, content, id))
  {
    var n := |s.entries|;
    var s', b' := S.WithAssistantChunk(s, kind, content, id), B.AppendAssistantChunk(b, kind, content, id);
    assert n > 0 ==> Alike(s.entries[n - 1], b.entries[n - 1], n - 1);
    if n > 0 && s.entries[n - 1].Assistant? {
      LastReplacedAlike(s.entries, b.entries, s'.entries[n - 1], b'.entries[n - 1]);
    } else {
      AppendedAlike(s.entries, b.entries, s'.entries[n], b'.entries[n]);
    }
  }

  lemma CallAlike(s: S.ThreadState, b: B.ThreadState, call: ToolCall)
    requires ThreadsAlike(s, b)
    ensures ThreadsAlike(S.WithCall(s, call), B.UpsertToolCall(b, call))
  {
    SameIndexOfCall(s.entries, b.entries, call.id);
    var i := S.IndexOfCall(s.entries, call.id);
    var s', b' := S.WithCall(s, call), B.UpsertToolCall(b, call);
    if i < |s.entries| {
      assert Alike(s.entries[i], b.entries[i], i);
      ReplacedAlike(s.entries, b.entries, i, s'.entries[i], b'.entries[i]);
    } else {
      AppendedAlike(s.entries, b.entries, s'.entries[i], b'.entries[i]);
    }
  }

  lemma CallUpdateAlike(s: S.ThreadState, b: B.ThreadState, id: string, f: ToolCallFields)
    requires ThreadsAlike(s, b)
    ensures ThreadsAlike(S.WithCallUpdate(s, id, f), B.UpdateToolCall(b, id, f))
  {
    SameIndexOfCall(s.entries, b.entries, id);
    var i := S.IndexOfCall(s.entries, id);
    var s', b' := S.WithCallUpdate(s, id, f), B.UpdateToolCall(b, id, f);
    if i < |s.entries| {
      assert Alike(s.entries[i], b.entries[i], i);
      ReplacedAlike(s.entries, b.entries, i, s'.entries[i], b'.entries[i]);
    } else {
      AppendedAlike(s.entries, b.entries, s'.entries[i], b'.entries[i]);
    }
  }

  lemma UpdateAlike(s: S.ThreadState, b: B.ThreadState, u: Update)
    requires ThreadsAlike(s, b)
    ensures ThreadsAlike(S.Folded(s, u), B.ApplyUpdate(b, u))
  {
    match u
    case UserChunk(content, id) => UserChunkAlike(s, b, content, id);
    case AgentChunk(kind, content, id) => AgentChunkAlike(s, b, kind, content, id);
    case ToolCalled(call) => CallAlike(s, b, call);
    case ToolCallUpdated(id, f) => CallUpdateAlike(s, b, id, f);
    case _ =>
  }

  lemma QuestionAlike(s: S.ThreadState, b: B.ThreadState, e: Event)
    requires ThreadsAlike(s, b) && e.Questioned?
    ensures ThreadsAlike(S.Step(s, e), B.Step(b, e)) <==> Admits(s, e)
  {
    if e.mode.Known? {
      forall i | 0 <= i < |b.entries|
        ensures B.IsQuestion(b.entries[i], e.requestId) <==>
                s.entries[i].Asked? && s.entries[i].asked.requestId == e.requestId
      {
        assert Alike(s.entries[i], b.entries[i], i);
      }
      if AskedAlready(s.entries, e.requestId) {
        var i :| 0 <= i < |s.entries| && s.entries[i].Asked? && s.entries[i].asked.requestId == e.requestId;
        assert B.IndexOfQuestion(b.entries, e.requestId) < |b.entries|;
        assert |S.Step(s, e).entries| == |B.Step(b, e).entries| + 1;
      } else {
        AppendedAlike(s.entries, b.entries, S.Step(s, e).entries[|s.entries|], B.Step(b, e).entries[|b.entries|]);
      }
    }
  }

  lemma AnswerAt(s: S.ThreadState, b: B.ThreadState, e: Event, i: nat)
    requires ThreadsAlike(s, b) && e.Answered? && OpenHoldNothing(s.entries) && i < |s.entries|
    ensures Alike(S.Step(s, e).entries[i], B.Step(b, e).entries[i], i) <==>
              (S.PendingFor(s.entries[i], e.answers) ==> i == S.First(s.entries, x => S.PendingFor(x, e.answers)))
  {
    assert Alike(s.entries[i], b.entries[i], i);
  }

  // The server settles the first pending question with the id and the browser
  // every one: the same exactly when there are not two.
  lemma AnswerAlike(s: S.ThreadState, b: B.ThreadState, e: Event)
    requires ThreadsAlike(s, b) && e.Answered? && OpenHoldNothing(s.entries)
    ensures ThreadsAlike(S.Step(s, e), B.Step(b, e)) <==> Admits(s, e)
  {
    var s', b', first := S.Step(s, e), B.Step(b, e), S.First(s.entries, x => S.PendingFor(x, e.answers));
    forall i | 0 <= i < |s.entries|
      ensures Alike(s'.entries[i], b'.entries[i], i) <==> (S.PendingFor(s.entries[i], e.answers) ==> i == first)
    {
      AnswerAt(s, b, e, i);
    }
    if TwoPendingFor(s.entries, e.answers) {
      var i, j :| 0 <= i < j < |s.entries| && S.PendingFor(s.entries[i], e.answers)
          && S.PendingFor(s.entries[j], e.answers);
      assert first <= i;
      assert !Alike(s'.entries[j], b'.entries[j], j);
    }
  }

  lemma CompletionAt(s: S.ThreadState, b: B.ThreadState, e: Event, i: nat)
    requires ThreadsAlike(s, b) && e.Completed? && i < |s.entries|
    ensures Alike(S.Step(s, e).entries[i], B.Step(b, e).entries[i], i) <==>
              (S.PendingUrl(s.entries[i], e.elicitationId) ==>
                i == S.First(s.entries, x => S.PendingUrl(x, e.elicitationId)))
  {
    assert Alike(s.entries[i], b.entries[i], i);
  }

  // The server completes the first pending question with the id and the browser
  // every one: the same exactly when there are not two.
  lemma CompletionAlike(s: S.ThreadState, b: B.ThreadState, e: Event)
    requires ThreadsAlike(s, b) && e.Completed?
    ensures ThreadsAlike(S.Step(s, e), B.Step(b, e)) <==> Admits(s, e)
  {
    var s', b', first := S.Step(s, e), B.Step(b, e), S.First(s.entries, x => S.PendingUrl(x, e.elicitationId));
    forall i | 0 <= i < |s.entries|
      ensures Alike(s'.entries[i], b'.entries[i], i) <==> (S.PendingUrl(s.entries[i], e.elicitationId) ==> i == first)
    {
      CompletionAt(s, b, e, i);
    }
    if TwoPendingUrls(s.entries, e.elicitationId) {
      var i, j :| 0 <= i < j < |s.entries| &&
        S.PendingUrl(s.entries[i], e.elicitationId) && S.PendingUrl(s.entries[j], e.elicitationId);
      assert first <= i;
      assert !Alike(s'.entries[j], b'.entries[j], j);
    }
  }

  lemma TurnEndAlike(s: S.ThreadState, b: B.ThreadState, e: Event)
    requires ThreadsAlike(s, b) && (e.TurnEnded? || e.TurnFailed? || e.TurnUnread?)
    ensures ThreadsAlike(S.Step(s, e), B.Step(b, e)) <==> Admits(s, e)
  {
    var s', b' := S.Step(s, e), B.Step(b, e);
    forall i | 0 <= i < |s.entries|
      ensures Alike(s'.entries[i], b'.entries[i], i)
    {
      assert Alike(s.entries[i], b.entries[i], i);
      assert s'.entries[i] == S.GivenUp(s.entries[i]);
    }
  }

  lemma PermissionAlike(s: S.ThreadState, b: B.ThreadState, e: Event)
    requires ThreadsAlike(s, b) && (e.PermissionAsked? || e.PermissionCleared?)
    ensures ThreadsAlike(S.Step(s, e), B.Step(b, e)) <==> Admits(s, e)
  {
    SameIndexOfCall(s.entries, b.entries, e.forCall);
    var i := S.IndexOfCall(s.entries, e.forCall);
    if i < |s.entries| {
      assert Alike(s.entries[i], b.entries[i], i);
      ReplacedAlike(s.entries, b.entries, i, s.entries[i], B.Step(b, e).entries[i]);
      assert s.entries[i := s.entries[i]] == s.entries;
    }
  }

  lemma PromptAlike(s: S.ThreadState, b: B.ThreadState, blocks: seq<ContentBlock>)
    requires ThreadsAlike(s, b)
    ensures ThreadsAlike(S.WithPrompt(s, blocks), B.AppendUserPrompt(b, blocks))
  {
    AppendedAlike(s.entries, b.entries, S.WithPrompt(s, blocks).entries[|s.entries|],
                  B.AppendUserPrompt(b, blocks).entries[|b.entries|]);
  }

  // Two threads that show the same still do after an event exactly when the
  // thread admits it.
  lemma StepAlike(s: S.ThreadState, b: B.ThreadState, e: Event)
    requires ThreadsAlike(s, b) && OpenHoldNothing(s.entries)
    ensures ThreadsAlike(S.Step(s, e), B.Step(b, e)) <==> Admits(s, e)
  {
    match e
    case Prompted(blocks) => PromptAlike(s, b, blocks);
    case Updated(u) => UpdateAlike(s, b, u);
    case Questioned(_, _, _, _) => QuestionAlike(s, b, e);
    case Answered(_, _, _) => AnswerAlike(s, b, e);
    case Completed(_) => CompletionAlike(s, b, e);
    case TurnEnded(_) => TurnEndAlike(s, b, e);
    case TurnFailed => TurnEndAlike(s, b, e);
    case TurnUnread(_) => TurnEndAlike(s, b, e);
    case SessionStated(_, _) =>
    case PermissionAsked(_, _, _) => PermissionAlike(s, b, e);
    case PermissionCleared(_) => PermissionAlike(s, b, e);
    case ModeSwitched(_) =>
  }

  // ----- The thread's questions stay distinct -----

  predicate AsksKnown(e: Event) {
    e.Questioned? && e.mode.Known?
  }

  // What one event leaves of an entry: its ids, how it asks, and no answer on an
  // open question.
  predicate Kept(a: S.Entry, b: S.Entry) {
    && (a.Asked? <==> b.Asked?)
    && (a.Asked? ==> a.asked.requestId == b.asked.requestId && a.asked.mode == b.asked.mode)
    && (a.Tool? ==> b.Tool? && a.call.id == b.call.id)
    && (S.IsPending(b) ==> S.IsPending(a) && a.asked.content == b.asked.content)
  }

  lemma UpdateKeeps(t: S.ThreadState, u: Update, i: nat)
    requires i < |t.entries|
    ensures |S.Folded(t, u).entries| >= |t.entries| && Kept(t.entries[i], S.Folded(t, u).entries[i])
  {
    match u
    case UserChunk(_, _) =>
    case AgentChunk(_, _, _) =>
    case ToolCalled(_) =>
    case ToolCallUpdated(_, _) =>
    case _ =>
  }

  lemma StepKeeps(t: S.ThreadState, e: Event, i: nat)
    requires i < |t.entries|
    ensures |S.Step(t, e).entries| >= |t.entries| && Kept(t.entries[i], S.Step(t, e).entries[i])
  {
    match e
    case Updated(u) => UpdateKeeps(t, u, i);
    case Answered(_, _, _) =>
    case Completed(_) =>
    case TurnEnded(_) =>
    case TurnFailed =>
    case TurnUnread(_) =>
    case _ =>
  }

  // Only a question adds a question, and always does.
  lemma StepAdds(t: S.ThreadState, e: Event)
    ensures var n, t' := |t.entries|, S.Step(t, e);
            && n <= |t'.entries| <= n + 1
            && (|t'.entries| == n + 1 && t'.entries[n].Asked? <==> AsksKnown(e))
            && (AsksKnown(e) ==> t'.entries[n].asked.requestId == e.requestId && t'.entries[n].asked.content == None
                                 && t'.entries[n].asked.mode == e.mode.mode)
  {
    match e
    case Updated(u) => UpdateAdds(t, u);
    case _ =>
  }

  lemma UpdateAdds(t: S.ThreadState, u: Update)
    ensures var n, t' := |t.entries|, S.Folded(t, u);
            n <= |t'.entries| <= n + 1 && (|t'.entries| == n + 1 ==> !t'.entries[n].Asked?)
  {
    match u
    case UserChunk(_, _) =>
    case AgentChunk(_, _, _) =>
    case ToolCalled(_) =>
    case ToolCallUpdated(_, _) =>
    case _ =>
  }

  lemma StepKeepsOpen(t: S.ThreadState, e: Event)
    requires OpenHoldNothing(t.entries)
    ensures OpenHoldNothing(S.Step(t, e).entries)
  {
    var before, after := t.entries, S.Step(t, e).entries;
    forall i | 0 <= i < |before|
      ensures |before| <= |after| && Kept(before[i], after[i])
    {
      StepKeeps(t, e, i);
    }
    StepAdds(t, e);
  }

  lemma StepKeepsDistinct(t: S.ThreadState, e: Event)
    requires QuestionsDistinct(t.entries) && Admits(t, e)
    ensures QuestionsDistinct(S.Step(t, e).entries)
  {
    var before, after := t.entries, S.Step(t, e).entries;
    forall i | 0 <= i < |before|
      ensures |before| <= |after| && Kept(before[i], after[i])
    {
      StepKeeps(t, e, i);
    }
    StepAdds(t, e);
    DistinctKept(before, after);
  }

  lemma DistinctKept(before: seq<S.Entry>, after: seq<S.Entry>)
    requires QuestionsDistinct(before) && |before| <= |after| <= |before| + 1
    requires forall i | 0 <= i < |before| :: Kept(before[i], after[i])
    requires |after| > |before| && after[|before|].Asked? ==>
               after[|before|].asked.content == None && !AskedAlready(before, after[|before|].asked.requestId)
    ensures QuestionsDistinct(after)
  {
    forall i, j | 0 <= i < j < |after| && after[i].Asked? && after[j].Asked?
      ensures after[i].asked.requestId != after[j].asked.requestId
    {
      assert Kept(before[i], after[i]);
      if j < |before| {
        assert Kept(before[j], after[j]);
      }
    }
    forall i | 0 <= i < |after| && S.IsPending(after[i])
      ensures after[i].asked.content == None
    {
      if i < |before| {
        assert Kept(before[i], after[i]);
      }
    }
  }

  // ===== Whole conversations =====

  // A conversation whose every event the thread admits when it comes.
  predicate Orderly(events: seq<Event>) {
    events == [] ||
    (Orderly(events[..|events| - 1]) && Admits(S.Run(S.EMPTY, events[..|events| - 1]), events[|events| - 1]))
  }

  // A reload now shows what is on screen: folding on the server, serialising
  // and rebuilding gives what folding in the browser gives.
  predicate Faithful(events: seq<Event>) {
    var rebuilt := ThreadFromReplay(Serialised(S.Run(S.EMPTY, events)));
    rebuilt.Some? && Erased(rebuilt.value) == Erased(B.Run(B.EMPTY, events))
  }

  lemma FaithfulIsAlike(events: seq<Event>)
    ensures Faithful(events) <==> ThreadsAlike(S.Run(S.EMPTY, events), B.Run(B.EMPTY, events))
  {
    ReplayReads(S.Run(S.EMPTY, events));
    AlikeMeansErasedEqual(S.Run(S.EMPTY, events), B.Run(B.EMPTY, events));
  }

  lemma {:induction false} RunsAlike(events: seq<Event>)
    requires Orderly(events)
    ensures ThreadsAlike(S.Run(S.EMPTY, events), B.Run(B.EMPTY, events))
    ensures QuestionsDistinct(S.Run(S.EMPTY, events).entries)
  {
    if events != [] {
      var front, e := events[..|events| - 1], events[|events| - 1];
      RunsAlike(front);
      StepAlike(S.Run(S.EMPTY, front), B.Run(B.EMPTY, front), e);
      StepKeepsDistinct(S.Run(S.EMPTY, front), e);
    }
  }

  lemma {:induction false} OrderlyPrefix(events: seq<Event>, k: nat)
    requires Orderly(events) && k <= |events|
    ensures Orderly(events[..k])
    decreases |events|
  {
    if k < |events| {
      OrderlyPrefix(events[..|events| - 1], k);
      assert events[..|events| - 1][..k] == events[..k];
    } else {
      assert events[..k] == events;
    }
  }

  lemma UnadmittedShows(events: seq<Event>)
    requires events != [] && Orderly(events[..|events| - 1]) && !Orderly(events)
    ensures !Faithful(events)
  {
    var front, e := events[..|events| - 1], events[|events| - 1];
    RunsAlike(front);
    StepAlike(S.Run(S.EMPTY, front), B.Run(B.EMPTY, front), e);
    FaithfulIsAlike(events);
  }

  lemma {:induction false} UnorderlyShows(events: seq<Event>) returns (k: nat)
    requires !Orderly(events)
    ensures k <= |events| && !Faithful(events[..k])
  {
    var front := events[..|events| - 1];
    if Orderly(front) {
      UnadmittedShows(events);
      k := |events|;
      assert events[..k] == events;
    } else {
      k := UnorderlyShows(front);
      assert front[..k] == events[..k];
    }
  }

  // Whenever the page might be reloaded, it loses nothing, if and only if the
  // conversation is orderly.
  lemma ReloadLosesNothing(events: seq<Event>)
    ensures (forall k | 0 <= k <= |events| :: Faithful(events[..k])) <==> Orderly(events)
  {
    if Orderly(events) {
      forall k | 0 <= k <= |events|
        ensures Faithful(events[..k])
      {
        OrderlyPrefix(events, k);
        RunsAlike(events[..k]);
        FaithfulIsAlike(events[..k]);
      }
    } else {
      var k := UnorderlyShows(events);
    }
  }

  // ----- A request id used twice is never made good -----

  function QuestionsIn(entries: seq<S.Entry>): nat {
    if entries == [] then 0
    else QuestionsIn(entries[..|entries| - 1]) + if entries[|entries| - 1].Asked? then 1 else 0
  }

  function QuestionsShown(entries: seq<B.Entry>): nat {
    if entries == [] then 0
    else QuestionsShown(entries[..|entries| - 1]) + if entries[|entries| - 1].Asked? then 1 else 0
  }

  lemma {:induction false} SameCount(s: seq<S.Entry>, b: seq<B.Entry>)
    requires EntriesAlike(s, b)
    ensures QuestionsIn(s) == QuestionsShown(b)
  {
    if s != [] {
      var n := |s| - 1;
      assert Alike(s[n], b[n], n);
      assert EntriesAlike(s[..n], b[..n]) by {
        assert forall i | 0 <= i < n :: Alike(s[i], b[i], i);
      }
      SameCount(s[..n], b[..n]);
    }
  }

  lemma {:induction false} CountKept(before: seq<S.Entry>, after: seq<S.Entry>)
    requires |before| == |after| && forall i | 0 <= i < |before| :: before[i].Asked? <==> after[i].Asked?
    ensures QuestionsIn(before) == QuestionsIn(after)
  {
    if before != [] {
      CountKept(before[..|before| - 1], after[..|after| - 1]);
    }
  }

  lemma {:induction false} ShownKept(before: seq<B.Entry>, after: seq<B.Entry>)
    requires |before| == |after| && forall i | 0 <= i < |before| :: before[i].Asked? <==> after[i].Asked?
    ensures QuestionsShown(before) == QuestionsShown(after)
  {
    if before != [] {
      ShownKept(before[..|before| - 1], after[..|after| - 1]);
    }
  }

  // The server adds an entry for every question it can draw,
  lemma StepCounts(t: S.ThreadState, e: Event)
    ensures QuestionsIn(S.Step(t, e).entries) == QuestionsIn(t.entries) + if AsksKnown(e) then 1 else 0
  {
    var n, after := |t.entries|, S.Step(t, e).entries;
    StepAdds(t, e);
    forall i | 0 <= i < n
      ensures t.entries[i].Asked? <==> after[i].Asked?
    {
      StepKeeps(t, e, i);
    }
    CountKept(t.entries, after[..n]);
    if |after| == n {
      assert after[..n] == after;
    } else {
      assert after[..|after| - 1] == after[..n];
    }
  }

  predicate ShownAlready(entries: seq<B.Entry>, requestId: RequestId) {
    B.IndexOfQuestion(entries, requestId) < |entries|
  }

  // What one event leaves of the browser's questions, and what it adds.
  predicate ShapeKept(b: B.ThreadState, e: Event, b': B.ThreadState) {
    var n := |b.entries|;
    && n <= |b'.entries| <= n + 1
    && (forall i | 0 <= i < n ::
          && (b.entries[i].Asked? <==> b'.entries[i].Asked?)
          && (b.entries[i].Asked? ==> b'.entries[i].asked.requestId == b.entries[i].asked.requestId))
    && (|b'.entries| == n + 1 && b'.entries[n].Asked? <==> AsksKnown(e) && !ShownAlready(b.entries, e.requestId))
    && (|b'.entries| == n + 1 && b'.entries[n].Asked? ==> b'.entries[n].asked.requestId == e.requestId)
  }

  lemma BrowserChunkShape(b: B.ThreadState, u: Update)
    requires u.UserChunk? || u.AgentChunk?
    ensures ShapeKept(b, Updated(u), B.ApplyUpdate(b, u))
  {
    match u
    case UserChunk(_, _) =>
    case AgentChunk(_, _, _) =>
  }

  lemma BrowserUpdateShape(b: B.ThreadState, u: Update)
    ensures ShapeKept(b, Updated(u), B.ApplyUpdate(b, u))
  {
    match u
    case UserChunk(_, _) => BrowserChunkShape(b, u);
    case AgentChunk(_, _, _) => BrowserChunkShape(b, u);
    case ToolCalled(_) =>
    case ToolCallUpdated(_, _) =>
    case _ =>
  }

  lemma BrowserStepShape(b: B.ThreadState, e: Event)
    ensures ShapeKept(b, e, B.Step(b, e))
  {
    match e
    case Updated(u) => BrowserUpdateShape(b, u);
    case Questioned(_, _, _, _) =>
    case PermissionAsked(_, _, _) =>
    case PermissionCleared(_) =>
    case ModeSwitched(_) =>
    case _ =>
  }

  // and the browser only for one whose request it has not shown before.
  lemma BrowserStepCounts(b: B.ThreadState, e: Event)
    ensures QuestionsShown(B.Step(b, e).entries)
         == QuestionsShown(b.entries) + if AsksKnown(e) && !ShownAlready(b.entries, e.requestId) then 1 else 0
  {
    BrowserStepShape(b, e);
    ShapeCounts(b, e, B.Step(b, e));
  }

  lemma ShapeCounts(b: B.ThreadState, e: Event, b': B.ThreadState)
    requires ShapeKept(b, e, b')
    ensures QuestionsShown(b'.entries)
         == QuestionsShown(b.entries) + if AsksKnown(e) && !ShownAlready(b.entries, e.requestId) then 1 else 0
  {
    var n, after := |b.entries|, b'.entries;
    ShownKept(b.entries, after[..n]);
    if |after| == n {
      assert after[..n] == after;
    } else {
      assert after[..|after| - 1] == after[..n];
    }
  }

  lemma ShownStays(b: B.ThreadState, e: Event, requestId: RequestId)
    requires ShownAlready(b.entries, requestId) || (AsksKnown(e) && e.requestId == requestId)
    ensures ShownAlready(B.Step(b, e).entries, requestId)
  {
    var after := B.Step(b, e).entries;
    BrowserStepShape(b, e);
    var i := B.IndexOfQuestion(b.entries, requestId);
    assert i < |after| && B.IsQuestion(after[i], requestId) by {
      if i == |b.entries| {
        assert after[i].Asked?;
      }
    }
  }

  predicate Reuses(events: seq<Event>) {
    exists i, j | 0 <= i < j < |events| ::
      AsksKnown(events[i]) && AsksKnown(events[j]) && events[i].requestId == events[j].requestId
  }

  lemma ReusesLast(front: seq<Event>, e: Event)
    requires Reuses(front + [e])
    ensures Reuses(front) ||
            (AsksKnown(e) && exists i | 0 <= i < |front| :: AsksKnown(front[i]) && front[i].requestId == e.requestId)
  {
    var all := front + [e];
    var i, j :| 0 <= i < j < |all| && AsksKnown(all[i]) && AsksKnown(all[j]) && all[i].requestId == all[j].requestId;
    assert all[i] == front[i];
    assert j < |front| ==> all[j] == front[j];
  }

  lemma NoReuseYet(front: seq<Event>, e: Event)
    requires !Reuses(front)
    requires AsksKnown(e) ==> forall k | 0 <= k < |front| && AsksKnown(front[k]) :: front[k].requestId != e.requestId
    ensures !Reuses(front + [e])
  {
    var all := front + [e];
    forall i, j | 0 <= i < j < |all| && AsksKnown(all[i]) && AsksKnown(all[j])
      ensures all[i].requestId != all[j].requestId
    {
      assert all[i] == front[i];
      assert j < |front| ==> all[j] == front[j];
    }
  }

  lemma {:induction false} QuestionsCounted(events: seq<Event>)
    ensures QuestionsShown(B.Run(B.EMPTY, events).entries) <= QuestionsIn(S.Run(S.EMPTY, events).entries)
    ensures Reuses(events) ==>
              QuestionsShown(B.Run(B.EMPTY, events).entries) < QuestionsIn(S.Run(S.EMPTY, events).entries)
    ensures forall i | 0 <= i < |events| && AsksKnown(events[i]) ::
              ShownAlready(B.Run(B.EMPTY, events).entries, events[i].requestId)
  {
    if events != [] {
      var front, e := events[..|events| - 1], events[|events| - 1];
      var b := B.Run(B.EMPTY, front);
      assert events == front + [e];
      QuestionsCounted(front);
      StepCounts(S.Run(S.EMPTY, front), e);
      BrowserStepCounts(b, e);
      if Reuses(events) {
        ReusesLast(front, e);
      }
      forall i | 0 <= i < |events| && AsksKnown(events[i])
        ensures ShownAlready(B.Step(b, e).entries, events[i].requestId)
      {
        assert i < |front| ==> events[i] == front[i];
        ShownStays(b, e, events[i].requestId);
      }
    }
  }

  // Whatever follows, a conversation in which two questions shared a request id
  // is never again shown the same by a reload.
  lemma ReuseIsNeverMadeGood(events: seq<Event>)
    requires Reuses(events)
    ensures !Faithful(events)
  {
    FaithfulIsAlike(events);
    QuestionsCounted(events);
    if Faithful(events) {
      SameCount(S.Run(S.EMPTY, events).entries, B.Run(B.EMPTY, events).entries);
    }
  }

  // ----- An early prompt may be -----

  // Permission asked for a call nobody has described yet puts a placeholder on
  // screen that the server's thread does not have. The announcement makes up for
  // it if it is the next thing to come,
  lemma AnnouncementMakesGood(s: S.ThreadState, b: B.ThreadState, request: Json, title: string, call: ToolCall)
    requires ThreadsAlike(s, b) && S.IndexOfCall(s.entries, call.id) == |s.entries|
    ensures var p, t := PermissionAsked(call.id, request, title), Updated(ToolCalled(call));
            && !ThreadsAlike(S.Step(s, p), B.Step(b, p))
            && ThreadsAlike(S.Step(S.Step(s, p), t), B.Step(B.Step(b, p), t))
  {
    var n := |s.entries|;
    SameIndexOfCall(s.entries, b.entries, call.id);
    var b1 := B.AttachPermission(b, call.id, request, title);
    PlaceholderAdded(b, call.id, request, title);
    AppendedAlike(s.entries, b.entries, S.Tool(call), B.Tool(call.id, B.CardCall(call, Some(request))));
    assert B.UpsertToolCall(b1, call).entries == b.entries + [B.Tool(call.id, B.CardCall(call, Some(request)))];
  }

  // and no longer does once the agent has said something in between.
  lemma ChunkBetweenReorders(s: S.ThreadState, b: B.ThreadState, request: Json, title: string, call: ToolCall,
                             kind: ChunkKind, said: ContentBlock, id: Option<string>)
    requires ThreadsAlike(s, b) && S.IndexOfCall(s.entries, call.id) == |s.entries|
    ensures var p, c, t := PermissionAsked(call.id, request, title), Updated(AgentChunk(kind, said, id)),
            Updated(ToolCalled(call));
            !ThreadsAlike(S.Step(S.Step(S.Step(s, p), c), t), B.Step(B.Step(B.Step(b, p), c), t))
  {
    var p, c, t := PermissionAsked(call.id, request, title), Updated(AgentChunk(kind, said, id)),
        Updated(ToolCalled(call));
    SameIndexOfCall(s.entries, b.entries, call.id);
    PlaceholderAdded(b, call.id, request, title);
    ChunkComesFirst(s, call, kind, said, id);
    var b1 := B.Step(b, p);
    PlaceholderStays(b1, |s.entries|, call, kind, said, id);
    DifferAt(S.Step(S.Step(s, c), t), B.Step(B.Step(b1, c), t), |s.entries|);
  }

  lemma DifferAt(s: S.ThreadState, b: B.ThreadState, n: nat)
    requires n < |b.entries| && b.entries[n].Tool?
    requires |s.entries| == |b.entries| ==> s.entries[n].Assistant?
    ensures !ThreadsAlike(s, b)
  {
    assert |s.entries| == |b.entries| ==> !Alike(s.entries[n], b.entries[n], n);
  }

  lemma PlaceholderAdded(b: B.ThreadState, call: string, request: Json, title: string)
    requires B.IndexOfCall(b.entries, call) == |b.entries|
    ensures var b', n := B.AttachPermission(b, call, request, title), |b.entries|;
            |b'.entries| == n + 1 && b'.entries[..n] == b.entries && B.IndexOfCall(b'.entries, call) == n
  {
    var b' := B.AttachPermission(b, call, request, title);
    assert forall k | 0 <= k < |b.entries| :: b'.entries[k] == b.entries[k];
    assert B.IsCall(b'.entries[|b.entries|], call);
  }

  // The browser keeps the call where its placeholder was,
  lemma PlaceholderStays(b: B.ThreadState, n: nat, call: ToolCall, kind: ChunkKind, said: ContentBlock,
                         id: Option<string>)
    requires |b.entries| == n + 1 && B.IndexOfCall(b.entries, call.id) == n
    ensures var b' := B.UpsertToolCall(B.AppendAssistantChunk(b, kind, said, id), call);
            |b'.entries| == n + 2 && b'.entries[n].Tool?
  {
    var b1 := B.AppendAssistantChunk(b, kind, said, id);
    assert forall k | 0 <= k <= n :: b1.entries[k] == b.entries[k];
    assert B.IsCall(b1.entries[n], call.id) && B.IndexOfCall(b1.entries, call.id) == n;
  }

  // and the server puts it after what was said.
  lemma ChunkComesFirst(s: S.ThreadState, call: ToolCall, kind: ChunkKind, said: ContentBlock, id: Option<string>)
    requires S.IndexOfCall(s.entries, call.id) == |s.entries|
    ensures var n, s' := |s.entries|, S.WithCall(S.WithAssistantChunk(s, kind, said, id), call);
            n < |s'.entries| && (|s'.entries| == n + 2 ==> s'.entries[n].Assistant?)
  {
    var s1 := S.WithAssistantChunk(s, kind, said, id);
    assert forall k | 0 <= k < |s1.entries| :: !S.IsCall(s1.entries[k], call.id);
  }

  // ----- A question that arrives twice -----

  function Reask(e: Elicitation): Event {
    Questioned(e.requestId, e.message, e.toolCallId, Known(e.mode))
  }

  // After a reload an open question arrives twice: in the replay, and re-asked
  // so that it can be answered. The two are one form on screen.
  lemma ReaskChangesNothing(t: S.ThreadState, i: nat)
    requires QuestionsDistinct(t.entries) && i < |t.entries| && S.IsPending(t.entries[i])
    ensures Erased(B.Step(Viewed(t), Reask(t.entries[i].asked))) == Erased(Viewed(t))
  {
    var e, b := t.entries[i].asked, Viewed(t);
    forall k | 0 <= k < |b.entries|
      ensures B.IsQuestion(b.entries[k], e.requestId) <==> k == i
    {
      assert b.entries[k] == Shown(t.entries[k], k);
    }
    assert B.IsQuestion(b.entries[i], e.requestId);
    var at := B.IndexOfQuestion(b.entries, e.requestId);
    assert at <= i && B.IsQuestion(b.entries[at], e.requestId);
    assert Erased(B.Step(b, Reask(e))).entries == Erased(b).entries;
  }

  lemma RunsStep(b: B.ThreadState, events: seq<Event>, e: Event)
    ensures B.Run(b, events + [e]) == B.Step(B.Run(b, events), e)
  {
    assert (events + [e])[..|events|] == events;
  }
}
