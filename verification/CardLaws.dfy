// What a tool call's card shows: of each field the last that was said, and of
// the permission prompts the last that was asked and is still to be answered.

module CardLaws {
  import opened Wrappers
  import opened ThreadModel
  import S = ServerThread
  import B = BrowserThread

  // ===== The call =====

  // The last thing said of one part of a call: in its announcement, or in an
  // update that carries the part. A call first heard of in an update that does
  // not carry it starts from `first`.
  function LastSaid<T>(events: seq<Event>, id: string, announced: ToolCall -> T, carried: ToolCallFields -> Option<T>,
                       first: T): Option<T> {
    if events == [] then None
    else
      var before := LastSaid(events[..|events| - 1], id, announced, carried, first);
      match events[|events| - 1]
      case Updated(ToolCalled(call)) => if call.id == id then Some(announced(call)) else before
      case Updated(ToolCallUpdated(call, fields)) =>
        if call != id then before
        else if carried(fields).Some? then carried(fields)
        else if before.Some? then before
        else Some(first)
      case _ => before
  }

  function Title(events: seq<Event>, id: string): Option<string> {
    LastSaid(events, id, (c: ToolCall) => c.title, (f: ToolCallFields) => f.title, "")
  }

  function Kind(events: seq<Event>, id: string): Option<string> {
    LastSaid(events, id, (c: ToolCall) => c.kind, (f: ToolCallFields) => f.kind, "other")
  }

  function Progress(events: seq<Event>, id: string): Option<string> {
    LastSaid(events, id, (c: ToolCall) => c.status, (f: ToolCallFields) => f.status, "pending")
  }

  function Content(events: seq<Event>, id: string): Option<seq<Json>> {
    LastSaid(events, id, (c: ToolCall) => c.content, (f: ToolCallFields) => f.content, [])
  }

  function Locations(events: seq<Event>, id: string): Option<seq<Json>> {
    LastSaid(events, id, (c: ToolCall) => c.locations, (f: ToolCallFields) => f.locations, [])
  }

  function Input(events: seq<Event>, id: string): Option<Option<Json>> {
    LastSaid(events, id, (c: ToolCall) => c.rawInput,
             (f: ToolCallFields) => if f.rawInput.Some? then Some(f.rawInput) else None, None)
  }

  function Output(events: seq<Event>, id: string): Option<Option<Json>> {
    LastSaid(events, id, (c: ToolCall) => c.rawOutput,
             (f: ToolCallFields) => if f.rawOutput.Some? then Some(f.rawOutput) else None, None)
  }

  // All seven, of one call.
  predicate IsLastSaid(events: seq<Event>, id: string, call: ToolCall) {
    && call.id == id
    && Title(events, id) == Some(call.title) && Kind(events, id) == Some(call.kind)
    && Progress(events, id) == Some(call.status) && Content(events, id) == Some(call.content)
    && Locations(events, id) == Some(call.locations)
    && Input(events, id) == Some(call.rawInput) && Output(events, id) == Some(call.rawOutput)
  }

  predicate Mentions(e: Event, id: string) {
    e.Updated? && ((e.update.ToolCalled? && e.update.call.id == id) ||
                   (e.update.ToolCallUpdated? && e.update.toolCallId == id))
  }

  // The thread shows exactly what was said of the call: its first card has it, and
  // there is a card only if something was said.
  predicate Tells(t: S.ThreadState, events: seq<Event>, id: string) {
    var i := S.IndexOfCall(t.entries, id);
    if i < |t.entries| then IsLastSaid(events, id, t.entries[i].call) else Title(events, id).None?
  }

  lemma SaidOfOthers(front: seq<Event>, e: Event, id: string)
    requires !Mentions(e, id)
    ensures var all := front + [e];
            && Title(all, id) == Title(front, id) && Kind(all, id) == Kind(front, id)
            && Progress(all, id) == Progress(front, id) && Content(all, id) == Content(front, id)
            && Locations(all, id) == Locations(front, id)
            && Input(all, id) == Input(front, id) && Output(all, id) == Output(front, id)
  {
    assert (front + [e])[..|front|] == front;
  }

  // What one event leaves of the entries that are not about this call.
  predicate SameCards(before: seq<S.Entry>, after: seq<S.Entry>, id: string) {
    && |before| <= |after|
    && (forall k | 0 <= k < |before| :: S.IsCall(before[k], id) <==> S.IsCall(after[k], id))
    && (forall k | 0 <= k < |before| && S.IsCall(before[k], id) :: after[k] == before[k])
    && (forall k | |before| <= k < |after| :: !S.IsCall(after[k], id))
  }

  lemma UpdateOfOthers(t: S.ThreadState, u: Update, id: string)
    requires !Mentions(Updated(u), id)
    ensures SameCards(t.entries, S.Folded(t, u).entries, id)
  {
    match u
    case UserChunk(_, _) =>
    case AgentChunk(_, _, _) =>
    case ToolCalled(_) =>
    case ToolCallUpdated(_, _) =>
    case _ =>
  }

  lemma StepOfOthers(t: S.ThreadState, e: Event, id: string)
    requires !Mentions(e, id)
    ensures SameCards(t.entries, S.Step(t, e).entries, id)
  {
    match e
    case Updated(u) => UpdateOfOthers(t, u, id);
    case _ =>
  }

  lemma SameIndex(before: seq<S.Entry>, after: seq<S.Entry>, id: string)
    requires SameCards(before, after, id)
    ensures S.IndexOfCall(before, id) < |before| ==> S.IndexOfCall(after, id) == S.IndexOfCall(before, id)
    ensures S.IndexOfCall(before, id) == |before| ==> S.IndexOfCall(after, id) == |after|
  {
  }

  lemma CalledTells(t: S.ThreadState, front: seq<Event>, call: ToolCall)
    requires Tells(t, front, call.id)
    ensures Tells(S.Step(t, Updated(ToolCalled(call))), front + [Updated(ToolCalled(call))], call.id)
  {
    var e, i := Updated(ToolCalled(call)), S.IndexOfCall(t.entries, call.id);
    var after := S.Step(t, e).entries;
    assert (front + [e])[..|front|] == front;
    assert S.IsCall(after[i], call.id) && S.IndexOfCall(after, call.id) == i;
  }

  lemma UpdatedTells(t: S.ThreadState, front: seq<Event>, id: string, fields: ToolCallFields)
    requires Tells(t, front, id)
    ensures Tells(S.Step(t, Updated(ToolCallUpdated(id, fields))), front + [Updated(ToolCallUpdated(id, fields))], id)
  {
    var e, i := Updated(ToolCallUpdated(id, fields)), S.IndexOfCall(t.entries, id);
    var after := S.Step(t, e).entries;
    assert (front + [e])[..|front|] == front;
    assert S.IsCall(after[i], id) && S.IndexOfCall(after, id) == i;
    if i == |t.entries| {
      NothingSaid(front, id);
    }
  }

  // Either all of a call was said or none of it.
  lemma {:induction false} NothingSaid(events: seq<Event>, id: string)
    ensures Title(events, id).None? ==>
              && Kind(events, id).None? && Progress(events, id).None? && Content(events, id).None?
              && Locations(events, id).None? && Input(events, id).None? && Output(events, id).None?
  {
    if events != [] {
      NothingSaid(events[..|events| - 1], id);
    }
  }

  // Over every conversation a call's card has, part by part, what was last said
  // of that part, and there is a card exactly when something was said.
  lemma {:induction false} CardIsLastSaid(events: seq<Event>, id: string)
    ensures Tells(S.Run(S.EMPTY, events), events, id)
  {
    if events != [] {
      var front, e := events[..|events| - 1], events[|events| - 1];
      var t := S.Run(S.EMPTY, front);
      assert events == front + [e];
      CardIsLastSaid(front, id);
      if !Mentions(e, id) {
        SaidOfOthers(front, e, id);
        StepOfOthers(t, e, id);
        SameIndex(t.entries, S.Step(t, e).entries, id);
      } else if e.update.ToolCalled? {
        CalledTells(t, front, e.update.call);
      } else {
        UpdatedTells(t, front, id, e.update.fields);
      }
    }
  }

  // ===== The prompt on it =====

  // How far a call has got, as the page has it: a prompt for a call nobody spoke
  // of puts it on the timeline as pending.
  function Standing(events: seq<Event>, id: string): Option<string> {
    if events == [] then None
    else
      var before := Standing(events[..|events| - 1], id);
      match events[|events| - 1]
      case PermissionAsked(call, _, _) => if call == id && before.None? then Some("pending") else before
      case Updated(ToolCalled(call)) => if call.id == id then Some(call.status) else before
      case Updated(ToolCallUpdated(call, fields)) =>
        if call != id then before
        else if fields.status.Some? then fields.status
        else if before.Some? then before
        else Some("pending")
      case _ => before
  }

  // The request last asked for a call and since neither answered nor overtaken: an
  // update settles it unless the call is, by then, still pending or in progress.
  function Outstanding(events: seq<Event>, id: string): Option<Json> {
    if events == [] then None
    else
      var before := Outstanding(events[..|events| - 1], id);
      match events[|events| - 1]
      case PermissionAsked(call, request, _) => if call == id then Some(request) else before
      case PermissionCleared(call) => if call == id then None else before
      case Updated(ToolCallUpdated(call, _)) =>
        if call != id || Standing(events, id) == Some("pending") || Standing(events, id) == Some("in_progress")
        then before else None
      case _ => before
  }

  // The page's first card for the call stands there and awaits that.
  predicate Awaits(b: B.ThreadState, events: seq<Event>, id: string) {
    var i := B.IndexOfCall(b.entries, id);
    if i == |b.entries| then Standing(events, id).None? && Outstanding(events, id).None?
    else
      var card := b.entries[i].toolCall;
      Standing(events, id) == Some(card.call.status) && Outstanding(events, id) == card.awaitingPermission
  }

  predicate Touches(e: Event, id: string) {
    Mentions(e, id) || (e.PermissionAsked? && e.forCall == id) || (e.PermissionCleared? && e.forCall == id)
  }

  predicate SameShown(before: seq<B.Entry>, after: seq<B.Entry>, id: string) {
    && |before| <= |after|
    && (forall k | 0 <= k < |before| :: B.IsCall(before[k], id) <==> B.IsCall(after[k], id))
    && (forall k | 0 <= k < |before| && B.IsCall(before[k], id) :: after[k] == before[k])
    && (forall k | |before| <= k < |after| :: !B.IsCall(after[k], id))
  }

  lemma ShownUpdateOfOthers(b: B.ThreadState, u: Update, id: string)
    requires !Mentions(Updated(u), id)
    ensures SameShown(b.entries, B.ApplyUpdate(b, u).entries, id)
  {
    match u
    case UserChunk(_, _) =>
    case AgentChunk(_, _, _) =>
    case ToolCalled(_) =>
    case ToolCallUpdated(_, _) =>
    case _ =>
  }

  lemma ShownStepOfOthers(b: B.ThreadState, e: Event, id: string)
    requires !Touches(e, id)
    ensures SameShown(b.entries, B.Step(b, e).entries, id)
  {
    match e
    case Updated(u) => ShownUpdateOfOthers(b, u, id);
    case Questioned(_, _, _, _) =>
    case PermissionAsked(_, _, _) =>
    case PermissionCleared(_) =>
    case _ =>
  }

  lemma AwaitsOfOthers(b: B.ThreadState, front: seq<Event>, e: Event, id: string)
    requires Awaits(b, front, id) && !Touches(e, id)
    ensures Awaits(B.Step(b, e), front + [e], id)
  {
    ShownStepOfOthers(b, e, id);
    assert (front + [e])[..|front|] == front;
    var before, after := b.entries, B.Step(b, e).entries;
    assert B.IndexOfCall(before, id) < |before| ==> B.IndexOfCall(after, id) == B.IndexOfCall(before, id);
    assert B.IndexOfCall(before, id) == |before| ==> B.IndexOfCall(after, id) == |after|;
  }

  lemma AwaitsOfThis(b: B.ThreadState, front: seq<Event>, e: Event, id: string)
    requires Awaits(b, front, id) && Touches(e, id)
    ensures Awaits(B.Step(b, e), front + [e], id)
  {
    var i, after := B.IndexOfCall(b.entries, id), B.Step(b, e).entries;
    assert (front + [e])[..|front|] == front;
    if i < |after| {
      assert B.IsCall(after[i], id) && B.IndexOfCall(after, id) == i;
    }
  }

  // Over every conversation, the page asks on a call's card exactly the request
  // last put for it that has since been neither answered nor overtaken.
  lemma {:induction false} CardAwaitsOutstanding(events: seq<Event>, id: string)
    ensures Awaits(B.Run(B.EMPTY, events), events, id)
  {
    if events != [] {
      var front, e := events[..|events| - 1], events[|events| - 1];
      assert events == front + [e];
      CardAwaitsOutstanding(front, id);
      if Touches(e, id) {
        AwaitsOfThis(B.Run(B.EMPTY, front), front, e, id);
      } else {
        AwaitsOfOthers(B.Run(B.EMPTY, front), front, e, id);
      }
    }
  }

  // The prompt is put on the first card for its call, which is otherwise as it
  // was; for a call nobody spoke of a card is added, titled by the prompt. No other
  // entry is touched.
  lemma PromptIsShown(b: B.ThreadState, id: string, request: Json, title: string)
    ensures var i, b' := B.IndexOfCall(b.entries, id), B.Step(b, PermissionAsked(id, request, title));
            && b' == b.(entries := b'.entries) && i < |b'.entries| && b'.entries[i].Tool?
            && b'.entries[i].toolCall.awaitingPermission == Some(request)
            && (forall k | 0 <= k < |b'.entries| && k != i :: k < |b.entries| && b'.entries[k] == b.entries[k])
            && if i < |b.entries| then
                 && |b'.entries| == |b.entries| && b'.entries[i].id == b.entries[i].id
                 && b'.entries[i].toolCall.call == b.entries[i].toolCall.call
               else
                 && |b'.entries| == |b.entries| + 1 && b'.entries[i].id == id
                 && b'.entries[i].toolCall.call == ToolCall(id, title, "other", "pending", [], [], None, None)
  {
  }
}
