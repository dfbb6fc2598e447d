// What the server's fold guarantees over whole conversations.

module ServerThreadLaws {
  import opened Wrappers
  import opened ThreadModel
  import opened ServerThread
  import Decimal
  import opened Sequences

  // ===== Streaming does not depend on how the text was cut up =====

  // The text blocks of one run, joined; the first keeps its own extra fields.
  function Joined(pieces: seq<ContentBlock>): ContentBlock
    requires pieces != [] && forall p | p in pieces :: p.Text?
    ensures Joined(pieces).Text?
  {
    if |pieces| == 1 then pieces[0]
    else
      var front := Joined(pieces[..|pieces| - 1]);
      front.(text := front.text + pieces[|pieces| - 1].text)
  }

  function Chunks(kind: ChunkKind, pieces: seq<ContentBlock>, id: Option<string>): seq<Event> {
    seq(|pieces|, i requires 0 <= i < |pieces| => Updated(AgentChunk(kind, pieces[i], id)))
  }

  // What an assistant chunk does to the timeline alone.
  lemma PieceSaid(t: ThreadState, kind: ChunkKind, b: ContentBlock, id: Option<string>, front: seq<Entry>, e: Entry)
    requires t.entries == front + [e] && e.Assistant?
    ensures WithAssistantChunk(t, kind, b, id)
         == t.(entries := front + [Assistant(e.id, WithChunk(e.chunks, kind, b, id))])
  {
    LastReplaced(t.entries, Assistant(e.id, WithChunk(e.chunks, kind, b, id)));
    assert t.entries[..|front|] == front;
  }

  lemma TwoPieces(t: ThreadState, kind: ChunkKind, x: ContentBlock, y: ContentBlock, id: Option<string>)
    requires x.Text? && y.Text?
    ensures WithAssistantChunk(WithAssistantChunk(t, kind, x, id), kind, y, id)
         == WithAssistantChunk(t, kind, x.(text := x.text + y.text), id)
  {
    var n := |t.entries|;
    var xy := x.(text := x.text + y.text);
    var once := WithAssistantChunk(t, kind, x, id);
    if n > 0 && t.entries[n - 1].Assistant? {
      var front, e := t.entries[..n - 1], t.entries[n - 1];
      FrontAndLast(t.entries);
      PieceSaid(t, kind, x, id, front, e);
      PieceSaid(t, kind, xy, id, front, e);
      PieceSaid(once, kind, y, id, front, Assistant(e.id, WithChunk(e.chunks, kind, x, id)));
      TwoPiecesInRun(e.chunks, kind, x, y, id);
    } else {
      PieceSaid(once, kind, y, id, t.entries, Assistant(Mint("assistant", t.nextId + 1), [Chunk(kind, id, [x])]));
      NewRunOf(kind, x, y, id);
    }
  }

  lemma NewRunOf(kind: ChunkKind, x: ContentBlock, y: ContentBlock, id: Option<string>)
    requires x.Text? && y.Text?
    ensures WithChunk([Chunk(kind, id, [x])], kind, y, id) == [Chunk(kind, id, [x.(text := x.text + y.text)])]
  {
    PieceContinues([], Chunk(kind, id, [x]), kind, y, id);
    assert [] + [Chunk(kind, id, [x])] == [Chunk(kind, id, [x])];
    assert AppendContent([x], y) == [x.(text := x.text + y.text)];
  }

  lemma TwoBlocks(c: seq<ContentBlock>, x: ContentBlock, y: ContentBlock)
    requires x.Text? && y.Text?
    ensures AppendContent(AppendContent(c, x), y) == AppendContent(c, x.(text := x.text + y.text))
  {
    if c != [] && c[|c| - 1].Text? {
      assert (c[|c| - 1].text + x.text) + y.text == c[|c| - 1].text + (x.text + y.text);
    }
  }

  // A run that ends in a chunk the pieces belong to only has that chunk change.
  lemma PieceContinues(chunks: seq<Chunk>, c: Chunk, kind: ChunkKind, b: ContentBlock, id: Option<string>)
    requires c.kind == kind && CanMerge(c.id, id)
    ensures WithChunk(chunks + [c], kind, b, id)
         == chunks + [Chunk(kind, if c.id.None? then id else c.id, AppendContent(c.content, b))]
  {
  }

  lemma TwoPiecesInRun(chunks: seq<Chunk>, kind: ChunkKind, x: ContentBlock, y: ContentBlock, id: Option<string>)
    requires x.Text? && y.Text?
    ensures WithChunk(WithChunk(chunks, kind, x, id), kind, y, id)
         == WithChunk(chunks, kind, x.(text := x.text + y.text), id)
  {
    var n := |chunks|;
    if n > 0 && chunks[n - 1].kind == kind && CanMerge(chunks[n - 1].id, id) {
      var front, c := chunks[..n - 1], chunks[n - 1];
      var joinedId := if c.id.None? then id else c.id;
      assert chunks == front + [c];
      PieceContinues(front, c, kind, x, id);
      PieceContinues(front, c, kind, x.(text := x.text + y.text), id);
      PieceContinues(front, Chunk(kind, joinedId, AppendContent(c.content, x)), kind, y, id);
      TwoBlocks(c.content, x, y);
    } else {
      PieceContinues(chunks, Chunk(kind, id, [x]), kind, y, id);
      TwoBlocks([], x, y);
      assert AppendContent([], x) == [x];
      assert AppendContent([], x.(text := x.text + y.text)) == [x.(text := x.text + y.text)];
    }
  }

  lemma {:induction false} Tokenisation(t: ThreadState, kind: ChunkKind, pieces: seq<ContentBlock>, id: Option<string>)
    requires pieces != [] && forall p | p in pieces :: p.Text?
    ensures Run(t, Chunks(kind, pieces, id)) == Step(t, Updated(AgentChunk(kind, Joined(pieces), id)))
  {
    var events := Chunks(kind, pieces, id);
    var front := pieces[..|pieces| - 1];
    assert events[..|pieces| - 1] == Chunks(kind, front, id);
    if |pieces| == 1 {
      assert events[..0] == [];
    } else {
      Tokenisation(t, kind, front, id);
      TwoPieces(t, kind, Joined(front), pieces[|pieces| - 1], id);
    }
  }

  // ===== How one event can change the timeline =====

  function Prefix(e: Entry): string
    requires !e.Tool?
  {
    if e.User? then "user" else if e.Assistant? then "assistant" else "elicitation"
  }

  function IdOf(e: Entry): string {
    match e
    case User(id, _, _, _) => id
    case Assistant(id, _) => id
    case Tool(call) => call.id
    case Asked(asked) => asked.id
  }

  // The same thing at the same place: an entry never changes what it is.
  predicate Kin(a: Entry, b: Entry) {
    && (a.User? <==> b.User?) && (a.Assistant? <==> b.Assistant?)
    && (a.Tool? <==> b.Tool?) && (a.Asked? <==> b.Asked?)
    && IdOf(a) == IdOf(b)
  }

  // The timeline only grows at its end, by one entry at most, and an entry
  // that was there keeps its kind and its id; what the agent said changes only
  // when the agent says more.
  ghost predicate Shape(t: ThreadState, e: Event, t': ThreadState) {
    var n := |t.entries|;
    && t.nextId <= t'.nextId
    && n <= |t'.entries| <= n + 1
    && (forall i | 0 <= i < n :: Kin(t.entries[i], t'.entries[i]))
    && (n < |t'.entries| ==>
          if t'.entries[n].Tool? then IndexOfCall(t.entries, t'.entries[n].call.id) == n
          else t'.nextId == t.nextId + 1 && IdOf(t'.entries[n]) == Mint(Prefix(t'.entries[n]), t'.nextId))
    && (!(e.Updated? && e.update.AgentChunk?) ==>
          && (forall i | 0 <= i < n && t.entries[i].Assistant? :: t'.entries[i] == t.entries[i])
          && (n < |t'.entries| ==> !t'.entries[n].Assistant?))
  }

  lemma UserChunkShape(t: ThreadState, content: ContentBlock, id: Option<string>)
    ensures Shape(t, Updated(UserChunk(content, id)), WithUserChunk(t, content, id))
  {
  }

  lemma AgentChunkShape(t: ThreadState, kind: ChunkKind, content: ContentBlock, id: Option<string>)
    ensures Shape(t, Updated(AgentChunk(kind, content, id)), WithAssistantChunk(t, kind, content, id))
  {
  }

  lemma CallShape(t: ThreadState, call: ToolCall)
    ensures Shape(t, Updated(ToolCalled(call)), WithCall(t, call))
  {
  }

  lemma CallUpdateShape(t: ThreadState, id: string, f: ToolCallFields)
    ensures Shape(t, Updated(ToolCallUpdated(id, f)), WithCallUpdate(t, id, f))
  {
  }

  lemma UpdateShape(t: ThreadState, u: Update)
    ensures Shape(t, Updated(u), Folded(t, u))
  {
    match u
    case UserChunk(content, id) => UserChunkShape(t, content, id);
    case AgentChunk(kind, content, id) => AgentChunkShape(t, kind, content, id);
    case ToolCalled(call) => CallShape(t, call);
    case ToolCallUpdated(id, f) => CallUpdateShape(t, id, f);
    case _ =>
  }

  lemma QuestionShape(t: ThreadState, e: Event)
    requires e.Questioned?
    ensures Shape(t, e, Step(t, e))
  {
  }

  lemma AnswerShape(t: ThreadState, e: Event)
    requires e.Answered?
    ensures Shape(t, e, Step(t, e))
  {
  }

  lemma CompletionShape(t: ThreadState, e: Event)
    requires e.Completed?
    ensures Shape(t, e, Step(t, e))
  {
  }

  lemma TurnEndShape(t: ThreadState, e: Event)
    requires e.TurnEnded? || e.TurnFailed? || e.TurnUnread?
    ensures Shape(t, e, Step(t, e))
  {
    assert forall i | 0 <= i < |t.entries| :: Kin(t.entries[i], GivenUp(t.entries[i]));
  }

  lemma StepShape(t: ThreadState, e: Event)
    ensures Shape(t, e, Step(t, e))
  {
    match e
    case Updated(u) => UpdateShape(t, u);
    case Questioned(_, _, _, _) => QuestionShape(t, e);
    case Answered(_, _, _) => AnswerShape(t, e);
    case Completed(_) => CompletionShape(t, e);
    case TurnEnded(_) => TurnEndShape(t, e);
    case TurnFailed => TurnEndShape(t, e);
    case TurnUnread(_) => TurnEndShape(t, e);
    case _ =>
  }

  // The events of an update name everything it changed, so that a caller can
  // push just that, exactly when it is not an echo lending a prompt its label:
  // that one change goes unannounced.
  lemma EventsAccount(t: ThreadState, u: Update)
    ensures Accounts(t, Folded(t, u), EventsOf(t, u)) <==> !LendsLabel(t, u)
  {
    match u
    case UserChunk(content, id) => UserChunkAccounts(t, content, id);
    case AgentChunk(_, _, _) =>
    case ToolCalled(call) =>
    case ToolCallUpdated(id, _) =>
    case _ =>
  }

  lemma UserChunkAccounts(t: ThreadState, content: ContentBlock, id: Option<string>)
    ensures Accounts(t, WithUserChunk(t, content, id), EventsOf(t, UserChunk(content, id)))
            <==> !LendsLabel(t, UserChunk(content, id))
  {
    var n := |t.entries|;
    if LendsLabel(t, UserChunk(content, id)) {
      assert WithUserChunk(t, content, id).entries[n - 1] != t.entries[n - 1];
    } else if n > 0 && AbsorbsEcho(t.entries[n - 1], content, id) {
      assert WithUserChunk(t, content, id).entries == t.entries;
    }
  }

  // ===== Nothing the agent says is lost, repeated or reordered =====

  datatype Item = Letter(c: char) | Whole(block: ContentBlock)

  function Letters(s: string): seq<Item> {
    seq(|s|, i requires 0 <= i < |s| => Letter(s[i]))
  }

  function BlockItems(b: ContentBlock): seq<Item> {
    if b.Text? then Letters(b.text) else [Whole(b)]
  }

  function ContentItems(content: seq<ContentBlock>): seq<Item> {
    if content == [] then []
    else ContentItems(content[..|content| - 1]) + BlockItems(content[|content| - 1])
  }

  function ChunkItems(c: Chunk, kind: ChunkKind): seq<Item> {
    if c.kind == kind then ContentItems(c.content) else []
  }

  function ChunksItems(chunks: seq<Chunk>, kind: ChunkKind): seq<Item> {
    if chunks == [] then []
    else ChunksItems(chunks[..|chunks| - 1], kind) + ChunkItems(chunks[|chunks| - 1], kind)
  }

  function EntryItems(e: Entry, kind: ChunkKind): seq<Item> {
    if e.Assistant? then ChunksItems(e.chunks, kind) else []
  }

  // Everything of one kind the thread shows the agent to have said, in order.
  function Said(entries: seq<Entry>, kind: ChunkKind): seq<Item> {
    if entries == [] then []
    else Said(entries[..|entries| - 1], kind) + EntryItems(entries[|entries| - 1], kind)
  }

  // What one event makes the agent say.
  function Says(e: Event, kind: ChunkKind): seq<Item> {
    if e.Updated? && e.update.AgentChunk? && e.update.kind == kind then BlockItems(e.update.content) else []
  }

  // What a block said under one kind adds to the text of another.
  function Adds(kind: ChunkKind, b: ContentBlock, k: ChunkKind): seq<Item> {
    if k == kind then BlockItems(b) else []
  }

  function Heard(events: seq<Event>, kind: ChunkKind): seq<Item> {
    if events == [] then []
    else Heard(events[..|events| - 1], kind) + Says(events[|events| - 1], kind)
  }

  lemma ContentItemsMore(front: seq<ContentBlock>, b: ContentBlock)
    ensures ContentItems(front + [b]) == ContentItems(front) + BlockItems(b)
  {
    assert (front + [b])[..|front|] == front;
  }

  lemma LettersJoined(s: string, t: string)
    ensures Letters(s + t) == Letters(s) + Letters(t)
  {
  }

  lemma AppendKeepsItems(content: seq<ContentBlock>, b: ContentBlock)
    ensures ContentItems(AppendContent(content, b)) == ContentItems(content) + BlockItems(b)
  {
    var n := |content|;
    if n > 0 && content[n - 1].Text? && b.Text? {
      var front, last := content[..n - 1], content[n - 1];
      var longer := last.(text := last.text + b.text);
      FrontAndLast(content);
      ContentItemsMore(front, last);
      ContentItemsMore(front, longer);
      LettersJoined(last.text, b.text);
      Reassociated(ContentItems(front), BlockItems(last), BlockItems(b));
      assert AppendContent(content, b) == front + [longer];
    } else {
      ContentItemsMore(content, b);
    }
  }

  lemma OneBlock(b: ContentBlock)
    ensures ContentItems([b]) == BlockItems(b)
  {
    assert [b][..0] == [];
    assert ContentItems([]) == [];
  }

  lemma ChunksItemsMore(front: seq<Chunk>, c: Chunk, k: ChunkKind)
    ensures ChunksItems(front + [c], k) == ChunksItems(front, k) + ChunkItems(c, k)
  {
    assert (front + [c])[..|front|] == front;
  }

  lemma LongerChunk(chunks: seq<Chunk>, c: Chunk, k: ChunkKind, added: seq<Item>)
    requires chunks != [] && ChunkItems(c, k) == ChunkItems(chunks[|chunks| - 1], k) + added
    ensures ChunksItems(chunks[|chunks| - 1 := c], k) == ChunksItems(chunks, k) + added
  {
    var front, last := chunks[..|chunks| - 1], chunks[|chunks| - 1];
    FrontAndLast(chunks);
    LastReplaced(chunks, c);
    ChunksItemsMore(front, last, k);
    ChunksItemsMore(front, c, k);
    Reassociated(ChunksItems(front, k), ChunkItems(last, k), added);
  }

  lemma NewChunk(chunks: seq<Chunk>, kind: ChunkKind, b: ContentBlock, id: Option<string>, k: ChunkKind)
    ensures ChunksItems(chunks + [Chunk(kind, id, [b])], k) == ChunksItems(chunks, k) + Adds(kind, b, k)
  {
    OneBlock(b);
    ChunksItemsMore(chunks, Chunk(kind, id, [b]), k);
  }

  lemma ChunkKeepsItems(chunks: seq<Chunk>, kind: ChunkKind, b: ContentBlock, id: Option<string>, k: ChunkKind)
    ensures ChunksItems(WithChunk(chunks, kind, b, id), k) == ChunksItems(chunks, k) + Adds(kind, b, k)
  {
    var n := |chunks|;
    if n > 0 && chunks[n - 1].kind == kind && CanMerge(chunks[n - 1].id, id) {
      AppendKeepsItems(chunks[n - 1].content, b);
      LongerChunk(chunks, WithChunk(chunks, kind, b, id)[n - 1], k, Adds(kind, b, k));
    } else {
      NewChunk(chunks, kind, b, id, k);
    }
  }

  lemma {:induction false} SameItems(before: seq<Entry>, after: seq<Entry>, kind: ChunkKind)
    requires |before| == |after|
    requires forall i | 0 <= i < |before| :: EntryItems(before[i], kind) == EntryItems(after[i], kind)
    ensures Said(before, kind) == Said(after, kind)
  {
    if before != [] {
      SameItems(before[..|before| - 1], after[..|after| - 1], kind);
    }
  }

  lemma SaidAfterAppend(entries: seq<Entry>, e: Entry, kind: ChunkKind)
    ensures Said(entries + [e], kind) == Said(entries, kind) + EntryItems(e, kind)
  {
    assert (entries + [e])[..|entries|] == entries;
  }

  lemma LongerEntry(entries: seq<Entry>, e: Entry, k: ChunkKind, added: seq<Item>)
    requires entries != [] && EntryItems(e, k) == EntryItems(entries[|entries| - 1], k) + added
    ensures Said(entries[|entries| - 1 := e], k) == Said(entries, k) + added
  {
    var front, last := entries[..|entries| - 1], entries[|entries| - 1];
    FrontAndLast(entries);
    LastReplaced(entries, e);
    SaidAfterAppend(front, last, k);
    SaidAfterAppend(front, e, k);
    Reassociated(Said(front, k), EntryItems(last, k), added);
  }

  lemma NewMessageSays(entries: seq<Entry>, mintedId: string, kind: ChunkKind, b: ContentBlock, id: Option<string>,
                       k: ChunkKind)
    ensures Said(entries + [Assistant(mintedId, [Chunk(kind, id, [b])])], k) == Said(entries, k) + Adds(kind, b, k)
  {
    NewChunk([], kind, b, id, k);
    assert [] + [Chunk(kind, id, [b])] == [Chunk(kind, id, [b])];
    assert ChunksItems([], k) + Adds(kind, b, k) == Adds(kind, b, k);
    SaidAfterAppend(entries, Assistant(mintedId, [Chunk(kind, id, [b])]), k);
  }

  lemma LongerMessageSays(entries: seq<Entry>, kind: ChunkKind, b: ContentBlock, id: Option<string>, k: ChunkKind)
    requires entries != [] && entries[|entries| - 1].Assistant?
    ensures var last := entries[|entries| - 1];
            Said(entries[|entries| - 1 := last.(chunks := WithChunk(last.chunks, kind, b, id))], k)
              == Said(entries, k) + Adds(kind, b, k)
  {
    var last := entries[|entries| - 1];
    ChunkKeepsItems(last.chunks, kind, b, id, k);
    LongerEntry(entries, last.(chunks := WithChunk(last.chunks, kind, b, id)), k, Adds(kind, b, k));
  }

  lemma AgentChunkSays(t: ThreadState, kind: ChunkKind, b: ContentBlock, id: Option<string>, k: ChunkKind)
    ensures Said(WithAssistantChunk(t, kind, b, id).entries, k) == Said(t.entries, k) + Adds(kind, b, k)
  {
    if t.entries != [] && t.entries[|t.entries| - 1].Assistant? {
      LongerMessageSays(t.entries, kind, b, id, k);
    } else {
      NewMessageSays(t.entries, Mint("assistant", t.nextId + 1), kind, b, id, k);
    }
  }

  lemma StepSays(t: ThreadState, e: Event, kind: ChunkKind)
    ensures Said(Step(t, e).entries, kind) == Said(t.entries, kind) + Says(e, kind)
  {
    if e.Updated? && e.update.AgentChunk? {
      AgentChunkSays(t, e.update.kind, e.update.content, e.update.messageId, kind);
    } else {
      StepShape(t, e);
      assert forall i | 0 <= i < |t.entries| :: Kin(t.entries[i], Step(t, e).entries[i]);
      SilentStepSays(t.entries, Step(t, e).entries, kind);
    }
  }

  lemma SilentStepSays(before: seq<Entry>, after: seq<Entry>, kind: ChunkKind)
    requires |before| <= |after| <= |before| + 1
    requires forall i | 0 <= i < |before| :: before[i].Assistant? <==> after[i].Assistant?
    requires forall i | 0 <= i < |before| && before[i].Assistant? :: after[i] == before[i]
    requires |before| < |after| ==> !after[|before|].Assistant?
    ensures Said(after, kind) == Said(before, kind) + []
  {
    SameItems(before, after[..|before|], kind);
    if |after| > |before| {
      assert after == after[..|before|] + [after[|before|]];
      SaidAfterAppend(after[..|before|], after[|before|], kind);
    } else {
      assert after[..|before|] == after;
    }
  }

  lemma {:induction false} EverythingSaidIsShown(events: seq<Event>, kind: ChunkKind)
    ensures Said(Run(EMPTY, events).entries, kind) == Heard(events, kind)
  {
    if events != [] {
      EverythingSaidIsShown(events[..|events| - 1], kind);
      StepSays(Run(EMPTY, events[..|events| - 1]), events[|events| - 1], kind);
    }
  }

  // ===== The shape every reachable thread has =====

  predicate CallsOnce(entries: seq<Entry>) {
    forall i, j | 0 <= i < j < |entries| && entries[i].Tool? && entries[j].Tool? ::
      entries[i].call.id != entries[j].call.id
  }

  ghost predicate Minted(e: Entry, bound: nat) {
    !e.Tool? && exists k: nat :: k <= bound && IdOf(e) == Mint(Prefix(e), k)
  }

  // Every minted id came from the counter, and none was minted twice.
  ghost predicate IdsMinted(t: ThreadState) {
    && (forall i | 0 <= i < |t.entries| && !t.entries[i].Tool? :: Minted(t.entries[i], t.nextId))
    && (forall i, j | 0 <= i < j < |t.entries| && !t.entries[i].Tool? && !t.entries[j].Tool? ::
          IdOf(t.entries[i]) != IdOf(t.entries[j]))
  }

  predicate Settled(chunk: Chunk) {
    && chunk.content != []
    && forall i | 0 <= i < |chunk.content| - 1 :: !(chunk.content[i].Text? && chunk.content[i + 1].Text?)
  }

  // Neighbouring chunks of one message were kept apart for a reason.
  predicate Apart(a: Chunk, b: Chunk) {
    a.kind != b.kind || (a.id.Some? && b.id.Some? && a.id.value != b.id.value)
  }

  predicate WellChunked(chunks: seq<Chunk>) {
    && chunks != []
    && (forall i | 0 <= i < |chunks| :: Settled(chunks[i]))
    && (forall i | 0 <= i < |chunks| - 1 :: Apart(chunks[i], chunks[i + 1]))
  }

  predicate WellSaid(entries: seq<Entry>) {
    && (forall i | 0 <= i < |entries| && entries[i].Assistant? :: WellChunked(entries[i].chunks))
    && (forall i | 0 <= i < |entries| - 1 :: !(entries[i].Assistant? && entries[i + 1].Assistant?))
  }

  ghost predicate NormalForm(t: ThreadState) {
    CallsOnce(t.entries) && IdsMinted(t) && WellSaid(t.entries)
  }

  lemma MintInjective(p: string, m: nat, q: string, n: nat)
    requires p in {"user", "assistant", "elicitation"} && q in {"user", "assistant", "elicitation"}
    requires Mint(p, m) == Mint(q, n)
    ensures p == q && m == n
  {
    assert Mint(p, m)[0] == p[0] && Mint(q, n)[0] == q[0];
    assert Mint(p, m)[|p| + 1..] == Decimal.Print(m);
    assert Mint(q, n)[|q| + 1..] == Decimal.Print(n);
    Decimal.PrintInjective(m, n);
  }

  lemma ChunkKeepsShape(chunks: seq<Chunk>, kind: ChunkKind, b: ContentBlock, id: Option<string>)
    requires WellChunked(chunks)
    ensures WellChunked(WithChunk(chunks, kind, b, id))
  {
    var n := |chunks|;
    var after := WithChunk(chunks, kind, b, id);
    if chunks[n - 1].kind == kind && CanMerge(chunks[n - 1].id, id) {
      assert Settled(after[n - 1]);
      forall i | 0 <= i < n - 1
        ensures Apart(after[i], after[i + 1])
      {
        assert Apart(chunks[i], chunks[i + 1]);
      }
    } else {
      assert Apart(after[n - 1], after[n]);
    }
  }

  lemma StepKeepsCallsOnce(t: ThreadState, e: Event)
    requires CallsOnce(t.entries)
    ensures CallsOnce(Step(t, e).entries)
  {
    StepShape(t, e);
    ShapeKeepsCallsOnce(t, e, Step(t, e));
  }

  lemma ShapeKeepsCallsOnce(t: ThreadState, e: Event, t': ThreadState)
    requires CallsOnce(t.entries) && Shape(t, e, t')
    ensures CallsOnce(t'.entries)
  {
    var before, after := t.entries, t'.entries;
    forall i, j | 0 <= i < j < |after| && after[i].Tool? && after[j].Tool?
      ensures after[i].call.id != after[j].call.id
    {
      assert Kin(before[i], after[i]);
      if j < |before| {
        assert Kin(before[j], after[j]);
      } else {
        assert !IsCall(before[i], after[j].call.id);
      }
    }
  }

  lemma KinMinted(a: Entry, b: Entry, m: nat, n: nat)
    requires Kin(a, b) && Minted(a, m) && m <= n
    ensures Minted(b, n)
  {
    var k: nat :| k <= m && IdOf(a) == Mint(Prefix(a), k);
    assert IdOf(b) == Mint(Prefix(b), k);
  }

  lemma NewIdDiffers(a: Entry, m: nat, b: Entry, n: nat)
    requires Minted(a, m) && m < n && !b.Tool? && IdOf(b) == Mint(Prefix(b), n)
    ensures IdOf(a) != IdOf(b)
  {
    var k: nat :| k <= m && IdOf(a) == Mint(Prefix(a), k);
    if IdOf(a) == IdOf(b) {
      MintInjective(Prefix(a), k, Prefix(b), n);
    }
  }

  lemma StepKeepsIds(t: ThreadState, e: Event)
    requires IdsMinted(t)
    ensures IdsMinted(Step(t, e))
  {
    StepShape(t, e);
    ShapeKeepsIds(t, e, Step(t, e));
  }

  lemma ShapeKeepsIds(t: ThreadState, e: Event, t': ThreadState)
    requires IdsMinted(t) && Shape(t, e, t')
    ensures IdsMinted(t')
  {
    forall i | 0 <= i < |t'.entries| && !t'.entries[i].Tool?
      ensures Minted(t'.entries[i], t'.nextId)
    {
      EntryStaysMinted(t, e, t', i);
    }
    forall i, j | 0 <= i < j < |t'.entries| && !t'.entries[i].Tool? && !t'.entries[j].Tool?
      ensures IdOf(t'.entries[i]) != IdOf(t'.entries[j])
    {
      EntriesStayDistinct(t, e, t', i, j);
    }
  }

  lemma EntryStaysMinted(t: ThreadState, e: Event, t': ThreadState, i: nat)
    requires IdsMinted(t) && Shape(t, e, t')
    requires i < |t'.entries| && !t'.entries[i].Tool?
    ensures Minted(t'.entries[i], t'.nextId)
  {
    if i < |t.entries| {
      assert Kin(t.entries[i], t'.entries[i]);
      KinMinted(t.entries[i], t'.entries[i], t.nextId, t'.nextId);
    }
  }

  lemma EntriesStayDistinct(t: ThreadState, e: Event, t': ThreadState, i: nat, j: nat)
    requires IdsMinted(t) && Shape(t, e, t')
    requires i < j < |t'.entries| && !t'.entries[i].Tool? && !t'.entries[j].Tool?
    ensures IdOf(t'.entries[i]) != IdOf(t'.entries[j])
  {
    assert Kin(t.entries[i], t'.entries[i]);
    if j < |t.entries| {
      assert Kin(t.entries[j], t'.entries[j]);
    } else {
      NewIdDiffers(t.entries[i], t.nextId, t'.entries[j], t'.nextId);
    }
  }

  lemma ShapeKeepsSaid(t: ThreadState, e: Event, t': ThreadState)
    requires WellSaid(t.entries) && Shape(t, e, t') && !(e.Updated? && e.update.AgentChunk?)
    ensures WellSaid(t'.entries)
  {
    var before, after := t.entries, t'.entries;
    forall i | 0 <= i < |before|
      ensures before[i].Assistant? <==> after[i].Assistant?
    {
      assert Kin(before[i], after[i]);
    }
  }

  lemma ChunkKeepsSaid(t: ThreadState, kind: ChunkKind, b: ContentBlock, id: Option<string>)
    requires WellSaid(t.entries)
    ensures WellSaid(WithAssistantChunk(t, kind, b, id).entries)
  {
    var n := |t.entries|;
    if n > 0 && t.entries[n - 1].Assistant? {
      ChunkKeepsShape(t.entries[n - 1].chunks, kind, b, id);
    }
  }

  lemma StepKeepsSaid(t: ThreadState, e: Event)
    requires WellSaid(t.entries)
    ensures WellSaid(Step(t, e).entries)
  {
    if e.Updated? && e.update.AgentChunk? {
      ChunkKeepsSaid(t, e.update.kind, e.update.content, e.update.messageId);
    } else {
      StepShape(t, e);
      ShapeKeepsSaid(t, e, Step(t, e));
    }
  }

  lemma {:induction false} EveryThreadIsNormal(events: seq<Event>)
    ensures NormalForm(Run(EMPTY, events))
  {
    if events != [] {
      EveryThreadIsNormal(events[..|events| - 1]);
      var t := Run(EMPTY, events[..|events| - 1]);
      StepKeepsCallsOnce(t, events[|events| - 1]);
      StepKeepsIds(t, events[|events| - 1]);
      StepKeepsSaid(t, events[|events| - 1]);
    }
  }

  // ===== A prompt the agent repeats is shown once =====

  function Echoes(blocks: seq<ContentBlock>, labelled: Option<string>): seq<Event> {
    seq(|blocks|, i requires 0 <= i < |blocks| => Updated(UserChunk(blocks[i], labelled)))
  }

  // Any sequence of a prompt's own blocks, under one label, leaves the timeline
  // as the prompt left it but for the label the message adopts.
  lemma {:induction false} EchoIsAbsorbed(t: ThreadState, prompt: seq<ContentBlock>, echoed: seq<ContentBlock>,
                                          labelled: Option<string>)
    requires forall e | e in echoed :: exists b | b in prompt :: SameBlock(b, e)
    ensures var shown := WithPrompt(t, prompt);
            var last := |shown.entries| - 1;
            Run(shown, Echoes(echoed, labelled)) ==
            shown.(entries := shown.entries[last := shown.entries[last].(protocolId :=
                     if echoed == [] then None else labelled)])
  {
    var shown := WithPrompt(t, prompt);
    if echoed != [] {
      var front := echoed[..|echoed| - 1];
      assert forall e | e in front :: e in echoed;
      assert Echoes(echoed, labelled)[..|echoed| - 1] == Echoes(front, labelled);
      EchoIsAbsorbed(t, prompt, front, labelled);
      assert echoed[|echoed| - 1] in echoed;
    } else {
      assert shown.entries[|shown.entries| - 1 := shown.entries[|shown.entries| - 1]] == shown.entries;
    }
  }

  predicate Repeats(prompt: seq<ContentBlock>, echoed: seq<ContentBlock>) {
    forall e | e in echoed :: exists b | b in prompt :: SameBlock(b, e)
  }

  lemma {:induction false} FirstForeign(prompt: seq<ContentBlock>, echoed: seq<ContentBlock>) returns (k: nat)
    requires !Repeats(prompt, echoed)
    ensures k < |echoed| && Repeats(prompt, echoed[..k]) && !exists b | b in prompt :: SameBlock(b, echoed[k])
  {
    var front := echoed[..|echoed| - 1];
    assert echoed == front + [echoed[|front|]];
    if Repeats(prompt, front) {
      k := |front|;
    } else {
      k := FirstForeign(prompt, front);
      assert front[..k] == echoed[..k];
    }
  }

  lemma {:induction false} EntriesOnlyGrow(t: ThreadState, events: seq<Event>, k: nat)
    requires k <= |events|
    ensures |Run(t, events[..k]).entries| <= |Run(t, events).entries|
    decreases |events|
  {
    if k < |events| {
      var front := events[..|events| - 1];
      assert front[..k] == events[..k];
      EntriesOnlyGrow(t, front, k);
      StepShape(Run(t, front), events[|events| - 1]);
    } else {
      assert events[..k] == events;
    }
  }

  // And nothing else is taken for an echo: chunks that follow a prompt, under
  // one label, add nothing to the timeline exactly when each of them repeats a
  // block of it.
  lemma OnlyEchoesAreAbsorbed(t: ThreadState, prompt: seq<ContentBlock>, echoed: seq<ContentBlock>,
                              labelled: Option<string>)
    ensures |Run(WithPrompt(t, prompt), Echoes(echoed, labelled)).entries| == |t.entries| + 1
            <==> Repeats(prompt, echoed)
  {
    var shown, events := WithPrompt(t, prompt), Echoes(echoed, labelled);
    if Repeats(prompt, echoed) {
      EchoIsAbsorbed(t, prompt, echoed, labelled);
    } else {
      var k := FirstForeign(prompt, echoed);
      EchoIsAbsorbed(t, prompt, echoed[..k], labelled);
      assert events[..k] == Echoes(echoed[..k], labelled);
      assert events[..k + 1][..k] == events[..k];
      assert |Run(shown, events[..k + 1]).entries| == |t.entries| + 2;
      EntriesOnlyGrow(shown, events, k + 1);
    }
  }

  // ===== Giving up =====

  // How many questions are given up on is how many of the places hold one that is
  // open, each counted once.
  lemma {:induction false} GivenUpAreCounted(entries: seq<Entry>)
    ensures CountPending(entries) ==
              |set i | 0 <= i < |entries| && entries[i].Asked? && entries[i].asked.state == Pending|
  {
    if entries != [] {
      var n, front := |entries| - 1, entries[..|entries| - 1];
      GivenUpAreCounted(front);
      var fewer := set i | 0 <= i < |front| && front[i].Asked? && front[i].asked.state == Pending;
      var all := set i | 0 <= i < |entries| && entries[i].Asked? && entries[i].asked.state == Pending;
      assert all == fewer + if entries[n].Asked? && entries[n].asked.state == Pending then {n} else {};
    }
  }
}
