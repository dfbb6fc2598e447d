// Which chunks belong together, said kind by kind and label by label.

module MessageLaws {
  import opened Wrappers
  import opened ThreadModel
  import S = ServerThread
  import B = BrowserThread
  import ServerThreadLaws
  import Decimal

  // ===== A prompt that comes back =====

  // Two blocks that say the same: the same text, something at the same place, or
  // the same bytes of the same type. Blocks of two kinds never do.
  predicate SaysAgain(x: ContentBlock, y: ContentBlock) {
    || (x.Text? && y.Text? && x.text == y.text)
    || (x.ResourceLink? && y.ResourceLink? && x.uri == y.uri)
    || (x.Resource? && y.Resource? && x.uri == y.uri)
    || (x.Image? && y.Image? && x.data == y.data && x.mimeType == y.mimeType)
    || (x.Audio? && y.Audio? && x.data == y.data && x.mimeType == y.mimeType)
    || (x.Foreign? && x == y)
  }

  // A chunk after a prompt adds no entry exactly when it says a block of the
  // prompt again, for the server,
  lemma ChunkAfterPrompt(t: S.ThreadState, prompt: seq<ContentBlock>, said: ContentBlock, labelled: Option<string>)
    ensures var shown := S.WithPrompt(t, prompt);
            |S.Folded(shown, UserChunk(said, labelled)).entries| ==
              |t.entries| + if exists b | b in prompt :: SaysAgain(b, said) then 1 else 2
  {
  }

  // and for the page.
  lemma ChunkAfterPromptShown(b: B.ThreadState, prompt: seq<ContentBlock>, said: ContentBlock, labelled: Option<string>)
    ensures var shown := B.AppendUserPrompt(b, prompt);
            |B.ApplyUpdate(shown, UserChunk(said, labelled)).entries| ==
              |b.entries| + if exists x | x in prompt :: SaysAgain(x, said) then 1 else 2
  {
  }

  // An agent that sends the prompt's blocks back, in any order and any number of
  // times, changes nothing but the label the prompt then goes by.
  lemma OwnBlocksAreAbsorbed(t: S.ThreadState, prompt: seq<ContentBlock>, echoed: seq<ContentBlock>,
                             labelled: Option<string>)
    requires forall e | e in echoed :: e in prompt
    ensures var shown := S.WithPrompt(t, prompt);
            var last, after := |shown.entries| - 1, S.Run(shown, ServerThreadLaws.Echoes(echoed, labelled));
            && |after.entries| == |shown.entries| && after.entries[..last] == shown.entries[..last]
            && after.entries[last] == shown.entries[last].(protocolId := if echoed == [] then None else labelled)
  {
    forall e | e in echoed
      ensures exists b | b in prompt :: SameBlock(b, e)
    {
      assert SameBlock(e, e);
    }
    ServerThreadLaws.EchoIsAbsorbed(t, prompt, echoed, labelled);
  }

  // ===== Messages =====

  // Two labels say that two chunks are of two messages.
  predicate TwoMessages(one: Option<string>, other: Option<string>) {
    one.Some? && other.Some? && one != other
  }

  predicate EndsInUser(t: S.ThreadState) {
    t.entries != [] && t.entries[|t.entries| - 1].User?
  }

  predicate EndsInAssistant(t: S.ThreadState) {
    t.entries != [] && t.entries[|t.entries| - 1].Assistant?
  }

  // Of two user chunks that begin a message the second joins the first, after it,
  // unless their labels say otherwise; the message goes by the first one's label.
  lemma TwoUserChunks(t: S.ThreadState, x: ContentBlock, one: Option<string>, y: ContentBlock, other: Option<string>)
    requires !EndsInUser(t)
    ensures var n, after := |t.entries|, S.Folded(S.Folded(t, UserChunk(x, one)), UserChunk(y, other)).entries;
            && n < |after| && after[..n] == t.entries && after[n].User? && !after[n].isOptimistic
            && after[n].protocolId == one
            && if TwoMessages(one, other) then
                 && |after| == n + 2 && after[n].content == [x] && after[n + 1].User? && !after[n + 1].isOptimistic
                 && after[n + 1].protocolId == other && after[n + 1].content == [y]
               else |after| == n + 1 && after[n].content == [x, y]
  {
  }

  // Of two assistant chunks the second joins the first when they are of one kind
  // and not of two messages: texts as one text, anything else as it stands. The
  // run goes by the first label there is.
  lemma TwoAgentChunks(t: S.ThreadState, k: ChunkKind, x: ContentBlock, one: Option<string>,
                       m: ChunkKind, y: ContentBlock, other: Option<string>)
    requires !EndsInAssistant(t)
    ensures var n, after := |t.entries|, S.Folded(S.Folded(t, AgentChunk(k, x, one)), AgentChunk(m, y, other)).entries;
            && |after| == n + 1 && after[..n] == t.entries && after[n].Assistant?
            && after[n].chunks ==
                 if k != m || TwoMessages(one, other) then [Chunk(k, one, [x]), Chunk(m, other, [y])]
                 else [Chunk(k, if one.Some? then one else other,
                             if x.Text? && y.Text? then [Text(x.text + y.text, x.extra)] else [x, y])]
  {
    var t1, e := S.Folded(t, AgentChunk(k, x, one)),
        S.Assistant(S.Mint("assistant", t.nextId + 1), [Chunk(k, one, [x])]);
    assert t1.entries == t.entries + [e];
    ServerThreadLaws.PieceSaid(t1, m, y, other, t.entries, e);
    SecondChunk(k, x, one, m, y, other);
  }

  lemma SecondChunk(k: ChunkKind, x: ContentBlock, one: Option<string>, m: ChunkKind, y: ContentBlock,
                    other: Option<string>)
    ensures S.WithChunk([Chunk(k, one, [x])], m, y, other) ==
            if k != m || TwoMessages(one, other) then [Chunk(k, one, [x]), Chunk(m, other, [y])]
            else [Chunk(k, if one.Some? then one else other,
                        if x.Text? && y.Text? then [Text(x.text + y.text, x.extra)] else [x, y])]
  {
    assert [x][..0] == [];
    assert AppendContent([x], y) == if x.Text? && y.Text? then [Text(x.text + y.text, x.extra)] else [x, y];
  }

  // The names a new thread gives its first entries, and the page, by position, its.
  lemma FirstNames(blocks: seq<ContentBlock>, kind: ChunkKind, said: ContentBlock, labelled: Option<string>,
                   requestId: CallId, message: string, mode: ElicitationMode)
    ensures S.WithPrompt(S.EMPTY, blocks).entries[0].id == "user-1"
    ensures S.WithAssistantChunk(S.EMPTY, kind, said, labelled).entries[0].id == "assistant-1"
    ensures S.WithQuestion(S.EMPTY, requestId, message, None, Known(mode)).entries[0].asked.id == "elicitation-1"
    ensures B.AppendUserPrompt(B.EMPTY, blocks).entries[0].id == "user-0"
    ensures B.AppendAssistantChunk(B.EMPTY, kind, said, labelled).entries[0].id == "assistant-0"
    ensures S.WithUserChunk(S.EMPTY, said, labelled).entries[0].id == "user-1"
    ensures B.AppendUserContent(B.EMPTY, said, labelled).entries[0].id == "user-0"
    ensures B.Step(B.EMPTY, Questioned(requestId, message, None, Known(mode))).entries[0].asked.id == "elicitation-0"
  {
    assert Decimal.Print(1) == "1" && Decimal.Print(0) == "0";
  }
}
