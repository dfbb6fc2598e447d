// What a reload writes of a thread, and what it makes of less than was written.

module ReplayRules {
  import opened Wrappers
  import opened ThreadModel
  import opened Replay
  import S = ServerThread
  import B = BrowserThread

  // ===== What is written =====

  // Only what there is to say is written; the timeline and the status always are.
  lemma OnlyWhatThereIs(t: S.ThreadState)
    ensures var json := Serialised(t);
            && json.JObj? && KEntries in json.fields && KStatus in json.fields
            && (KPlan in json.fields <==> t.plan != [])
                && (KAvailableCommands in json.fields <==> t.availableCommands != [])
            && (KConfigOptions in json.fields <==> t.configOptions != [])
            && (KStopReason in json.fields <==> t.stopReason.Some?) && (KUsage in json.fields <==> t.usage.Some?)
            && (KModes in json.fields <==> t.modes.Some?)
  {
  }

  lemma OnlyWhatCallsHave(call: ToolCall)
    ensures var json := EntryJson(S.Tool(call));
            && json.JObj? && (KContent in json.fields <==> call.content != [])
            && (KLocations in json.fields <==> call.locations != [])
            && (KRawInput in json.fields <==> call.rawInput.Some?)
                && (KRawOutput in json.fields <==> call.rawOutput.Some?)
  {
  }

  lemma OnlyWhatQuestionsHave(asked: Elicitation)
    ensures var json := EntryJson(S.Asked(asked));
            && json.JObj? && (KToolCallId in json.fields <==> asked.toolCallId.Some?)
            && (KContent in json.fields <==> asked.content.Some?)
  {
  }

  // The words the two sides share, spelt out.
  lemma WordsAreSpelt()
    ensures StatusName(Idle) == "idle" && StatusName(Generating) == "generating"
    ensures KindName(Message) == "message" && KindName(Thought) == "thought"
    ensures StateName(Pending) == "pending" && StateName(Accepted) == "accepted"
    ensures StateName(Declined) == "declined" && StateName(Cancelled) == "cancelled"
    ensures StopName(EndTurn) == "end_turn" && StopName(MaxTokens) == "max_tokens"
    ensures StopName(MaxTurnRequests) == "max_turn_requests" && StopName(Refusal) == "refusal"
    ensures StopName(StopCancelled) == "cancelled"
    ensures forall e: S.Entry :: Get(EntryJson(e), KType) ==
              Some(JStr(match e
                        case User(_, _, _, _) => "user"
                        case Assistant(_, _) => "assistant"
                        case Tool(_) => "toolCall"
                        case Asked(_) => "elicitation"))
  {
  }

  // ===== What is read of less =====

  // A thread of which nothing reads is an empty one, at rest; what is no object is
  // no thread.
  lemma NothingReads(json: Json)
    ensures ThreadFromReplay(json).None? <==> !json.JObj?
    ensures ThreadFromReplay(JObj(map[])) == Some(B.EMPTY)
  {
    assert forall key :: Get(JObj(map[]), key).None?;
    assert ReadEntries(JObj(map[])) == [];
    assert Readable([], ToConfigOption) == [];
  }

  // Words that are none of those known read as the plainest there is.
  lemma UnknownWords(word: string)
    ensures ToStatus(Some(word)) == if word == "generating" then Generating else Idle
    ensures ToState(Some(word)) ==
              if word == "accepted" then Accepted else if word == "declined" then Declined
              else if word == "cancelled" then Cancelled else Pending
    ensures ToStatus(None) == Idle && ToState(None) == Pending && ToStopReason(None) == None
    ensures ToStopReason(Some(word)).Some? <==>
              word in {"end_turn", "max_tokens", "max_turn_requests", "refusal", "cancelled"}
  {
  }

  predicate NoText(o: Option<Json>) {
    o.None? || !o.value.JStr?
  }

  // A tool call is read if it has an id; titled by it, of no special kind, and
  // pending, unless it says.
  lemma LeanCall(fields: map<Key, Json>, id: string)
    requires KType in fields && fields[KType] == JStr("toolCall")
    ensures var json := JObj(fields);
            && (NoText(Get(json, KId)) ==> ToEntry(json).None?)
            && (Get(json, KId) == Some(JStr(id)) ==>
                  && ToEntry(json).Some? && ToEntry(json).value.Tool?
                  && var card := ToEntry(json).value.toolCall;
                     && card.awaitingPermission.None? && card.call.id == id
                     && (NoText(Get(json, KTitle)) ==> card.call.title == id)
                     && (NoText(Get(json, KKind)) ==> card.call.kind == "other")
                     && (NoText(Get(json, KStatus)) ==> card.call.status == "pending")
                     && (Get(json, KContent).None? ==> card.call.content == [])
                     && (Get(json, KLocations).None? ==> card.call.locations == [])
                     && card.call.rawInput == Get(json, KRawInput) && card.call.rawOutput == Get(json, KRawOutput))
  {
  }

  // A message is read whatever it lacks.
  lemma LeanMessages(fields: map<Key, Json>)
    requires KType in fields
    ensures var json := JObj(fields);
            && (fields[KType] == JStr("user") ==>
                  && ToEntry(json).Some? && ToEntry(json).value.User?
                  && (ToEntry(json).value.isOptimistic <==> Get(json, KIsOptimistic) == Some(JBool(true)))
                  && (NoText(Get(json, KProtocolId)) ==> ToEntry(json).value.protocolId.None?)
                  && (Get(json, KContent).None? ==> ToEntry(json).value.content == []))
            && (fields[KType] == JStr("assistant") ==>
                  && ToEntry(json).Some? && ToEntry(json).value.Assistant?
                  && (Get(json, KChunks).None? ==> ToEntry(json).value.chunks == []))
            && (NoText(Some(fields[KType])) ==> ToEntry(json).None?)
  {
  }

  lemma LeanChunk(fields: map<Key, Json>)
    ensures var json := JObj(fields);
            && ToChunk(json).Some?
            && (Get(json, KKind) != Some(JStr("thought")) ==> ToChunk(json).value.kind == Message)
            && (NoText(Get(json, KId)) ==> ToChunk(json).value.id.None?)
            && (Get(json, KContent).None? ==> ToChunk(json).value.content == [])
  {
  }

  lemma UnknownType(fields: map<Key, Json>, kind: string)
    requires KType in fields && fields[KType] == JStr(kind)
    requires kind !in {"user", "assistant", "toolCall", "elicitation"}
    ensures ToEntry(JObj(fields)).None?
  {
  }

  // A question is read only whole: an id, a request, a message, and a way of asking
  // with all it needs.
  lemma LeanQuestion(fields: map<Key, Json>)
    requires KType in fields && fields[KType] == JStr("elicitation")
    ensures var json := JObj(fields);
            ToEntry(json).Some? <==>
              && !NoText(Get(json, KId)) && !NoText(Get(json, KMessage))
              && Get(json, KRequestId).Some? && (Get(json, KRequestId).value.JStr? || Get(json, KRequestId).value.JNum?)
              && ((Get(json, KMode) == Some(JStr("form")) && Get(json, KRequestedSchema).Some?
                   && Get(json, KRequestedSchema).value.JObj?)
                  || (Get(json, KMode) == Some(JStr("url")) && !NoText(Get(json, KUrl))
                      && !NoText(Get(json, KElicitationId))))
  {
  }

  predicate IsNumber(o: Option<Json>) {
    o.Some? && o.value.JNum?
  }

  // Usage is read with both its numbers, and its cost with both of its own; modes
  // with the current one; an option with a value of the type it says it has.
  lemma LeanRest(fields: map<Key, Json>)
    ensures var json := JObj(fields);
            && (ToUsage(Some(json)).Some? <==> IsNumber(Get(json, KUsed)) && IsNumber(Get(json, KSize)))
            && (ToCost(Some(json)).Some? <==> IsNumber(Get(json, KAmount)) && !NoText(Get(json, KCurrency)))
            && (ToModes(Some(json)).Some? <==> !NoText(Get(json, KCurrentModeId)))
            && (ToConfigOption(json).Some? <==>
                  && !NoText(Get(json, KId)) && !NoText(Get(json, KName)) && Get(json, KCurrentValue).Some?
                  && ((Get(json, KType) == Some(JStr("boolean")) && Get(json, KCurrentValue).value.JBool?)
                      || (Get(json, KType) == Some(JStr("select")) && Get(json, KCurrentValue).value.JStr?)))
    ensures ToUsage(None).None? && ToCost(None).None? && ToModes(None).None?
  {
  }
}
