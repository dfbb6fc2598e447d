# A verified model of the Mjx relay, thread and diff

Mjx puts a coding agent in a browser tab. The agent speaks ACP, a JSON-RPC 2.0
protocol, over its standard streams; the browser speaks it over a WebSocket;
between them sits a server that outlives any one page. This project models the
parts of that system where a mistake would be invisible until somebody
reloaded at the wrong moment, and proves what they promise:

* **The conversation** (`ThreadModel`, `ServerThread`, `BrowserThread`,
  `Replay` and their laws). The server folds every update into a thread in
  place; the browser folds the same updates in a reducer; a reload serialises
  the first and rebuilds the second. `ReloadLosesNothing` says exactly when the
  two folds and the bridge between them agree: at every moment, if and only if
  the thread admitted each event when it came; `TidyIsOrderly` gives a condition
  on the list of events alone. `ReaskLaws` says what questions asked again do to
  the rebuilt thread, and `LoneLaws` what an event only one side hears does.
  `MessageLaws`, `CardLaws` and `ReplayRules` say what belongs together, what a
  call's card shows and what is read of less than was written.
* **The relay** (`Protocol`, `RelayParts`, `Sessions`, `Relay` and the
  `Relay...` laws). One agent, many sockets one after another. A `State` holds
  the id bridge, the method correlator, the recorded handshake, the session
  store, the re-ask list and the sink; `Step` takes one attach, detach, client
  frame or agent frame; `Run` takes any list of them. `Connection` and the
  classes it is made of do the same in place. Two conditions on a run are asked
  for where they are needed and nowhere else: `Attended`, only the socket being
  read sends frames; and `Considerate`, the agent does not reuse the id of a
  question still waiting for its answer. `RelayThreads` says what the store takes
  in for a session, over every run, and `RelayRules` what is said and passed on,
  frame by frame. `Offering` is what a session's
  request gains on its way: the MCP servers configured here.
* **The page** (`Page`, `RelayPage`, `PageReload`, `PageLaws`, `PageRuns`). A
  `Page` is what a tab has on screen and awaits; it folds the lines its socket is
  given and nothing else, `PageRules` says what each of them shows, and `Watch`
  runs it beside the relay.
  `PageShowsWhatIsStored` says exactly when it shows, at every moment, what a
  reload would give it back. Its runs are attachments: one socket, requests
  numbered by the page, until it is displaced or ends.
* **MCP servers held for the agent** (`Mcp`, `McpHost`): pending calls, and
  requests a server makes of the agent under ids of the host's own.
* **The line diff** (`Subsequences`, `Diff`), **the calendar behind the session
  list** (`Calendar`, `StableSort`), **the budgeted listing** (`Listing`,
  `ListingLaws`, `TreeLaws`), **fuzzy ranking** (`Rank`, `RankLaws`), and **paths
  and positions**
  (`Paths`).

Code that works by changing things in place is a class or a method with loops,
each proved against a function on values; the laws are lemmas about those
functions, over all inputs and all runs. Check the project with
`dafny verify dfyconfig.toml` (Dafny 4.11).

## Findings

Where a promise turned out to hold only under a condition, the condition is
proved exact or the failure is exhibited:

* Of a conversation both sides hear, a reload is faithful at every moment if and
  only if no question asked reuses a request id on the thread, no answer or
  completion meets two open questions of its id, permission is asked only for
  calls on the timeline, a failed turn follows a cancelled one, an unreadable
  result tells the browser nothing new, and no mode is switched to but the one
  the agent reported (`ReloadLosesNothing`, `Admits`). A reused request id is
  never made good again (`ReuseIsNeverMadeGood`); an early prompt is, by an
  announcement that follows at once (`AnnouncementMakesGood`), and not by one
  that follows a chunk (`ChunkBetweenReorders`).
* A page hears more than its session's conversation, and the server sometimes
  more than the page. The page shows what is stored at every moment if and only
  if each step is admitted (`PageShowsWhatIsStored`, `Admitted`), which asks,
  beyond the above:
  - that what only one of the two hears would show nothing new (`Unmoved`):
    questions and prompts of other sessions; the end of any other session's turn,
    which the page folds without looking whose it is (`TurnOverElsewhere`,
    `PromptAnsweredElsewhere`; the run is `OtherTurnStopsThis`); a completion
    another session's thread takes (`OtherCompletion`, `OtherTakesCompletion`);
    options, modes and forgetting answered to a page that has gone;
  - that a session resumed of which nothing is stored states no modes and no
    options (`ResumedUnstored`; the run is `ResumeLosesModes`);
  - that a load which fails was not of the session on screen, unless that was
    blank (`LoadRefused`; the run is `RefusedLoadEmpties`), and that what is stored
    for the session it goes back to is still what was on screen;
  - that nothing is stored yet for a session just made but what its answer states.
* The questions put again after a reload are not filtered by session, and one
  completed by its notification is still among them. They leave the thread as
  replayed if and only if it shows each of them
  (`ReloadShowsTheConversation`); `OtherSessionsQuestionAppears` and
  `CompletedQuestionReopens` are runs where it does not.
* A prompt's result ends its session's turn only if it can be read as one; an
  unreadable result leaves the thread generating, though its questions are
  given up (`PromptResponseHitsItsSession`; the run is
  `UnreadableResultLeavesItGenerating`).
* ISO timestamps sort as instants below the year 10000 and no further
  (`OrderedExactlyTo`).
* A call to an MCP server made after its output ended, while its input still
  looks open, is answered if and only if a shutdown comes later
  (`CallAfterTheEnd`).
* With a negative amount of context a diff is trimmed to nothing but a marker,
  its changes included (`TrimKeepsStat`, `NegativeContextHidesAll`).
* A path that itself ends in `:` and a number does not survive having a row
  alone, or nothing, written after it (`RowComesOff`; `a:7` is one,
  `NumberedPathIsCut`).
* The events of a thread update, documented as what changed, are empty for an
  echo that lends a prompt its label, and complete for everything else
  (`EventsAccount`).

## Model

| member | source | states |
|---|---|---|
| `ServerThread.Thread.constructor` | crates/mjx-acp-thread/src/lib.rs:326-328 | a new thread is empty and idle |
| `ServerThread.Thread.MintId` | crates/mjx-acp-thread/src/lib.rs:459-462 | the id is the prefix and the counter after it went up by one; nothing else changes |
| `ServerThread.Thread.Apply` | crates/mjx-acp-thread/src/fold.rs:40-100 | the thread becomes the fold of the update, and the events returned are exactly those of that update |
| `ServerThread.Thread.PushUserChunk` | crates/mjx-acp-thread/src/fold.rs:121-155 | an echo of the prompt on screen is absorbed and may only lend it its label; a continued message grows; anything else is a new entry |
| `ServerThread.Thread.PushAssistantChunk` | crates/mjx-acp-thread/src/fold.rs:161-205 | the last chunk of the last assistant entry grows when kind and label allow it, else a chunk or an entry is added |
| `ServerThread.Thread.PositionOfCall` | crates/mjx-acp-thread/src/fold.rs:285-294 | the first entry for a call, if there is one |
| `ServerThread.Thread.UpsertToolCall` | crates/mjx-acp-thread/src/fold.rs:207-230 | a call announced again replaces its entry in place; a new one is appended |
| `ServerThread.Thread.UpdateToolCall` | crates/mjx-acp-thread/src/fold.rs:236-283 | an update overwrites only the fields it carries; for a call never announced it makes the entry |
| `ServerThread.Thread.PushUserPrompt` | crates/mjx-acp-thread/src/lib.rs:344-354 | the prompt is shown optimistically and a turn begins |
| `ServerThread.Thread.PushElicitation` | crates/mjx-acp-thread/src/lib.rs:360-385 | a question of a known mode becomes a pending entry; an unknown mode is refused and leaves the thread as it was |
| `ServerThread.Thread.SettleElicitation` | crates/mjx-acp-thread/src/lib.rs:394-409 | the first pending question of that request is settled in place; the result says whether there was one |
| `ServerThread.Thread.CompleteElicitation` | crates/mjx-acp-thread/src/lib.rs:418-426 | the first pending URL question of that id is accepted; the result says whether there was one |
| `ServerThread.Thread.CancelPendingElicitations` | crates/mjx-acp-thread/src/lib.rs:433-440 | every pending question is cancelled, none else is touched, and their number is returned |
| `ServerThread.Thread.FinishTurn` | crates/mjx-acp-thread/src/lib.rs:454-457 | the thread is idle and records why the turn ended |
| `ServerThread.Thread.SetModes` | crates/mjx-acp-thread/src/fold.rs:103-108 | the modes are those reported |
| `ServerThread.Thread.SetConfigOptions` | crates/mjx-acp-thread/src/fold.rs:111-113 | the options are those reported |
| `ServerThreadLaws.TwoPieces` | crates/mjx-acp-thread/src/fold.rs:161-200 | two consecutive text chunks of one kind and label leave the same thread as one chunk of their joined text |
| `ServerThreadLaws.Tokenisation` | crates/mjx-acp-thread/src/fold.rs:331-339 | cutting one text into any pieces leaves the same thread as sending it whole |
| `ServerThreadLaws.EverythingSaidIsShown` | crates/mjx-acp-thread/src/fold.rs:161-200 | over every conversation, what the thread shows of each kind, letters and whole blocks in order, is exactly what arrived: nothing lost, doubled or moved |
| `ServerThreadLaws.StepShape` | crates/mjx-acp-thread/src/fold.rs:40-100 | no event removes or reorders entries: at most one is added, at the end, and the rest keep their kind and id |
| `ServerThreadLaws.EveryThreadIsNormal` | crates/mjx-acp-thread/src/fold.rs:121-229 | in every reachable thread tool calls occur once, minted ids differ, no two assistant entries touch, neighbouring chunks differ in kind or carry two labels, and no two text blocks of a chunk touch |
| `ServerThreadLaws.EventsAccount` | crates/mjx-acp-thread/src/fold.rs:14-15 | the events name everything an update changed, exactly when it is not an echo lending a prompt its label |
| `ServerThreadLaws.MintInjective` | crates/mjx-acp-thread/src/lib.rs:459-462 | ids minted under any two of the three prefixes are equal only for the same prefix and number |
| `ServerThreadLaws.EchoIsAbsorbed` | crates/mjx-acp-thread/src/fold.rs:121-155 | any sequence of a prompt's own blocks, echoed under one label, leaves the prompt as it was but for that label |
| `ServerThreadLaws.OnlyEchoesAreAbsorbed` | crates/mjx-acp-thread/src/fold.rs:121-155 | chunks that follow a prompt under one label add no entry exactly when every one of them repeats a block of it |
| `ServerThreadLaws.GivenUpAreCounted` | crates/mjx-acp-thread/src/lib.rs:433-440 | the number of questions given up on is how many places hold an open one |
| `MessageLaws.ChunkAfterPrompt` | crates/mjx-acp-thread/src/fold.rs:299-323 | a chunk after a prompt adds no entry exactly when a block of the prompt has the same text, or is at the same place, or has the same bytes of the same type; blocks of two kinds never are the same |
| `MessageLaws.ChunkAfterPromptShown` | web/src/acp/thread.ts:130-208 | the page keeps the same rule, kind by kind |
| `MessageLaws.OwnBlocksAreAbsorbed` | crates/mjx-acp-thread/src/fold.rs:121-155 | the blocks of a prompt sent back in any order, any number of times, change nothing but its label |
| `MessageLaws.FirstNames` | crates/mjx-acp-thread/src/lib.rs:459-462 | the names of the first entries of a thread, and of a page |
| `MessageLaws.TwoUserChunks` | crates/mjx-acp-thread/src/fold.rs:121-155 | of two user chunks the second joins the first, after it, exactly unless they carry two labels |
| `MessageLaws.TwoAgentChunks` | crates/mjx-acp-thread/src/fold.rs:161-205 | of two assistant chunks the second joins the first exactly if they are of one kind and do not carry two labels: texts as one text, else side by side, under the first label there is |
| `CardLaws.CardIsLastSaid` | crates/mjx-acp-thread/src/fold.rs:207-283 | over every conversation each part of a call, of seven, is what was last said of it, and there is an entry exactly when something was said |
| `CardLaws.CardAwaitsOutstanding` | web/src/acp/thread.ts:270-397 | over every conversation the request a card puts to the user is the last asked for its call that has since been neither answered nor overtaken by an update to a settled status |
| `CardLaws.PromptIsShown` | web/src/acp/thread.ts:330-372 | a permission prompt is put on the first card of its call, which stays as it was, or on a placeholder with its title, and touches nothing else |
| `ReplayLaws.ReplayReads` | web/src/acp/replay.ts:51-94 | reading a serialised thread gives every entry, plan, mode, option, usage and status back, entry ids renumbered by position |
| `ReplayLaws.QuestionRead` | web/src/acp/replay.ts:173-202 | a question the server holds is read back as it was, whatever its mode, state and answer |
| `ReplayLaws.QuestionDropped` | web/src/acp/replay.ts:180-182 | a question is left out exactly when its request id is neither a string nor a number, a null one among them |
| `ReplayLaws.ReplayRenumbers` | web/src/acp/replay.ts:92-94 | whatever arrives, each entry but a tool call is named by its kind and position |
| `ReplayRules.OnlyWhatThereIs` | crates/mjx-acp-thread/src/lib.rs:206-250 | a thread is written with the parts it has and no others; the timeline and the status always |
| `ReplayRules.WordsAreSpelt` | web/src/acp/replay.ts:51-94 | the words for states, kinds and reasons, as both sides spell them |
| `ReplayRules.NothingReads` | web/src/acp/replay.ts:51-60 | what is no object is no thread, and an object of which nothing reads is an empty one |
| `ReplayRules.UnknownWords` | web/src/acp/replay.ts:51-94 | a word that is none of those known reads as idle, pending, or no reason |
| `ReplayRules.LeanCall` | web/src/acp/replay.ts:143-165 | a tool call reads if it has an id, and what it does not say has its default |
| `ReplayRules.LeanMessages` | web/src/acp/replay.ts:96-142 | a message reads whatever it lacks |
| `ReplayRules.LeanQuestion` | web/src/acp/replay.ts:173-214 | a question reads only whole |
| `ReplayRules.LeanRest` | web/src/acp/replay.ts:205-258 | usage, costs, modes and options read exactly with what they need |
| `ReloadLaws.UserChunkAlike` | web/src/acp/thread.ts:130-180 | the browser's handling of a user chunk shows what the server's does |
| `ReloadLaws.AgentChunkAlike` | web/src/acp/thread.ts:210-247 | the same for an assistant chunk |
| `ReloadLaws.CallAlike` | web/src/acp/thread.ts:270-294 | the same for a tool call announced |
| `ReloadLaws.CallUpdateAlike` | web/src/acp/thread.ts:297-327 | the same for a tool call update |
| `ReloadLaws.UpdateAlike` | web/src/acp/thread.ts:29-103 | the same for every kind of session update |
| `ReloadLaws.QuestionAlike` | web/src/acp/thread.ts:400-424 | a question leaves the two sides showing the same exactly when its request id is not on the thread already, or neither can draw it |
| `ReloadLaws.AnswerAlike` | web/src/acp/thread.ts:426-443 | an answer does exactly when no two open questions carry its id: settling the first is then settling all |
| `ReloadLaws.CompletionAlike` | web/src/acp/thread.ts:445-459 | a completion does exactly when no two pending URL questions carry its id |
| `ReloadLaws.TurnEndAlike` | web/src/acp/session.ts:534-550 | the end of a turn does if both can read its result; after an error exactly when the turn before was cancelled too; after a result only the browser can make anything of, exactly when that is what the server shows already |
| `ReloadLaws.PermissionAlike` | web/src/acp/thread.ts:330-397 | a permission prompt, which the server does not keep, does exactly when its call is on the timeline |
| `ReloadLaws.StepAlike` | web/src/acp/thread.ts:29-103 | two threads that show the same still do after an event if and only if the thread admits it, for every kind of event |
| `ReloadLaws.RunsAlike` | web/src/acp/thread.ts:29-327 | over every conversation each of whose events is admitted the server's thread and the browser's show the same |
| `ReloadLaws.ReloadLosesNothing` | web/src/acp/replay.ts:51-94 | whenever it comes, a reload gives back what folding in the browser gives, up to permission prompts and inner question ids, if and only if every event was admitted when it came |
| `ReloadLaws.ReaskChangesNothing` | web/src/acp/thread.ts:400-424 | a question that arrives in the replay and is then asked again is one question on screen |
| `TidyLaws.TidyIsOrderly` | web/src/acp/thread.ts:29-103 | it is enough that, in the list of events, no id is used twice, every turn ends with a result both read, no mode is switched and permission follows its call's announcement |
| `ReloadLaws.ReuseIsNeverMadeGood` | crates/mjx-acp-thread/src/lib.rs:360-385 | after any conversation in which two questions shared a request id, whatever else happened, a reload shows something else |
| `ReloadLaws.AnnouncementMakesGood` | web/src/acp/thread.ts:339-372 | permission asked for a call not yet announced sets the two sides apart, and the announcement, if it is next, brings them together |
| `ReloadLaws.ChunkBetweenReorders` | web/src/acp/thread.ts:339-372 | it does not once the agent has said anything in between |
| `ReaskLaws.AskedAgain` | web/src/acp/thread.ts:330-424 | a question or prompt asked once more changes nothing exactly when the thread shows it: open and as it was put, or on a call it has |
| `ReaskLaws.AllAskedAgain` | web/src/acp/thread.ts:330-424 | a whole list of them with different request ids changes nothing exactly when the thread shows every one |
| `Bridging.IdBridge.Reattach` | crates/mjx-acp-server/src/id_bridge.rs:41-43 | every outstanding id is forgotten and the counter goes on |
| `Bridging.IdBridge.ForAgent` | crates/mjx-acp-server/src/id_bridge.rs:50-55 | the id minted is one no outstanding request has, and answers to it belong to the browser's id |
| `Bridging.IdBridge.ForBrowser` | crates/mjx-acp-server/src/id_bridge.rs:62-64 | an outstanding id gives its browser's id, once |
| `Correlating.MethodCorrelator.Observe` | crates/mjx-acp-core/src/correlator.rs:60-72 | a request is remembered under its own direction; a response takes the method of the request that travelled the other way |
| `Handshaking.Handshake.Reattach` | crates/mjx-acp-server/src/relay.rs:288-290 | a session/new answer is due again exactly when one is recorded |
| `Handshaking.Handshake.Record` | crates/mjx-acp-server/src/relay.rs:293-302 | the first result of each of the two methods is kept and later ones ignored |
| `Handshaking.Handshake.TakeRecorded` | crates/mjx-acp-server/src/relay.rs:322-331 | initialize is always answered from the recording; session/new once per attachment |
| `Sinking.BrowserSink.Attach` | crates/mjx-acp-server/src/relay.rs:106-112 | the sink points at the new socket, under the next generation |
| `Sinking.BrowserSink.Detach` | crates/mjx-acp-server/src/relay.rs:119-124 | only the attached generation can detach itself |
| `Sinking.BrowserSink.Send` | crates/mjx-acp-server/src/relay.rs:150-160 | a line goes to the attached socket or to none; a socket whose writer ended is forgotten |
| `Sessions.SessionStore.CancelPendingElicitations` | crates/mjx-acp-server/src/sessions.rs:124-131 | the session's questions are forgotten and those still open cancelled |
| `Sessions.SessionStore.Forget` | crates/mjx-acp-server/src/sessions.rs:138-145 | the session's thread, prompts, options and questions go |
| `Sessions.SessionStore.ObserveFromClient` | crates/mjx-acp-server/src/sessions.rs:148-158 | a request enters its table, a response answers its question |
| `Sessions.SessionStore.ObserveClientRequest` | crates/mjx-acp-server/src/sessions.rs:160-228 | each session request enters the one table for its method; a load empties its thread, a prompt is shown at once |
| `Sessions.SessionStore.ObserveElicitationAnswer` | crates/mjx-acp-server/src/sessions.rs:231-254 | the answer settles the question on its session's thread; an error counts as declined, an unreadable result as cancelled |
| `Sessions.SessionStore.ObserveFromAgent` | crates/mjx-acp-server/src/sessions.rs:257-391 | questions, updates, results and errors each reach the session they are for |
| `Sessions.SessionStore.ObserveQuestion` | crates/mjx-acp-server/src/sessions.rs:259-280 | a session's question of a known mode is recorded on its thread and by its id |
| `Sessions.SessionStore.Complete` | crates/mjx-acp-server/src/sessions.rs:282-298 | the first thread, in the table's order, with that URL question open has it accepted |
| `Sessions.SessionStore.ObserveSuccess` | crates/mjx-acp-server/src/sessions.rs:310-368 | a result is read as the answer to whichever table holds its id |
| `Sessions.SessionStore.ObserveFailure` | crates/mjx-acp-server/src/sessions.rs:372-387 | a failed prompt ends its turn as cancelled and every table lets the id go |
| `Relay.Connection.AttachBrowser` | crates/mjx-acp-server/src/relay.rs:470-511 | one attachment: ids forgotten, handshake renewed, the socket there before told it is displaced, the sink moved on |
| `Relay.Connection.DetachBrowser` | crates/mjx-acp-server/src/relay.rs:531-543 | only the current generation's leaving is noticed |
| `Relay.Connection.HandleClientFrame` | crates/mjx-acp-server/src/relay.rs:604-763 | a browser's frame is answered here, or rebound, observed and sent to the agent |
| `Relay.Connection.HandleExtension` | crates/mjx-acp-server/src/relay.rs:766-800 | a replay is answered with the stored thread, or null, and only then followed by the open questions |
| `Relay.Connection.ReaskUnanswered` | crates/mjx-acp-server/src/relay.rs:834-842 | every frame on the re-ask list is sent, in order |
| `Relay.Connection.ForgetQuestions` | crates/mjx-acp-server/src/relay.rs:807-828 | a session's questions leave the list and its thread |
| `Relay.Connection.HandleAgentFrame` | crates/mjx-acp-server/src/relay.rs:604-763 | an agent's frame is observed by every table, then mirrored if intercepted, else listed, forwarded and announced |
| `Relay.Connection.ObserveAgentFrame` | crates/mjx-acp-server/src/relay.rs:662-721 | the turn a response ends is read before the store forgets it |
| `Relay.Connection.Forward` | crates/mjx-acp-server/src/relay.rs:925-957 | a response goes out under its browser's id, or, the browser gone, as a turn-ended notice, or not at all |
| `Relay.Connection.Announce` | crates/mjx-acp-server/src/relay.rs:897-918 | only initialize is followed by the agent's introduction |
| `RelayTables.AlwaysConsistent` | crates/mjx-acp-server/src/sessions.rs:160-228 | in every reachable state each table's ids are in flight under a method of that table, and every outstanding id is one the relay minted |
| `RelayTables.TablesDisjoint` | crates/mjx-acp-server/src/sessions.rs:310-368 | in every reachable state at most one of the five tables holds any id, so the order of the branches never matters |
| `RelayTables.StepConsistent` | crates/mjx-acp-core/src/correlator.rs:60-72 | after a response is handled no table anywhere mentions its id |
| `RelayTables.SuccessShrinks` | crates/mjx-acp-server/src/sessions.rs:310-368 | a result leaves no table holding its id, adds nothing, and takes along nothing but the requests of a session it forgets |
| `RelayTables.FailureShrinks` | crates/mjx-acp-server/src/sessions.rs:372-387 | an error takes its id from every table and adds nothing |
| `RelayTables.PromptResponseHitsItsSession` | crates/mjx-acp-server/src/sessions.rs:314-319 | a prompt's response ends its own session's turn exactly when it can be read, and touches no other thread |
| `RelayTables.UnreadableResultLeavesItGenerating` | crates/mjx-acp-server/src/sessions.rs:314-319 | three inputs after which no prompt is outstanding and the thread still says it is generating: a prompt answered with a result that does not read as one |
| `RelayTables.ForgetHitsItsSession` | crates/mjx-acp-server/src/sessions.rs:357-360 | a delete or close that succeeds removes its own session's thread and no other |
| `RelayThreads.ThreadIsTheFold` | crates/mjx-acp-server/src/sessions.rs:148-391 | after any run a session has a thread exactly when the store took something in for it, and the thread is the fold of what it took in since the last load |
| `LoneLaws.LoneAlike` | web/src/acp/thread.ts:330-489 | an event the page alone hears leaves it showing what is stored exactly when it would show nothing new, for every kind of event but an update |
| `LoneLaws.StatedAlone` | crates/mjx-acp-server/src/sessions.rs:343-367 | a session's modes and options stated to the server alone do exactly when they are those it has |
| `Pages.Session.constructor` | web/src/acp/session.ts:100-158 | a page begins with no session and an empty thread |
| `Pages.Session.Update` | web/src/acp/session.ts:817-820 | one event is folded into the thread on screen and nothing else changes |
| `Pages.Session.Send` | web/src/acp/session.ts:365-613 | a prompt is shown and a question settled as it is sent; a load empties the page and moves it before it is answered |
| `Pages.Session.Hear` | web/src/acp/session.ts:174-203 | a line is folded into the thread on screen; only an update is looked at for its session |
| `Pages.Session.HearAnswer` | web/src/acp/session.ts:536-550 | an answer goes to the request awaited under its id, once, and to none if there is none |
| `Pages.Session.Move` | web/src/acp/session.ts:378-450 | an answer that makes or resumes a session takes the page there with what it states; a refused load brings back what was on screen; a session on screen deleted or closed is left |
| `Pages.Session.HearReplay` | web/src/acp/session.ts:294-342 | the thread that comes back replaces the one on screen; if none does the page keeps its own or tries the recorded session |
| `PageRules.PagesOpenBlank` | web/src/acp/session.ts:100-118 | a page opens blank; that the agent was running already it learns from the introduction and nothing else |
| `PageRules.PromptIsShown` | web/src/acp/session.ts:536-539 | a prompt is on screen, its turn begun, before it is answered |
| `PageRules.AnswerIsShown` | web/src/acp/session.ts:600-613 | an answer settles on screen every open question of its request, as the server reads it, and nothing else |
| `PageRules.OthersShowNothing` | web/src/acp/session.ts:365-613 | nothing else the page sends changes what is on screen |
| `PageRules.ReasonsAreRead` | web/src/acp/session.ts:541-549 | each of the five reasons is read off its name, and nothing else is |
| `PageRules.TurnOverIsShown` | web/src/acp/session.ts:754-763 | the end of a turn leaves the page idle for the reason told and cancels every open question |
| `PageRules.PromptAnswerIsShown` | web/src/acp/session.ts:541-549 | so does the answer to a prompt; after an error the reason stays what it was |
| `PageRules.LoadAnswerIsShown` | web/src/acp/session.ts:373-378 | modes and options a load is answered with replace those on screen |
| `PageRules.LoadRefusedIsShown` | web/src/acp/session.ts:379-386 | a refused load brings back the session and the thread it replaced |
| `PageRules.OptionsAnswerIsShown` | web/src/acp/session.ts:580-591 | the options answered replace those on screen; none answered is none |
| `PageRules.ModeAnswerIsShown` | web/src/acp/session.ts:561-570 | the mode switched to is current on screen, if modes are known |
| `PageRules.MadeIsShown` | web/src/acp/session.ts:264-277 | a session made is on screen with what was stated, on what is there when the page connects and on nothing later |
| `PageRules.ResumedIsShown` | web/src/acp/session.ts:394-407 | a session resumed is on screen with what was stated, to be replayed the rest |
| `PageRules.GoneIsLeft` | web/src/acp/session.ts:427-475 | a page moves exactly when the session deleted or closed is the one on screen |
| `PageRules.NamelessMovesNothing` | web/src/acp/session.ts:365-475 | a resume, a deletion, a close and a refused load move the page only for the session they named |
| `PageRules.ReplayIsShown` | web/src/acp/session.ts:294-342 | the thread that comes back replaces the one on screen; if none does the page keeps its own |
| `PageRules.QuestionIsShown` | web/src/acp/session.ts:683-716 | a question the page can draw is open on it, whichever session asks |
| `PageRules.PermissionIsShown` | web/src/acp/session.ts:636-660 | a permission prompt is put on the card of its call |
| `PageRules.UpdateIsShown` | web/src/acp/session.ts:176-184 | an update is folded exactly when it is of the session on screen |
| `PageRules.CompletionIsShown` | web/src/acp/session.ts:725-742 | a completion accepts every open question under its id |
| `PageRules.OtherCallsAreIgnored` | web/src/acp/session.ts:174-203 | any other call of the agent, and one of these that does not read, shows nothing |
| `RelayPages.StepGives` | crates/mjx-acp-server/src/relay.rs:925-957 | in each step the attached socket is given exactly these lines, in this order, and takes them all |
| `RelayPages.StepWatching` | crates/mjx-acp-server/src/id_bridge.rs:41-64 | at every step each of its requests the relay holds outstanding is one the page awaits, under the same method, and no two are one |
| `PageReload.StepShows` | web/src/acp/session.ts:174-203 | a page that shows what is stored for its session, or is between two, still does after a step if and only if the step is admitted, for every kind of step |
| `PageReload.PageShowsWhatIsStored` | crates/mjx-acp-server/src/relay.rs:766-800 | whatever run went before, over any attachment, at every moment the page shows what is stored for its session, nothing if nothing is, or is between two conversations, if and only if each step was admitted |
| `PageReload.ReloadGivesBack` | web/src/acp/session.ts:294-299 | a page shows what is stored exactly when a reload gives it back what it shows |
| `PageLaws.ResumedUnstored` | web/src/acp/session.ts:394-407 | a session resumed of which nothing is stored shows, once its replay has brought nothing back, what is stored, exactly when the answer stated no mode and no option and no question that can be drawn is put again |
| `PageLaws.PromptAnsweredElsewhere` | web/src/acp/session.ts:541-549 | the answer to a prompt of another session leaves the page showing what is stored exactly when its own is at rest, with nothing open, and for the reason read |
| `PageLaws.TurnOverElsewhere` | web/src/acp/session.ts:754-763 | so does the notice that another session's turn is over |
| `PageLaws.OtherCompletion` | web/src/acp/session.ts:200-203 | a completion another session's thread takes does exactly when no question with its id is open on the page's own |
| `PageLaws.LoadRefused` | web/src/acp/session.ts:365-386 | a load refused at once gives the page back its session and thread, and shows what is stored exactly when it was of another session or of a blank page |
| `PageRuns.ResumeLosesModes` | web/src/acp/session.ts:394-407 | a run of four inputs: a session of which nothing is stored is resumed, states its modes and is prompted, and the stored thread has none |
| `PageRuns.OtherTurnStopsThis` | web/src/acp/session.ts:754-763 | a run in which the turn of a page that has gone ends and the page's own, still generating, looks over |
| `PageRuns.OtherTakesCompletion` | web/src/acp/session.ts:200-203 | a run in which a completion closes the question on the page and the thread of another session |
| `PageRuns.RefusedLoadEmpties` | web/src/acp/session.ts:365-386 | a run in which a page loads its own session, is refused, and shows what the server no longer stores |
| `RelayQuestions.AlwaysBacked` | crates/mjx-acp-server/src/relay.rs:734-742 | in every reachable state each open question is attributed to its session and its request is on the re-ask list |
| `RelayQuestions.ReplayIsAnswerable` | crates/mjx-acp-server/src/relay.rs:766-800 | a browser that asks for a replay gets the thread and, after it, the request for every question open on it |
| `RelayQuestions.AnswerSettles` | crates/mjx-acp-server/src/sessions.rs:231-254 | answering it settles exactly that question and takes its request off the list: accepted with what was filled in, declined, declined by an error, or else cancelled |
| `RelayTurns.TurnEndReported` | crates/mjx-acp-server/src/relay.rs:925-957 | a prompt's response hands over exactly one line, the answer or the notice, and leaves no open question, re-ask or table entry of that turn |
| `RelayTurns.PromptTracked` | crates/mjx-acp-server/src/relay.rs:668-698 | until it is answered or its session forgotten, a prompt stays attributed to its session and its asker known, until another browser attaches |
| `RelayTurns.TurnEndsOnce` | crates/mjx-acp-server/src/relay.rs:668-698 | from prompt to response, over any interleaving, one line reports the turn's end: the answer if no browser attached since, else the notice |
| `RelayTurns.SecondAnswerIsSilent` | crates/mjx-acp-server/src/id_bridge.rs:62-64 | a second response under an id already answered reaches no browser, however late |
| `RelayIsolation.EveryAnswerIsOwed` | crates/mjx-acp-server/src/relay.rs:641-648 | over every run, whatever ids the agent uses, every answer a socket took carries an id that same socket sent in a request |
| `RelayIsolation.ResponseReachesItsAsker` | crates/mjx-acp-server/src/relay.rs:925-957 | an agent's response is handed over exactly when its id is outstanding, under the browser id it was minted for, to the socket that sent that request |
| `RelayIsolation.AlwaysOwed` | crates/mjx-acp-server/src/id_bridge.rs:41-64 | in every reachable state everything outstanding was asked by the attachment being read |
| `RelayIsolation.RequestIsAnswered` | crates/mjx-acp-server/src/id_bridge.rs:50-64 | a request that reaches the agent is answered to its own socket under its own id, whatever happens in between, unless another browser attaches or its socket goes |
| `RelayIsolation.DisplacedGetsNothing` | crates/mjx-acp-server/src/relay.rs:106-112 | once a successor is attached, no line goes to an earlier generation |
| `RelayIsolation.AttachedTakesAll` | crates/mjx-acp-server/src/relay.rs:119-124 | until it is displaced, detaches or its writer ends, the attached socket takes every line: a predecessor's late detach silences nobody |
| `RelayHandshake.FirstResultsRecorded` | crates/mjx-acp-server/src/relay.rs:293-302 | over every run the recording holds the first successful result for each of the two methods |
| `RelayHandshake.InitializedOnce` | crates/mjx-acp-server/src/relay.rs:850-865 | once initialize is recorded, none a browser sends reaches the agent again |
| `RelayHandshake.LaterInitializeAnswered` | crates/mjx-acp-server/src/relay.rs:850-865 | instead it is answered with the first result, under its own id, followed by the introduction, and the agent is sent nothing |
| `RelayHandshake.FirstSessionNewOnly` | crates/mjx-acp-server/src/relay.rs:288-331 | within one attachment session/new is answered from the recording exactly when it is the first and a result was recorded before that browser came |
| `RelayHandshake.FirstSessionNewAnswered` | crates/mjx-acp-server/src/relay.rs:850-865 | that one is answered with the first result the agent gave, under its own id, and the agent is sent nothing |
| `RelayHandshake.SecondSessionNewReachesAgent` | crates/mjx-acp-server/src/relay.rs:322-331 | a second session/new of an attachment always reaches the agent, the configured servers merged in |
| `RelayTransparency.BrowserFrameReachesAgent` | crates/mjx-acp-server/src/relay.rs:641-660 | a browser's frame stays here or reaches the agent once and whole, a request under the next number and, if it opens a session, with nothing changed but the servers it lists |
| `Offering.AddedIs` | crates/mjx-acp-server/src/mcp.rs:167-191 | what is added is exactly the configured servers the client did not name and this agent can be offered |
| `Offering.MergedOffersAll` | crates/mjx-acp-server/src/mcp.rs:142-203 | a request that opens a session lists what the client declared, in its order, and then exactly those |
| `Offering.MergedLeavesTheRest` | crates/mjx-acp-server/src/mcp.rs:142-153 | any other frame, and every frame when no server is configured, passes as it came |
| `RelayTransparency.NoTwoRequestsCollide` | crates/mjx-acp-server/src/id_bridge.rs:45-55 | over every run no two browser requests reach the agent under one number, however each browser counts |
| `RelayTransparency.AgentFrameReachesBrowser` | crates/mjx-acp-server/src/relay.rs:728-762 | an agent's request or notification is handed over as it came, or, intercepted, only mirrored and never listed to be asked again |
| `RelayTransparency.CallsGoWhereTheyBelong` | crates/mjx-acp-server/src/workspace_interceptor.rs:49-135 | a call for files or terminals is only mirrored, one for MCP exactly when some configured server is there to be reached over the protocol; every other call goes out as it came and a request is kept to be put again |
| `RelayTransparency.OwnAnswersStayHere` | crates/mjx-acp-server/src/workspace_interceptor.rs:92-94 | an answer under an id of the MCP host's is mirrored and goes no further |
| `RelayTransparency.NeverAskedAgain` | crates/mjx-acp-server/src/relay.rs:728-762 | over every run nothing on the re-ask list is a call the server answers itself |
| `RelayRules.ExtensionIsAnswered` | crates/mjx-acp-server/src/relay.rs:766-792 | a request for this server is answered with the thread, null, invalid params or method not found, and by nothing else first |
| `RelayRules.InitializeDeclares` | crates/mjx-acp-server/src/relay.rs:1006-1040 | an initialize that reaches the agent declares what the server provides, and keeps the rest |
| `RelayRules.BodyIsMade` | crates/mjx-acp-server/src/mcp.rs:155-169 | a request that came with no body gets one holding what the server puts in it and nothing else |
| `RelayRules.AddedInOrder` | crates/mjx-acp-server/src/mcp.rs:173-191 | what is added to a session's servers is, in the order of the configuration, each the client did not name that is available and reached in a way the agent supports, stdio always |
| `RelayRules.SessionOffersServers` | crates/mjx-acp-server/src/relay.rs:650-660 | each of the four requests that open a session reaches the agent with what it declared and then what is added, by what the agent said of itself |
| `RelayRules.OtherRequestsPass` | crates/mjx-acp-server/src/relay.rs:641-648 | every other request reaches the agent as it came under the next number |
| `RelayRules.OtherFramesPass` | crates/mjx-acp-server/src/relay.rs:602-660 | answers and notifications reach the agent as they are |
| `RelayRules.TurnOverSays` | crates/mjx-acp-server/src/relay.rs:925-957 | the notice of a turn over names its session and the reason its answer gives, or that it was cancelled |
| `RelayRules.InitializeIsAnswered` | crates/mjx-acp-server/src/relay.rs:897-918 | the first answer to initialize is followed by the introduction of an agent not met before |
| `RelayRules.AnswersFindTheBrowser` | crates/mjx-acp-server/src/relay.rs:925-957 | an answer under an id of the relay's making goes first to the browser that asked, under the id it used, which is then free |
| `RelayRules.OtherAnswersAreDropped` | crates/mjx-acp-server/src/relay.rs:925-957 | an answer under any other id goes to nobody: what follows it is notices alone |
| `RelayRules.UnreadPasses` | crates/mjx-acp-server/src/relay.rs:603-616 | what does not read is passed on as it is, both ways; once the writer has ended nothing is taken |
| `RelayRules.AttachTells` | crates/mjx-acp-server/src/relay.rs:470-543 | an attaching browser displaces with a notice the one being read, and nobody who has gone |
| `RelayRules.SocketsTake` | crates/mjx-acp-server/src/relay.rs:106-126 | nobody takes a line before a browser attaches; from then on its socket does, until that one detaches |
| `RelayRules.RequestsAreRemembered` | crates/mjx-acp-server/src/sessions.rs:160-228 | a request that reads enters exactly the table its answer will be looked for in; one that does not changes nothing |
| `RelayRules.MakingIsRemembered` | crates/mjx-acp-server/src/sessions.rs:160-178 | a new session or a fork is remembered by its id alone |
| `RelayRules.ForgettingIsComplete` | crates/mjx-acp-server/src/sessions.rs:133-145 | a session deleted or closed leaves no thread, question, prompt or options to come, and what others have stays |
| `RelayTransparency.ExtensionStaysHere` | crates/mjx-acp-server/src/relay.rs:618-626 | a frame for this server is answered first thing, under the browser's own id, and the agent hears nothing |
| `RelayTransparency.DisplacedIsTold` | crates/mjx-acp-server/src/relay.rs:472-482 | a displaced browser is told so, and that is the last line it gets |
| `RelayReload.ReplaySends` | crates/mjx-acp-server/src/relay.rs:766-842 | an attached browser that asks for a stored session is sent its thread and then every frame on the re-ask list, in order, nothing else |
| `RelayReload.ReloadShowsTheConversation` | web/src/acp/session.ts:185-203 | after any run the thread reads back as stored, and the whole re-ask list, folded in order, leaves it so if and only if each question on it is pending on that thread as it was put and each permission prompt is for a call of it |
| `RelayReload.AlwaysApart` | crates/mjx-acp-server/src/relay.rs:734-742 | in every reachable state the re-ask list holds no two requests under one id, if the agent does not reuse the id of one still waiting |
| `RelayReload.OpenQuestionsReturn` | crates/mjx-acp-server/src/relay.rs:734-742 | every question open on the thread is on that list as it was put |
| `RelayReload.OtherSessionsQuestionAppears` | web/src/acp/session.ts:188-199 | a run of two inputs after which a page that reloads one session shows the question of another as its own |
| `RelayReload.CompletedQuestionReopens` | crates/mjx-acp-server/src/relay.rs:734-742 | a run of two inputs after which a page that reloads shows a completed URL question as open |
| `McpServers.McpServer.MakeCall` | crates/mjx-mcp/src/lib.rs:223-243 | a call waits under an id of its own, or fails at once when the server's input is closed |
| `McpServers.McpServer.OnLine` | crates/mjx-mcp/src/lib.rs:183-215 | an answer reaches the call it is for, or nobody; what the server says unprompted is queued |
| `McpServers.McpServer.Reply` | crates/mjx-mcp/src/lib.rs:255-264 | the server is sent the answer under the id it used |
| `McpServers.McpServer.Tell` | crates/mjx-mcp/src/lib.rs:246-252 | a one-way message is written while the input is open |
| `McpServers.McpServer.FailEverythingPending` | crates/mjx-mcp/src/lib.rs:307-318 | every waiting call is told the server stopped, whatever the order, and none is left |
| `McpServers.AlwaysAccounted` | crates/mjx-mcp/src/lib.rs:223-243 | over every run each call has been answered once or is waiting under the id minted for it, never both, never neither |
| `McpServers.AnswerFindsItsCall` | crates/mjx-mcp/src/lib.rs:194-207 | the frame bearing a call's id answers that call and no other |
| `McpServers.StrayAnswerIsDropped` | crates/mjx-mcp/src/lib.rs:194-207 | an answer nobody waits for, a second one included, changes nothing |
| `McpServers.AnswersAreFinal` | crates/mjx-mcp/src/lib.rs:299-304 | what a call was answered is never added to or changed |
| `McpServers.EndAnswersEveryCall` | crates/mjx-mcp/src/lib.rs:307-318 | when the server's output ends every call made has exactly one answer |
| `McpServers.GoneSays` | crates/mjx-mcp/src/lib.rs:223-243 | a call that will get no answer is told its server is not running, or stopped, as an internal error |
| `McpServers.WaitsForShutdown` | crates/mjx-mcp/src/lib.rs:223-243 | a call waiting on a server that is heard no more has an answer if and only if the server has been shut down since |
| `McpServers.CallAfterTheEnd` | crates/mjx-mcp/src/lib.rs:223-243 | in any run, a call made after the output ended is answered at once exactly when the input has been closed; otherwise it has an answer if and only if a shutdown came later |
| `McpHosts.McpHost.Connect` | crates/mjx-acp-server/src/mcp_host.rs:106-148 | each connect to a configured server starts a server of its own under a new connection id |
| `McpHosts.McpHost.Disconnect` | crates/mjx-acp-server/src/mcp_host.rs:151-155 | the connection is removed and its waiting calls fail |
| `McpHosts.McpHost.CarryMessage` | crates/mjx-acp-server/src/mcp_host.rs:158-170 | a message for an open connection becomes a call of its server |
| `McpHosts.McpHost.ToAgent` | crates/mjx-acp-server/src/mcp_host.rs:185-221 | the next thing a server said goes to the agent, a request under an id of the host's own |
| `McpHosts.McpHost.ClaimResponse` | crates/mjx-acp-server/src/mcp_host.rs:225-250 | an answer is claimed exactly by its prefix, and routed if it is still awaited |
| `McpHosts.McpHost.ShutdownAll` | crates/mjx-acp-server/src/mcp_host.rs:253-258 | every live connection ends and its calls fail |
| `McpHosts.AlwaysSound` | crates/mjx-acp-server/src/mcp_host.rs:38-51 | in every reachable state awaited ids were minted here and each live connection has its own server |
| `McpHosts.IdSpacesAreApart` | crates/mjx-acp-server/src/mcp_host.rs:225-231 | the host claims every id it minted and none the relay minted |
| `McpHosts.IdsAreSpelt` | crates/mjx-acp-server/src/mcp_host.rs:106-148 | connections and requests are named by one counter, each with its prefix |
| `McpHosts.FirstConnection` | crates/mjx-acp-server/src/mcp_host.rs:106-148 | a configured server that starts is connected as the first of the host's numbers and is sent the first call; any other is no connection at all |
| `McpHosts.ShutdownIsForTheLive` | crates/mjx-acp-server/src/mcp_host.rs:253-258 | shutting down leaves no call of a live connection unanswered and nothing of another touched |
| `McpHosts.MessagesAreCarried` | crates/mjx-acp-server/src/mcp_host.rs:158-182 | what the agent says on a live connection reaches its server and no other, a call or a notification, while the server is written to; without a method it reaches nobody |
| `McpHosts.ServersAreHeard` | crates/mjx-mcp/src/lib.rs:183-215 | what a server says unasked waits its turn to be told the agent, in order |
| `McpHosts.ClosingIsNotStopping` | crates/mjx-mcp/src/lib.rs:223-264 | a server whose input closes is told nothing more but may still answer what it has been asked |
| `McpHosts.StoppingAnswersNobody` | crates/mjx-mcp/src/lib.rs:307-318 | one that stops answers nobody, and no call waits on it |
| `McpHosts.AnswerReachesTheAsker` | crates/mjx-acp-server/src/mcp_host.rs:223-250 | over every run an awaited answer goes to the server that asked, under the id that server used in a request it did make, and to no other |
| `McpHosts.RequestIsAnswered` | crates/mjx-acp-server/src/mcp_host.rs:185-250 | a request passed on is answered to the server that made it, under its own id, whatever happens before the answer comes |
| `McpHosts.AnsweredAtMostOnce` | crates/mjx-acp-server/src/mcp_host.rs:232-249 | a second answer, however late, tells no server anything |
| `McpHosts.ConnectionsAreSeparate` | crates/mjx-acp-server/src/mcp_host.rs:101-148 | connecting twice gives two connections, and ending one leaves the other's server as it was |
| `Subsequences.LcsIsLongest` | web/src/acp/diff.ts:35-49 | the table's recurrence gives the length of the longest sequence that is a subsequence of both |
| `Diff.Table` | web/src/acp/diff.ts:35-49 | every cell holds the recurrence's value for what remains of the two texts |
| `Diff.FillRow` | web/src/acp/diff.ts:41-46 | one row, right to left, from the row below it |
| `Diff.Walk` | web/src/acp/diff.ts:52-79 | the lines written are the script of the two texts |
| `Diff.ScriptTurns` | web/src/acp/diff.ts:52-79 | the script's old side is the old lines, its new side the new ones, and each line is numbered by the lines before it on its side |
| `Diff.ScriptTells` | web/src/acp/diff.ts:52-79 | any script tells of every line of either text, once, in order, under its own number and with its own words; only a new line has no old number, only a removed one no new |
| `Diff.WalkTells` | web/src/acp/diff.ts:52-79 | so does the one the walk writes |
| `Diff.ScriptIsShortest` | web/src/acp/diff.ts:52-79 | no script that turns one text into the other changes fewer lines |
| `Diff.ScriptKeepsTheMost` | web/src/acp/diff.ts:52-79 | the lines it keeps are a longest common subsequence, over all common subsequences |
| `Diff.ScriptIsFirst` | web/src/acp/diff.ts:58-68 | of all scripts that keep the most lines it comes first, keeping before removing before adding, which fixes every line |
| `Diff.RemovalsComeFirst` | web/src/acp/diff.ts:62-68 | no removal directly follows an addition |
| `Diff.TrimToContext` | web/src/acp/diff.ts:87-107 | the trimmed script, by the set of near positions and the skipping flag |
| `Diff.TrimKeepsTheNear` | web/src/acp/diff.ts:87-107 | what is kept is each line near a change, once and in order, with a marker for the first of the others in a row |
| `Diff.OneMarkerPerRun` | web/src/acp/diff.ts:100-104 | each maximal run of lines not near a change leaves one marker, at its start |
| `Diff.FarLinesLieInRuns` | web/src/acp/diff.ts:100-104 | every line not near a change lies in such a run |
| `Diff.TrimKeepsStat` | web/src/acp/diff.ts:110-115 | the counts are unchanged exactly when no less than zero context is asked for, or there was nothing to count |
| `Diff.DiffLines` | web/src/acp/diff.ts:23-27 | the diff of two texts is the trimmed script of their lines |
| `Diff.JoinSplit` | web/src/acp/diff.ts:24-25 | joining the lines of a text gives it back, and no line holds a line break |
| `Diff.ScriptSpellsBothTexts` | web/src/acp/diff.ts:23-27 | read down either side the full script spells the text it came from |
| `Diff.StatIsMinimal` | web/src/acp/diff.ts:110-115 | the counts shown are the least any diff of the two texts has, and zero exactly when the texts are equal |
| `Diff.NegativeContextHidesAll` | web/src/acp/diff.ts:87-107 | with less than no context the diff of any two texts that differ is one marker, counting nothing |
| `Calendar.CivilInvertsCounting` | crates/mjx-mock-agent/src/main.rs:1068-1088 | every day number gives a date of the calendar, and counting the days to it gives the number back |
| `Calendar.EveryDateIsFound` | crates/mjx-mock-agent/src/main.rs:1068-1088 | every date from 1970 on is given by its day number |
| `Calendar.CivilTurnsPages` | crates/mjx-mock-agent/src/main.rs:1068-1088 | the date of day n is what turning n pages of the calendar reaches |
| `Calendar.DatesAreOrdered` | crates/mjx-mock-agent/src/main.rs:1062-1067 | dates come in the order of their day numbers and no two share one |
| `Calendar.YearOfEraIs` | crates/mjx-mock-agent/src/main.rs:1077-1078 | the year formula finds the year within the era for every day of it |
| `Calendar.IsoInOrder` | crates/mjx-mock-agent/src/main.rs:1090-1096 | through the year 9999 timestamps compare as text exactly as the instants do, and no two instants share one |
| `Calendar.IsoReads` | crates/mjx-mock-agent/src/main.rs:1090-1096 | through the year 9999 a timestamp is twenty characters that, read back, give a date, a time of day and the instant |
| `Calendar.OrderBreaks` | crates/mjx-mock-agent/src/main.rs:1090-1096 | the first instant of the year 10000 is printed before the last of 9999 |
| `Calendar.OrderedExactlyTo` | crates/mjx-mock-agent/src/main.rs:285-289 | the text orders every instant below a limit if and only if the limit is at most the start of the year 10000 |
| `SessionList.ListedNewestFirst` | crates/mjx-mock-agent/src/main.rs:290-312 | the list is exactly the directory's sessions, newest first |
| `StableSort.SortedIsStable` | crates/mjx-mock-agent/src/main.rs:310-311 | the sort keeps the items, orders them and leaves equals as they stood |
| `StableSort.StableSortIsUnique` | crates/mjx-mock-agent/src/main.rs:310-311 | no other list does all three |
| `Listing.ReadDirectory` | crates/mjx-workspace/src/fs.rs:168-231 | one directory's names are looked at in order under the budgets, and its open subdirectories join the queue |
| `Listing.ListWithin` | crates/mjx-workspace/src/fs.rs:142-237 | the listing is the scan of the breadth-first walk over all roots; the walk ends |
| `ListingLaws.ListedIs` | crates/mjx-workspace/src/fs.rs:168-231 | the entries are the first `limit` matches among the first 20000 names, and `truncated` is set exactly when matches, names or depth ran out |
| `ListingLaws.SmallerLimitIsPrefix` | crates/mjx-workspace/src/fs.rs:210-214 | a smaller limit shows the beginning of what a larger one shows |
| `ListingLaws.WalkGoesDown` | crates/mjx-workspace/src/fs.rs:157-163 | the walk never goes back up |
| `ListingLaws.RootIsListedByDepth` | crates/mjx-workspace/src/fs.rs:139-163 | with any number of different roots and whichever budget runs out, the entries of each root come shallowest first |
| `ListingLaws.RootsAreListedInTurn` | crates/mjx-workspace/src/fs.rs:157-214 | whichever budget runs out, what is listed is the beginning of the first root's matches, then the next one's, and so on |
| `ListingLaws.UncutListingIsComplete` | crates/mjx-workspace/src/fs.rs:142-237 | a listing not cut short holds exactly the matches of the whole tree read recursively, each as often as it is there |
| `TreeLaws.BudgetsAre` | crates/mjx-workspace/src/fs.rs:132-136 | a listing is cut short exactly by more matches than asked for, more than twenty thousand names, or a directory it would enter twelve below its root |
| `TreeLaws.WalkReaches` | crates/mjx-workspace/src/fs.rs:142-237 | cut short or not, the walk looks at every name below a readable root through at most twelve directories, each readable and not skipped, and at no other |
| `TreeLaws.UncutListingTells` | crates/mjx-workspace/src/fs.rs:142-237 | an entry is in a listing not cut short exactly when its path leads, through readable directories not skipped, to a file or such a directory, and has the query in it |
| `Rank.Score` | web/src/composer/rank.ts:15-42 | the loop computes the worth of the greedy occurrence, or nothing |
| `Rank.SpotsAreLeftmost` | web/src/composer/rank.ts:24-35 | the greedy search finds the leftmost embedding and fails only when there is none |
| `Rank.ScoredIfSubsequence` | web/src/composer/rank.ts:15-42 | there is a score exactly when the query, lower-cased, is a subsequence of the candidate, and it is the worth of the leftmost occurrence |
| `RankLaws.WorthIs` | web/src/composer/rank.ts:21-42 | a match earns eight for each letter next to the one before, four for each at the start of a word, and loses two for each divider and one for every sixteen units |
| `RankLaws.NothingTyped` | web/src/composer/rank.ts:15-16 | with nothing typed everything stays, as it stood |
| `Rank.RankedIs` | web/src/composer/rank.ts:45-51 | the ranking is the matching items, best first, each score's items in the order they came |
| `Rank.RankedIsForced` | web/src/composer/rank.ts:45-51 | no other list is all of that |
| `Rank.MatchingIs` | web/src/composer/rank.ts:46-48 | an item matches exactly when it has a score |
| `Positions.LineRangeRoundTrip` | crates/mjx-acp-thread/src/mention.rs:638-663 | a printed line range reads back as itself exactly when both lines fit 32 bits counted from one |
| `Positions.NumbersAreRead` | crates/mjx-acp-thread/src/mention.rs:650-662 | a number is read exactly off its digits, with zeros or one plus in front, when it fits 32 bits |
| `Positions.OtherSpellings` | crates/mjx-acp-thread/src/mention.rs:641-649 | `L1-2`, `L1-L2` and `L1` name the same lines |
| `Positions.RowAndColumnComeOff` | crates/mjx-acp-thread/src/paths.rs:78-108 | after any path whatever, a row and a column come off as they were put on |
| `Positions.RowComesOff` | crates/mjx-acp-thread/src/paths.rs:78-108 | a row alone, or nothing, comes off exactly when the path does not itself end in a number |
| `Positions.NothingIsLost` | crates/mjx-acp-thread/src/paths.rs:78-108 | the parts always spell the input again |
| `Positions.PlaceRoundTrip` | crates/mjx-acp-thread/src/mention.rs:697-722 | a place written after its path is the place read |
| `Positions.PlacesAreRead` | crates/mjx-acp-thread/src/mention.rs:697-722 | rows and columns count from one; a row of none is refused and a column of none is the first |
| `Positions.RowsAreRead` | crates/mjx-acp-thread/src/mention.rs:697-722 | a row alone is a place without a column |
| `Positions.UnreadSelection` | crates/mjx-acp-thread/src/mention.rs:197-212 | a file's selection whose fragment is no range is of the second line, a buffer's is refused, and a column that does not read is none |
| `Positions.FragmentRoundTrip` | crates/mjx-acp-thread/src/mention.rs:540-544 | a range in the fragment wins and leaves the path as written |
| `Positions.PlainPaths` | crates/mjx-acp-thread/src/mention.rs:706-721 | a path is a plain file exactly when it does not end in a number, and refused exactly when its row is zero |
| `Positions.NumberedPathIsCut` | crates/mjx-acp-thread/src/paths.rs:78-108 | `a:7` is read as a place in `a`, and so is what is written after it |
| `Positions.SelectionRoundTrip` | crates/mjx-acp-thread/src/mention.rs:161-162 | a selection's fragment and column parameter read back as written, for a file and for a buffer, exactly when its lines and column fit 32 bits counted from one |
| `Positions.FragmentRefused` | crates/mjx-acp-thread/src/mention.rs:638-663 | a printed range is refused exactly when a line of it does not fit |
| `PathEscapes.DecodePathEscapes` | crates/mjx-acp-thread/src/mention.rs:747-785 | the loop gives the decoded bytes exactly when they differ from the input and are text |
| `PathEscapes.EscapeDecodes` | crates/mjx-acp-thread/src/mention.rs:763-768 | a percent sign and the two hex digits of a byte, in either case, decode to that byte |
| `PathEscapes.SeparatorStays` | crates/mjx-acp-thread/src/mention.rs:769-772 | unless it is a slash or a backslash, which stays escaped |
| `PathEscapes.LonePercentStays` | crates/mjx-acp-thread/src/mention.rs:763-776 | a percent sign two hex digits do not follow is itself |
| `PathEscapes.WrittenDecodes` | crates/mjx-acp-thread/src/mention.rs:742-785 | however a path is spelt, byte by byte plain or escaped, decoding gives what it stands for |
| `PathEscapes.DecodesByComponent` | crates/mjx-acp-thread/src/mention.rs:742-746 | decoding keeps every separator in place and decodes each component by itself |
| `WindowsPaths.NativeIsFixed` | crates/mjx-acp-thread/src/mention.rs:787-841 | a path needs rewriting exactly when it has a forward slash or a lower-case drive; rewritten it has neither, is as absolute as before, and needs no more |
| `WindowsPaths.MountedDrive` | crates/mjx-acp-thread/src/mention.rs:800-808 | `/c:/` and its like name the drive by its capital and turn the slashes of the rest |
| `WindowsPaths.BareDrive` | crates/mjx-acp-thread/src/mention.rs:810-818 | so does `/c/`, in lower case |
| `WindowsPaths.NamedDrive` | crates/mjx-acp-thread/src/mention.rs:820-836 | so does `c:`, in either case |
| `WindowsPaths.OthersAreTurned` | crates/mjx-acp-thread/src/mention.rs:787-841 | any other path only has its slashes turned |
| `WindowsPaths.AbsoluteIs` | crates/mjx-acp-thread/src/paths.rs:42-57 | a path is absolute exactly when it opens with a slash of either kind or with a letter and a colon |

## Left out

- JSON text: payloads are opaque values, and each typed reading of a body (a prompt, a question, a stop reason) is a field of its own rather than the result of parsing one text.
- Lines that do not parse as frames are passed on raw in both directions, as the code does; what such a line might contain is outside the isolation theorems.
- How a configured MCP server is spelt on the wire (its command, address and headers), and where the transports stand in the agent's first result: an added server is its name, and the transports are three flags of that result.
- Sockets, tasks, timers, locks and subprocesses: an attach and each frame handled is one step, and the moments between a displaced reader's last frame and its end are not modelled.
- The order a hash table is walked in is a parameter of the step that depends on it.
- Counters are unbounded: the wrap-around of 64-bit ids is not modelled.
- The session store and the MCP host hold threads and servers by value; `ServerThread.Thread` and `McpServers.McpServer` are the same operations in place, so aliasing between them is not captured.
- `ReloadLaws.ReloadLosesNothing`: compares what a replay carries; which permission prompt is open on a call, and the ids questions have inside a thread, are not compared (`CardLaws` says which prompt a card awaits).
- `RelayQuestions.AlwaysBacked`: assumes the agent does not reuse the id of a question still waiting for its answer.
- `RelayReload.ReloadShowsTheConversation`: makes the same assumption, so that no two requests on the re-ask list share an id; a form on screen that the person has begun to fill in is not modelled.
- A stop reason outside the protocol's five, which a browser would show as it came, counts as none.
- `PageReload.PageShowsWhatIsStored`: says nothing of a page between two conversations: before its first, while it waits for the replay of one, and from the deletion of the one on screen until the next is made.
- Which session a tab remembers across a reload is given by the replay it asks for; the list of sessions, the permission and question promises behind a form, and closing a connection are not modelled.
- A page declines a question it cannot draw without settling one; the model settles whatever is open under that id, which is nothing unless an id is reused.
- An explicit JSON null for a tool call's raw input or a message id, tool kinds or statuses that are not strings, and the browser's table of terminals.
- Terminal output, file contents and agent diagnostics mirrored to the browser are opaque lines.
- What the interceptor does with `fs/*`, `terminal/*` and `mcp/*` beyond deciding whether the relay sees them; rewriting `initialize` is one flag.
- Canonical paths and the filesystem jail: a listing starts from roots already resolved, and an unresolvable root named by the caller is refused before this model begins. Case folding and the lossy reading of file names are a parameter.
- `Rank.Score`: strings are code points, with their width in UTF-16 units where the score counts units; lone surrogates cannot be written.
- `PathEscapes.DecodePathEscapes`: whether the decoded bytes are UTF-8 is a parameter.
- URLs: building and parsing `file://` and `zed://` mentions is the work of a library that is not part of this model; the fragments and suffixes inside them are.
- The sort of the standard libraries is given by what it promises, and proved to be determined by it; its algorithm is not modelled.
- The server's idle reaper, configuration, registry, user interface components and the scripted demonstration turn.
