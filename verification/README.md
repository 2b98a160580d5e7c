# CodexOne: a verified model of its conversation, identity and session layers

CodexOne is a gateway in front of one Codex account. These Dafny modules model the parts of it that
must not change what the upstream sees or what the client gets back, and prove what they promise.

* `Items`, `Sets`, `Selection`, `ItemMerge`, `MergeGrouping` - conversation items, the three-pass merge that joins
  them, and when the grouping of merges does not matter.
* `Requests`, `Conversation`, `Sessions` - one turn on a client WebSocket: preparing a body, planning the
  incremental and the replay form, choosing one, forwarding it or falling back to HTTP, committing the result.
* `TurnProperties`, `PlanProperties` - what a plan promises, which messages are planned and which of them continue.
* `SessionRuns`, `RunProperties`, `CommitProperties`, `SessionProperties` - whole runs of turns, reconnects, account
  switches, failures and fallbacks against upstream servers that remember their own transcripts: what is sent, to
  which socket, what is remembered, and how a session ends.
* `Escaping`, `Substitution`, `Identity`, `RoundTrip` - pseudonyms, their reverse map, and putting the client's
  identifiers back into upstream payloads.
* `InputItems`, `InputItemProperties`, `RepairProperties`, `RecordedIds`, `FallbackProperties` - repairing item ids and
  reasoning items, once and twice, and which ids are recorded on the way.
* `IdentityRuns`, `FallbackRuns` - whole runs with the real repair and one identity threaded through the turns, and a
  run whose fallback departs from the intended conversation.
* `ChatStream`, `ChatProperties` - Responses events as Chat Completions chunks, against the converted final response.
* `EventStream` - reading server-sent events on the HTTP route, a print and read round trip.
* `SessionStore`, `StoreProperties` - the expiring in-memory store against a plain timed map.
* `Lifecycle`, `ShutdownProperties` - counting handlers, draining them at shutdown, closing client sockets.
* `QueueBudget` - the byte budgets of the frame queues.
* `LoginLimiter` - failed logins per address.
* `CredentialLock`, `CredentialProperties` - refreshing, replacing and deleting the stored credential.

## How the model is put together

Objects whose methods change fields are classes; each method is proved equal to a function of the old state, and
the theorems are about those functions. Concurrency is modelled as atomic steps taken in any order.

A request object is a record of the fields the code looks at; a JSON item is its type, id, call id, role, the kind of
`encrypted_content` it has, and an opaque rest. Strings are sequences of code points, trimmed on entry. The encoded size of
a body, the hash and UUID digests, content cleaning and the identity fields of a body are function parameters, and the
theorems hold for all of them. A pipeline stands for the steps of preparing one turn, including the conversation's
identity, so a plan does not carry the identity itself; `IdentityRuns` ties the pipelines of a run to one identity.

The search for a free item id ends when some attempt gives an id that is not taken. Nothing else is assumed of the hash:
`Terminates` asks it of the searches made for the array at hand, and different hashes for the ids that are looked for
are enough (`InputItems.ScatteredArraysTerminate`). An array in which no id is looked for needs no such condition.

The upstream is modelled twice: as a server that merges repeated items as the gateway does, and as one that simply
appends. Against the first, every body that is sent denotes the intended conversation. Against the second it does so exactly
when the body spells the conversation out or nothing in it is repeated.

## Findings

* Merging is not associative: an item that takes a tool call's id drops the call, and the call id may then return
  (`ItemMerge.MergeIsNotAssociative`). Items under one id may be regrouped exactly when they agree on being the same tool
  call, and on their call id unless neither waits for a reference (`MergeGrouping.AgreeingIsWhatRegroupingTakes`). While
  all items agree, a history is one merge of everything since the last reset (`CommitProperties.HistoryIsTheFlatMerge`).
* An item that takes over the id of a tool output can drop that output from the history
  (`ItemMerge.SharedIdLosesAnOutput`); `ItemMerge.MergeKeepsToolOutputsExactly` says when no output is lost.
* A fallback prepares the replay once more, and upstream output enters the history unprepared. So the delivered items
  are the intended ones exactly when nothing among them is left to repair (`FallbackProperties.FallbackDeliversExactly`),
  and only what the upstream answered can be (`IdentityRuns.OnlyUpstreamItemsNeedRepair`). It does happen: after an
  answered assistant message whose id lacks its prefix, the next fallback delivers another conversation than the
  one meant, for all digests and accounts (`FallbackRuns.FallbackCanDeliverSomethingElse`).
* Without an identity, an over-long id and a short one can be sent as the same id, whatever the hash
  (`InputItemProperties.WithoutIdentityIdsCanCollide`). Every route passes an identity, so none reaches this; with one it is
  impossible. Ids of an array none of whose ids is looked for stay apart anyway (`InputItemProperties.CollisionNeedsASearch`).
* The comment at internal/proxy/identity.go:377-379 says that pseudonyms are as long as a UUID. That holds of the ids the
  repair records exactly when identities are remapped (`RecordedIds.RecordedIdsAreLongExactlyWithRemapping`). Without
  remapping, internal/proxy/upstream_compat.go:225-238 records `msg_` plus the client's own id, and any other upstream id
  that begins with it is rewritten as well (`RecordedIds.ShortRecordReachesIntoOtherIds`). The model follows the code.
* Without remapping, an id that one turn keeps can have been recorded by an earlier turn as the pseudonym of another, and
  is then exposed as that other id (`RecordedIds.KeptIdIsExposedAsAnother`). A kept id comes back as itself exactly when
  no earlier array had recorded it, other pseudonyms aside (`RecordedIds.KeptIdComesBackExactly`).
* A `Put` whose clock reading is older than another caller's sweep may be let in where a plain timed map would
  refuse: some run disagrees if and only if the reading is behind (`StoreProperties.LaggingClocksDisagreeExactly`).
* Eight failed logins can be let through in a nanosecond, three at the end of one window and five at the
  start of the next (`LoginLimiter.EightFailuresInANanosecond`).
* Event data that opens with an empty line loses it (`EventStream.JoinIsLinesExactly`), unlike section 9.2.6 of the
  WHATWG HTML standard.

## Model

| member | source | states |
|---|---|---|
| ItemMerge.MergeItems | internal/proxy/websocket_state.go:384-446 | the loops over all groups compute the deduplication of their concatenation |
| ItemMerge.DropRepeatedCalls | internal/proxy/websocket_state.go:404-417 | the first pass keeps every item except tool calls whose call id an earlier tool call has |
| ItemMerge.ChooseById | internal/proxy/websocket_state.go:419-437 | the position remembered for an id is the one that outranks every other: referenced before unreferenced, later before earlier |
| ItemMerge.SelectChosen | internal/proxy/websocket_state.go:438-445 | the last pass keeps exactly the chosen positions and the items without an id, in order |
| ItemMerge.MergeIsDuplicateFree | internal/proxy/websocket_state.go:384-446 | the result is a subsequence of the concatenated groups with distinct non-empty ids and distinct call ids of tool calls |
| ItemMerge.MergeKeepsExactly | internal/proxy/websocket_state.go:384-446 | kept are, in order, exactly the items that repeat no earlier function or custom tool call and, of those, exactly the ones that give way to no other of their id: one with its output before one without, else the later |
| ItemMerge.MergeIsConcatenationExactly | internal/proxy/websocket_state.go:384-446 | a merge equals plain concatenation if and only if the concatenation repeats no id and no call |
| ItemMerge.MergeIsIdempotent | internal/proxy/websocket_state.go:384-446 | merging a merged list changes nothing |
| ItemMerge.EachIdIsKeptAtItsBestOccurrence | internal/proxy/websocket_state.go:419-446 | each id surviving the call pass is kept once, at its last referenced occurrence, or at its last one when none is referenced |
| ItemMerge.MergeKeepsToolOutputs | internal/proxy/websocket_state.go:384-446 | no tool output is lost while no other item with a call id takes an output's id |
| ItemMerge.MergeKeepsToolOutputsExactly | internal/proxy/websocket_state.go:384-446 | no tool output is lost if and only if, after the call pass, each answered call has an output whose id no later referenced item takes |
| ItemMerge.DistinctIdsAreTheirOwn | internal/proxy/websocket_state.go:419-446 | distinct item ids are enough for the condition under which outputs are kept |
| ItemMerge.MergeIsNotAssociative | internal/proxy/websocket_state.go:384-446 | a family of inputs on which the two groupings of three merges differ |
| ItemMerge.SharedIdLosesAnOutput | internal/proxy/websocket_state.go:419-446 | two outputs of different calls under one id: the earlier is lost |
| MergeGrouping.DedupStep | internal/proxy/websocket_state.go:384-446 | merging compatible items is inserting them one at a time by a rule that looks at two items only |
| MergeGrouping.CompatibleMergesRegroup | internal/proxy/websocket_state.go:384-446 | while items under one id agree, both groupings of three merges are the merge of the whole |
| MergeGrouping.AgreeingIsWhatRegroupingTakes | internal/proxy/websocket_state.go:384-446 | two items under one id may be regrouped, together with any item of another id, if and only if they agree |
| Requests.EnsureImageToolInPlace | internal/proxy/upstream_compat.go:93-117 | the in-place edit computes the injection function, looking at every tool before adding one |
| Requests.ImageToolIsNeverDuplicated | internal/proxy/upstream_compat.go:93-152 | injecting twice is injecting once, afterwards an image tool is offered, and no other setting changes |
| Requests.NormalizingKeepsToolTraffic | internal/proxy/normalize.go:139-162 | normalising input keeps the call ids of all calls and outputs |
| Conversation.WebSocketConversation.InputLooksLikeTranscript | internal/proxy/websocket_state.go:311-329 | true if and only if some input item is one that only a transcript holds |
| Conversation.WebSocketConversation.InputSatisfiesCalls | internal/proxy/websocket_state.go:331-355 | true if and only if every pending call has its output in the input |
| Conversation.WebSocketConversation.Review | internal/proxy/websocket_state.go:39-88 | the first objection to a message, in the order the code checks |
| Conversation.WebSocketConversation.Prepare | internal/proxy/websocket_state.go:39-187 | planning step by step equals the planning function, error cases included, and changes no field |
| Conversation.WebSocketConversation.FinishPlan | internal/proxy/websocket_state.go:112-187 | both bodies are built from one prepared body, and a replay over the limit is refused |
| Conversation.WebSocketConversation.Commit | internal/proxy/websocket_state.go:197-270 | all or nothing: on an error no field changes, on success the whole new state is the committed one |
| Conversation.WebSocketConversation.CarrySettings | internal/proxy/websocket_state.go:237-268 | which settings and instructions the next continuation inherits |
| Conversation.CollectPending | internal/proxy/websocket_state.go:357-382 | the loop collects the pending call ids in order of first appearance |
| Conversation.PendingCallsAreTheToolCalls | internal/proxy/websocket_state.go:357-382 | pending ids are exactly the call ids of the output's tool calls, each once |
| Sessions.WebSocketSession.Ensure | internal/proxy/websocket.go:375-418 | a live socket of the same account is reused; otherwise it is dropped and at most one new generation is opened, none while a failed dial cools down |
| Sessions.WebSocketSession.Forward | internal/proxy/websocket.go:238-291 | the session after each way a forwarded turn can end |
| Sessions.WebSocketSession.ExecuteHttpFallback | internal/proxy/websocket.go:293-373 | the session after a turn over HTTP, committed under generation 0 |
| Sessions.WebSocketSession.Handle | internal/proxy/websocket.go:157-236 | the session after one turn from authorization to commit |
| TurnProperties.ContinuationAnswersPendingCalls | internal/proxy/websocket_state.go:78-88 | a continuation missing the output of any pending call is never planned |
| TurnProperties.PlanSettings | internal/proxy/websocket_state.go:90-141 | a planned setting is the client's own, else the carried one for a continuation silent about it; the injected image tool is not part of what is carried |
| PlanProperties.ResetsExactly | internal/proxy/websocket_state.go:66-75 | a plan resets if and only if its message is a create that names no response or whose array holds a function call, custom tool call, compaction, compaction trigger or assistant message |
| PlanProperties.AcceptedExactly | internal/proxy/websocket_state.go:39-94 | nothing stands against a message if and only if its type, input, named response, tool outputs and model are as the conversation asks, in the terms of the message itself |
| PlanProperties.FirstObjection | internal/proxy/websocket_state.go:39-88 | exactly when each objection is the one raised |
| PlanProperties.PlanRepairsTheInput | internal/proxy/normalize.go:36-86 | the new items of a plan are the repair of the message's items one by one, system messages as the developer's; a text is one user message |
| PlanProperties.PlanFields | internal/proxy/websocket_state.go:90-172 | model, type, named response and remaining fields of both bodies in terms of the message and the conversation |
| PlanProperties.SentTools | internal/proxy/upstream_compat.go:82-188 | the tools that are sent are the client's with an image tool at the end if and only if images are allowed and none of them offers any; parallel calls are refused exactly in the lite form |
| PlanProperties.HttpFields | internal/proxy/upstream_compat.go:29-41 | besides its items, what the body of a fallback leaves out of the prepared one, and that nothing else of it changes |
| SessionProperties.SocketOfATurn | internal/proxy/websocket.go:375-418 | a live socket of the turn's account is used again; otherwise one is dialled unless the fallback is on and a refusal is less than twenty seconds old |
| SessionProperties.EachBodyGoesToItsAccount | internal/proxy/websocket.go:375-418 | in every run a body goes only to a socket opened by a turn of the same account, and to an earlier turn's only if that was still alive |
| SessionProperties.EachPlannedTurnIsSent | internal/proxy/websocket.go:182-210 | a planned turn sends exactly one body, over a socket if and only if it has a live one or may dial and is connected |
| SessionProperties.NoDialWhileCoolingDown | internal/proxy/websocket.go:380-414 | with the fallback on, no socket is opened for twenty seconds after a refused dial, whatever turns come |
| SessionProperties.SocketTurnEnds | internal/proxy/websocket.go:200-291 | exactly when a turn over a socket ends the session, keeps the socket, and is committed |
| SessionProperties.HttpTurnEnds | internal/proxy/websocket.go:293-373 | exactly when a turn over HTTP ends the session and is committed |
| SessionProperties.NothingAfterTheEnd | internal/proxy/websocket.go:157-291 | a session that has ended sends and commits nothing more |
| SessionProperties.IncrementalExactly | internal/proxy/websocket_state.go:189-195 | over a socket the body names the last response and holds only the new items if and only if the turn continues and that socket completed the last commit; otherwise it spells everything out |
| SessionProperties.GoingOnKeepsTheHistory | internal/proxy/websocket_state.go:66-75 | in every run an append, or a create naming the last response, of user messages and tool outputs is understood as the merge of history and new items, over either route |
| SessionProperties.LastCallsAreAnswered | internal/proxy/websocket_state.go:78-80 | in every run a turn that continues is sent only with an output for every call of the last answer |
| SessionProperties.HistoryIsOnlyDroppedByStartingOver | internal/proxy/websocket_state.go:212-235 | the history changes only by a commit, and loses what it held only to a message that starts over |
| RunProperties.EveryRunKeepsInv | internal/proxy/websocket.go:157-418 | every run keeps server and conversation in step on the conversation's own socket |
| RunProperties.EverySentBodyDenotesTheConversation | internal/proxy/websocket_state.go:159-195 | whichever body was sent over a socket, the server evaluates it to the merge of history and new input, or to the new input after a reset; the body sent over HTTP names no response and spells out that same conversation prepared once more |
| RunProperties.PreviousResponseStaysOnItsSocket | internal/proxy/websocket_state.go:189-195 | a body naming a previous response goes only to the socket that completed exactly that response last, never over HTTP |
| RunProperties.AppendingServerAgreesExactly | internal/proxy/websocket_state.go:159-195 | a server that appends evaluates the same conversation if and only if the body spells it out or nothing in it is repeated |
| RunProperties.EitherBodyDenotesTheSame | internal/proxy/websocket_state.go:189-195 | on the conversation's own socket, incremental and replay body of a continuation evaluate to the same conversation |
| RunProperties.GenerationsOnlyIncrease | internal/proxy/websocket.go:402-417 | each new socket's generation exceeds all earlier ones, and generation 0 is never a socket |
| RunProperties.AnswerIsHeld | internal/proxy/websocket_state.go:212-235 | committing a delivered turn leaves server and conversation remembering the same transcript |
| RunProperties.EveryDeliveryWasPlanned | internal/proxy/websocket.go:157-373 | every body that was sent stems from a plan made in the state it was sent from: over a socket it is the one chosen for that socket, over HTTP the replay prepared once more |
| CommitProperties.EveryRunRemembers | internal/proxy/websocket_state.go:197-268 | after every run the whole remembered state is a function of the committed turns |
| CommitProperties.EveryCompletedConversationFits | internal/proxy/websocket_state.go:212-229 | the history is the nested merge of committed turns and the replay rebuilt from it fits the byte limit |
| CommitProperties.HistoryIsTheFlatMerge | internal/proxy/websocket_state.go:212-216 | while items under one id agree, the nested merges of a conversation are one merge of everything since the last reset |
| CommitProperties.OmittedSettingsAreTheLastWritten | internal/proxy/websocket_state.go:90-111 | a continuation that omits tools, tool choice or instructions gets those the client wrote last since the reset |
| CommitProperties.EmittedCallsAreAnsweredOrPending | internal/proxy/websocket_state.go:212-234 | every tool call emitted since the last reset has its output in the history or is still pending, unless since then another item with a call id shared the id of an output |
| CommitProperties.DistinctIdsAccountForEveryCall | internal/proxy/websocket_state.go:212-234 | with distinct item ids since the last reset, every emitted tool call is answered or pending |
| Escaping.EscapeIsInjective | internal/proxy/identity.go:392-400 | two strings with the same encoded text are equal |
| Escaping.QuotesAreEscaped | internal/proxy/identity.go:392-400 | every quote inside an encoded string stands behind a backslash |
| Escaping.EscapeTable | internal/proxy/identity.go:392-400 | the exact text that stands for every character: itself from the space on, but for quote, backslash, angle brackets, ampersand and the two line separators |
| Substitution.FindFirst | internal/proxy/identity.go:402-430 | finds the first listed pattern that matches at the leftmost place, or reports that none matches anywhere |
| Substitution.SortLongestFirst | internal/proxy/identity.go:401-401 | any order by falling length, a permutation of the keys |
| Substitution.FirstMatchIsLongest | internal/proxy/identity.go:401-412 | with longer patterns listed first, the first match is the longest key at the leftmost place, whatever the order of equal lengths |
| Substitution.FirstMatchIsReplaced | internal/proxy/identity.go:419-432 | one replacement followed by the rest is the simultaneous substitution, which never looks at restored text again |
| Identity.RememberExtends | internal/proxy/identity.go:339-366 | remembering keeps the byte count exact and within budget, never changes an entry, and after a failure changes nothing |
| Identity.RememberFailsExactly | internal/proxy/identity.go:339-366 | a pseudonym with another client is a collision, and the budget is 256 entries and 262144 bytes, exactly |
| Identity.CleanExactly | internal/proxy/identity.go:532-542 | a value counts if and only if it has at most 1024 bytes and no line ends or null characters |
| Identity.CodexIdentity.Note | internal/proxy/identity.go:339-366 | the fields become those of the remembering function and a cached matcher stays coherent with the reverse map |
| Identity.CodexIdentity.MapValue | internal/proxy/identity.go:329-337 | a valid value becomes its pseudonym and is recorded; anything else is untouched |
| Identity.CodexIdentity.MapWindow | internal/proxy/identity.go:310-327 | a window of the client's own session keeps its suffix and is recorded as a whole, any other maps its base |
| Identity.CodexIdentity.BuildMatcher | internal/proxy/identity.go:389-411 | whatever order the map is visited in, the rebuilt matcher lists exactly the encoded keys of the current map, longest first |
| Identity.CodexIdentity.ExposePayload | internal/proxy/identity.go:380-434 | the payload with every recorded pseudonym replaced at once, leftmost and longest first |
| Identity.ReplaceAll | internal/proxy/identity.go:412-433 | the replacing loop ends and equals the recursive substitution |
| RoundTrip.RecordedIdIsRestored | internal/proxy/identity.go:329-434 | a recorded pseudonym that is a whole JSON string is restored to exactly the client id it was issued for, whatever surrounds it |
| RoundTrip.RecordedNameIsRestored | internal/proxy/identity.go:389-434 | a recorded name of letters, digits, hyphens and underscores, as in a UUID, is found between quotes in the raw payload and replaced by the client's text |
| RoundTrip.UnrelatedTextIsUntouched | internal/proxy/identity.go:380-434 | a payload without any pseudonym is delivered as it is |
| RoundTrip.RecordedPrefixIsReplaced | internal/proxy/identity.go:377-434 | an id that begins with a recorded pseudonym and with no longer one has exactly that beginning restored; the rest is treated as if it stood alone |
| RoundTrip.WindowComesBackExactly | internal/proxy/identity.go:310-327 | with the rest of its literal clear, a window sent as pseudonym and suffix comes back as the client's if and only if the longest pseudonym recorded at its start stands for the same beginning |
| RoundTrip.ForeignWindowComesBack | internal/proxy/identity.go:319-326 | recording only the base of a window outside the client's session is enough for that window to come back whole, if no longer pseudonym begins it and none occurs in its suffix |
| InputItems.UniqueId | internal/proxy/upstream_compat.go:320-347 | a search that ends returns the first attempt that is neither reserved nor used; with different hashes for this id, within one attempt more than there are such ids |
| InputItems.TriesAreBounded | internal/proxy/upstream_compat.go:320-347 | while all ids tried are taken, no more were tried than are taken, provided hashes of different attempts at this id differ |
| InputItems.ScatteredArraysTerminate | internal/proxy/upstream_compat.go:190-250 | different hashes for the ids that are looked for are enough for every search of an array to end |
| InputItems.AssignId | internal/proxy/upstream_compat.go:219-238 | the id given to an item equals the assignment function, collisions and over-long ids included |
| InputItems.SanitizeItems | internal/proxy/upstream_compat.go:190-250 | the loop equals the item-by-item specification and leaves the reverse map and failure it describes |
| InputItems.SanitizeItem | internal/proxy/upstream_compat.go:211-246 | one round: repaired item, id in use, mapping recorded |
| InputItemProperties.AssignedId | internal/proxy/upstream_compat.go:219-238 | the id sent is acceptable, equals the client's if and only if that was acceptable, and a rewritten one is no kept id |
| RepairProperties.EachItemIsRepairedExactly | internal/proxy/upstream_compat.go:206-278 | an item is dropped if and only if it is reasoning with usable content and an id over 64 characters; what of every other one is kept, and when its id is blank |
| RepairProperties.EachIdIsSentExactly | internal/proxy/upstream_compat.go:219-346 | an id is sent as wished for, kept, remapped or with its prefix, unless that is too long or another item keeps it, and then as the first free attempt |
| RepairProperties.UsedIdsAreTheSent | internal/proxy/upstream_compat.go:205-244 | the ids in use before an item are exactly those sent for the items before it |
| InputItemProperties.SanitizedIdsAreFaithful | internal/proxy/upstream_compat.go:190-250 | with an identity and no failure, and if the searches made for this array end, items with different ids never share one, every id fits 64 characters and its type's prefix, and each rewritten id maps back |
| InputItemProperties.RewrittenIdComesBack | internal/proxy/upstream_compat.go:190-250 | a rewritten item id that the upstream repeats as a JSON string reaches the client as its own id |
| InputItemProperties.SanitizedItemsArePrepared | internal/proxy/upstream_compat.go:190-278 | nothing about a sanitised item is left to repair |
| InputItemProperties.PreparedItemsStay | internal/proxy/upstream_compat.go:190-278 | an item prepared before is left alone, whatever else the array holds |
| InputItemProperties.PreparingTwiceIsPreparingOnce | internal/proxy/upstream_compat.go:190-278 | sanitising a prepared array changes no item and adds no mapping |
| InputItemProperties.PreparedArraysAreTheFixedPoints | internal/proxy/upstream_compat.go:190-278 | sanitising gives an array back if and only if nothing in it was left to repair |
| InputItemProperties.WithoutIdentityIdsCanCollide | internal/proxy/upstream_compat.go:219-250 | without an identity two different ids can be sent as one, for every hash |
| InputItemProperties.CollisionNeedsASearch | internal/proxy/upstream_compat.go:219-250 | without remapping two ids are sent as one only if the first was looked for and the second was not |
| InputItemProperties.SanitizingKeepsToolTraffic | internal/proxy/upstream_compat.go:190-250 | sanitising drops and invents no tool call and no tool output |
| InputItemProperties.SanitizerKeepsToolTraffic | internal/proxy/upstream_compat.go:190-250 | the repair meets what every run asks of it, whatever the digests and the identity |
| RecordedIds.RecordedIsRewritten | internal/proxy/upstream_compat.go:235-240 | whatever an array adds to the reverse map is the id of an item it rewrote |
| RecordedIds.UnprefixedIdIsRecorded | internal/proxy/upstream_compat.go:225-240 | without remapping, a message id that lacks its prefix is recorded under itself with the prefix in front |
| RecordedIds.RecordedIdsAreLongExactlyWithRemapping | internal/proxy/upstream_compat.go:225-240 | every id the repair records is as long as a UUID if and only if identities are remapped |
| RecordedIds.ShortRecordReachesIntoOtherIds | internal/proxy/identity.go:377-434 | without remapping, every upstream id that begins with a recorded short one is rewritten too, whatever follows it |
| RecordedIds.KeptIdIsExposedAsAnother | internal/proxy/upstream_compat.go:225-240 | two turns without remapping after which an id the second kept is exposed as another |
| RecordedIds.KeptIdComesBackExactly | internal/proxy/upstream_compat.go:225-240 | other pseudonyms aside, a kept id is exposed as itself if and only if no earlier array had recorded it |
| FallbackProperties.FallbackDeliversTheCurrentTurn | internal/proxy/websocket.go:293-300 | in every run a fallback delivers every item of the current turn and the tool list unchanged, whatever was mapped in between |
| FallbackProperties.FallbackDeliversExactly | internal/proxy/websocket.go:293-300 | in every run the items delivered by a fallback are the intended conversation if and only if nothing in it is left to repair, and tool calls and outputs are the same in any case |
| IdentityRuns.AnyTurnMayFollow | internal/proxy/websocket_state.go:125-135 | any run threaded by one identity goes on with any turn, repaired by that identity as the run left it |
| IdentityRuns.MappingsStayWellFormed | internal/proxy/identity.go:339-366 | in every run the mapping stays within its budget and its books stay exact |
| IdentityRuns.MappingsOnlyExtend | internal/proxy/websocket_state.go:125-135 | once a turn has been committed its identity stays, and its mapping only extends |
| IdentityRuns.RewrittenIdsStayRestorable | internal/proxy/identity.go:339-434 | an id rewritten in a turn whose identity stayed is restored to the client's in every later turn |
| IdentityRuns.OnlyUpstreamItemsNeedRepair | internal/proxy/websocket_state.go:212-216 | whatever a sent conversation still holds unrepaired came from the upstream |
| IdentityRuns.FallbackIsExactForPreparedOutputs | internal/proxy/websocket.go:293-300 | a fallback delivers exactly the intended conversation whenever nothing the upstream answered needs repair |
| IdentityRuns.ThreadedRunsAccountForEveryCall | internal/proxy/websocket_state.go:212-234 | with the real repair and distinct item ids, every emitted tool call is answered or pending |
| FallbackRuns.FallbackCanDeliverSomethingElse | internal/proxy/websocket.go:293-300 | a run of two fallen-back turns, for all digests, accounts and texts, after which the delivered items are not the intended conversation |
| ChatStream.ChatStreamState.TranslateEvent | internal/proxy/chat.go:454-583 | fields and chunks after one event equal the translation function |
| ChatStream.StreamChat | internal/proxy/chat.go:419-452 | status and chunks of a whole stream: a closing marker when it ended without a terminal event, none when reading failed |
| ChatStream.ConvertResponse | internal/proxy/chat.go:311-417 | content, reasoning, calls, finish reason and envelope of a finished response |
| ChatStream.EachItemAdds | internal/proxy/chat.go:333-381 | a message adds its parts to the text, reasoning its summary and then its content, a function its call, and nothing else adds anything |
| ChatProperties.StreamedEqualsConverted | internal/proxy/chat.go:311-583 | reassembling the chunks of any stream that spells out a response gives its converted content, reasoning, tool calls and finish reason |
| ChatProperties.CompletionCarriesTheEnvelope | internal/proxy/chat.go:311-417 | the finishing chunk names the response as its conversion does, and the usage chunk gives the converted totals exactly when the upstream's own total is the sum and no earlier event counted more |
| ChatProperties.StreamInStep | internal/proxy/chat.go:454-583 | after every prefix of an orderly stream, what the client assembled is what the stream has said |
| ChatProperties.ItemOrderIsReadingOrder | internal/proxy/chat.go:311-365 | deltas in item order read the same straight through as item by item |
| ChatProperties.EveryStreamIsClosed | internal/proxy/chat.go:419-452 | the closing marker is among the chunks if and only if a terminal event came, and is sent at the end otherwise |
| ChatProperties.ChunksCarryTheLatestNames | internal/proxy/chat.go:474-507 | every chunk carries the id, model, creation time and counts that the events up to its own gave last |
| ChatProperties.RoleComesFirstAndOnce | internal/proxy/chat.go:500-506 | a message is opened exactly once, before any of its content, reasoning, announced calls or finish |
| EventStream.EventReader.ReadData | internal/proxy/websocket.go:834-862 | the reading loop equals the line-by-line specification, read errors included, and consumes exactly what it read |
| EventStream.PrintedEventsAreReadBack | internal/proxy/websocket.go:834-862 | events whose data opens with text are read back one by one with the standard's data, whatever white space surrounds their fields and whatever other fields and comments stand between them |
| EventStream.OtherLineIsSkipped | internal/proxy/websocket.go:838-854 | a line that is neither blank nor a data field is passed over, whatever was collected before |
| EventStream.JoinIsLinesExactly | internal/proxy/websocket.go:844-853 | data is the standard's if and only if the event does not open with an empty line before others |
| EventStream.UnfinishedEventIsDelivered | internal/proxy/websocket.go:855-860 | an event cut off before its blank line is still delivered at the end of the stream, and lost when reading failed |
| EventStream.LongEventIsRefused | internal/proxy/websocket.go:850-852 | an event over the limit is refused, never cut short |
| SessionStore.MemoryStore.RemoveExpired | internal/session/store.go:83-102 | whether skipped or not, the sweep leaves exactly the entries alive at its time, and the cached expiry stays a lower bound |
| SessionStore.MemoryStore.Put | internal/session/store.go:56-74 | refused exactly for a new key on a full swept store; otherwise exactly that entry is written |
| SessionStore.MemoryStore.Get | internal/session/store.go:104-125 | answers the live value and drops only an expired one |
| SessionStore.MemoryStore.Evict | internal/session/store.go:112-121 | under the write lock only an entry expired by then is dropped |
| SessionStore.MemoryStore.Delete | internal/session/store.go:127-136 | removes that key and keeps the cached expiry a lower bound |
| SessionStore.VisitOne | internal/session/store.go:91-101 | one round of the sweep keeps the remaining entries and the running minimum exact, in any order of visits |
| StoreProperties.EveryRunHoldsTheLiveEntries | internal/session/store.go:56-136 | in every interleaving store and timed map hold the same live entries, and the store stays within capacity |
| StoreProperties.GetAnswersFromTheTimedMap | internal/session/store.go:104-125 | a two-step `Get` answers what the timed map held when it looked, whatever happened in between |
| StoreProperties.ALiveEntryStays | internal/session/store.go:56-136 | in every interleaving a stored entry stays until it is overwritten, deleted or expired: no sweep and no late eviction drops an entry written anew |
| StoreProperties.AStoredValueIsAnswered | internal/session/store.go:56-125 | in every interleaving an accepted value is answered exactly until its time is up, as long as nobody else writes or deletes its key |
| StoreProperties.CapacityErrorsAreReal | internal/session/store.go:56-74 | a refusal means that many entries are alive; with a clock not behind, refusals are exactly those of the timed map |
| StoreProperties.LaggingClocksDisagreeExactly | internal/session/store.go:57-69 | for every positive capacity, there is a run after which store and timed map differ in refusing a `Put` if and only if its clock reading is behind the latest one |
| Lifecycle.ActivityGate.BeginRequest | internal/proxy/service.go:159-173 | refused after shutdown began, otherwise counted, with a fresh channel for the first |
| Lifecycle.ActivityGate.EndRequest | internal/proxy/service.go:175-182 | the last one closes the current channel, which was open |
| Lifecycle.SocketRegistry.Add | internal/proxy/websocket.go:916-930 | a socket is admitted if and only if it is one and the registry is not sealed |
| Lifecycle.SocketRegistry.Seal | internal/proxy/websocket.go:938-945 | sealing lists every admitted socket exactly once |
| ShutdownProperties.NoChannelIsClosedTwice | internal/proxy/service.go:159-182 | in every interleaving no channel is closed twice, and the current one is closed exactly while no handler runs |
| ShutdownProperties.IdleMeansDrained | internal/proxy/service.go:184-209 | once a wait begun after shutdown returns without error, no handler runs then or ever after and every socket is closed |
| ShutdownProperties.NoHandlerStartsAfterShutdown | internal/proxy/service.go:159-191 | after shutdown began the set of running handlers only shrinks |
| ShutdownProperties.ShutdownReachesEverySocket | internal/proxy/websocket.go:916-950 | when `BeginShutdown` has returned, every socket ever admitted is closed or has left the registry |
| ShutdownProperties.NoWaiterIsForgotten | internal/proxy/service.go:195-209 | a waiter whose channel was replaced, or with no handler left, may return |
| QueueBudget.ByteBudget.Reserve | internal/proxy/websocket.go:522-535 | taken alone, reserved if and only if the frame still fits, and a refusal has no net effect |
| QueueBudget.TriedExactly | internal/proxy/websocket.go:522-535 | a frame is tried if and only if there is a limit and the frame alone is within it |
| QueueBudget.BytesAreConserved | internal/proxy/websocket.go:488-542 | in every interleaving the counter is the bytes queued, held and pending; queued bytes stay within the limit; frames come out in order |
| QueueBudget.ReservationsAreDecidedAtTheAddition | internal/proxy/websocket.go:677-697 | however the consumer interleaves, a reservation is refused exactly when the frame did not fit at its addition |
| LoginLimiter.Limiter.Allow | internal/web/middleware.go:203-215 | refused exactly while blocked, with the time left; an expired window is forgotten; other addresses are untouched |
| LoginLimiter.Limiter.Failure | internal/web/middleware.go:217-231 | the address's counter, window and block after one more failure |
| LoginLimiter.AtMostEightFailuresInAnySpan | internal/web/middleware.go:203-237 | any nine admitted failures of one address since its last success span more than fifteen minutes, however logins of other addresses overlap |
| LoginLimiter.AFifthFailureBlocks | internal/web/middleware.go:217-231 | no window holds more than five failures, and after a fifth none is admitted for thirty minutes |
| LoginLimiter.AddressesAreIndependent | internal/web/middleware.go:203-237 | logins of one address have no effect on another |
| LoginLimiter.EightFailuresInANanosecond | internal/web/middleware.go:203-231 | a sequence of logins that attains the bound of eight |
| CredentialLock.CredentialManager.SaveCredential | internal/codex/auth.go:511-537 | stored only with an account and an access token, and only when the write commits |
| CredentialLock.CredentialManager.RefreshLocked | internal/codex/auth.go:411-450 | what a refresh holding the lock returns and stores in every case |
| CredentialProperties.RefreshesNeverOverwriteOthersWrites | internal/codex/auth.go:360-451 | in every interleaving a saved refresh directly follows the write it started from: no replacement is overwritten, no deleted account revived |
| CredentialProperties.OneRefreshAtATime | internal/codex/auth.go:402-451 | at most one refresh is under way, with the refresh token stored at that moment, and only when the credential is due |
| CredentialProperties.AsksExactlyWhenDue | internal/codex/auth.go:402-421 | the token endpoint is asked if and only if a credential with a refresh token is stored that is valid for at most two minutes |
| CredentialProperties.AnswerIsTakenExactly | internal/codex/auth.go:423-445 | an answer is taken if and only if it has an access token and some account is known |
| CredentialProperties.RefreshesLoseNothing | internal/codex/auth.go:423-450 | a saved refresh takes from the very reply it received what that gives, and keeps refresh token, ID token, account, email and plan where that reply leaves them out |

## Left out

* TLS, dialling, ping timers, deadlines and write errors towards the client: they appear as the ways a turn or a
  stream can end. A disconnected client ends its session.
* JSON encoding of whole bodies, regular expressions, HMAC, SHA-256, AES-GCM: function parameters or concrete definitions of
  their effect. The text inside JSON strings is encoded concretely. JSON numbers stay opaque.
* The unsigned 64-bit wrap-around of generations and the signed 64-bit range of byte counters. `QueueBudget.BytesAreConserved`
  bounds the counter by twice the limit.
* A terminal event is taken to belong to the turn that waits for it; late or repeated frames are not modelled.
* Remapping of `client_metadata`, turn metadata and headers (internal/proxy/identity.go:138-308) and the fixed `prompt_cache_key`: the
  pipeline's identity step, of which only success or failure matters here.
* Normalisation of `include`, reasoning settings and content parts (internal/proxy/normalize.go): opaque, it changes neither the order
  nor the call ids of items. Most of the chat request conversion is left out.
* Usage totals are not part of `StreamedEqualsConverted`, since one side sums where the other copies;
  `CompletionCarriesTheEnvelope` says when they agree.
* Pseudonyms are sorted by their number of characters where the code uses bytes. Two keys that match at one place are
  prefixes of each other, so both orders pick the same match.
* The keyed read and write locks of the identity: its methods are modelled one at a time.
* The Redis session store, the SQL store, quotas, OAuth flows, configuration, logging and the administration pages.
* White space beyond ASCII around the data of an event, which the code trims as well.
* Failures of attempts that were allowed before a block but reported after it.
* Credential times are kept in full precision where the store keeps milliseconds, and the stored tokens are not encrypted.
- InputItems.UniqueId: asks that the search ends; if every attempt gave an id in use, the loop would not. `Sanitizer` sends nothing then.
- RecordedIds.KeptIdComesBackExactly: asks that no other recorded pseudonym occurs in the id's literal, since replacements inside it could cancel out.
- ChatProperties.StreamedEqualsConverted: says nothing of streams whose text deltas leave item order or that announce a function twice.
- CommitProperties.EmittedCallsAreAnsweredOrPending: holds while no other item with a call id takes an output's id, which distinct item ids ensure (`CommitProperties.DistinctIdsAccountForEveryCall`).
