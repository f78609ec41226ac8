# Verification of the session, chat and upload kernels

A browser talks to a hub, the hub to workers, and each worker runs agent sessions that outlive
the browser's connection. This project models the stateful and algorithmic parts of that chain
in Dafny and proves what they promise.

* **Session ownership** (`ParkingLot`, `SessionProtocol`, `SessionWorker`): connections create,
  resume, switch, take over and drop sessions; locks move, live sessions are parked and
  reclaimed, expiry timers stop unclaimed ones. The protocol is a transition system over values;
  the lock table, the registry and the managers are classes that are proved to take its steps.
* **Line diff** (`LineDiff`): the table, the walk back, optimality and round trips.
* **Transcript and chat** (`Transcript`, `ChatStore`, `Dispatcher`, with `ToolResults` for what
  is served of a tool's output and `PythonText` for string operations): the reader's fold of the
  transcript and its paging, the live reducer, and what a session sends, suppressed or not.
  `Turns`, `TurnSimulation`, `ChatGist` and `LiveReload` compare the chat on screen with the chat
  after a reload.
* **Chunking** (`Chunker`): greedy packing is minimal, and nothing is lost.
* **Hub protocols** (`Correlation`, `Inbound`, `ProjectIndex`): replies matched to requests, data
  sockets paired with calls, project ids rewritten both ways.
* **One agent session** (`TurnMachine`, `ClaudeSession`, `Permissions`): turns, background
  consolidation, one-shot approval, permission requests and questions.
* **Frontend kernels** (`SvgLift`, `Uploads`).

Each module has specification functions on values, lemmas about them (invariants over all runs,
equivalences, optimality), and, where the source updates state in place, a class or a loop whose
contract equates the new state with the specification function of the old one. A concurrent
component is a state machine; one step is what the source runs between two awaits, except in the
session protocol, where a step is a whole handler call.

Some promises do not hold of the code as it is. Each has a lemma with the case in which it fails
and one with the exact condition under which it holds:

* A connection that resumes the session it already shows ends up without its lock and with two
  live objects for one id (`SessionProtocol.OwnResumeIsReachable`, `KeptIffNotOwn`). A failed start
  leaves its lock behind (`FailedStartKeepsItsLock`, `HeldIdlyIff`).
* The comment on `_busy` says it is set between a query and its result. If a prompt's query
  raises it stays set (`TurnMachine.FailedPromptSticks`, `StuckIffAPromptFailed`; for sessions whose
  stream is dead as well, `HungIff`).
* A consolidation whose stream dies can stay on record and keep the output suppressed
  (`TurnMachine.StreamDiesDuringConsolidation`, `ConsolidationOnDeadStream`, `LeftOverIff`).
* A reload does not always show what was on screen. It shows the prompt and the work of a
  background consolidation, which nobody saw (`LiveReload.ConsolidationIsReloaded`); it shows
  another prompt than the echoed one when another was sent, as in plan mode, or when cleaning
  changes it (`PlanModeReadsDifferently`); it leaves out notes about a changed model or effort
  (`ChangeIsNotReloaded`); and it has the report of a task from between two turns in another
  bubble (`ReportReadsDifferently`). Under the assumptions of `LiveEqualsReload` there are no other
  cases.
* A task event outside a turn leaves a bubble open, and the answer to the next prompt goes there,
  above the prompt (`ChatStore.ReplyAbovePrompt`, `StreamLandsLastIff`).
* A cancelled caller of `request` leaves its entry behind (`Correlation.AbandonedEntryStealsReply`,
  `OrphanIff`), and before the first echoed id a push can stand in for a reply
  (`PushBeforeFirstEcho`, `CompletesIff`).
* A cancelled caller of `open_session` leaves its waiter behind, and the socket the worker dials
  for it is accepted for nobody (`Inbound.AbandonedCallTakesASocket`, `OrphanIff`).
* A permission request raised while nobody is attached is never shown (`Permissions.RequestRaisedMuted`,
  `UndeliveredIffRaisedMuted`), and one raised behind another session is off the client's list when
  it comes back (`RequestRaisedBehind`, `ListedIffRaisedHere`).
* Project ids of a million and more collide (`ProjectIndex.MillionthProjectIsLost`,
  `UpdateExactly`).
* A hard split with a negative overlap skips text (`Chunker.WindowsSkip`,
  `HardSplitLosesNothingIff`).
* A mark without an item in flight miscounts the batch (`Uploads.StrayMarkReportsABatch`,
  `MarkIsExactIff`), and a batch that ends by cancellation is not reported
  (`EndedBatchIsReportedIff`).

Where code and comments differ the code is modelled: the one-shot flag of the permission broker
is said to be consumed by the first tool call, but it lasts until the prompt's result.

## Model

| member | source | states |
|---|---|---|
| SessionProtocol.LiveSessionsAccounted | shared/worker_shared/sdk/manager.py:72-369 | In every reachable state the live session objects are the disjoint union of the parked ones and those on screen, with one object per session id; whatever is on screen is locked by that connection, and parked ids are unlocked. |
| SessionProtocol.RunKeepsInv | shared/worker_shared/sdk/manager.py:72-369 | Every run of new, resume, takeover, disconnect, expiry and shutdown calls, failing starts included, keeps the ownership invariant, as long as no connection resumes the session it already shows. |
| SessionProtocol.KeptIffNotOwn | shared/worker_shared/sdk/manager.py:208-236 | Over fresh ids, a call breaks the ownership invariant if and only if it is a successful resume of the session the caller already has on screen. |
| SessionProtocol.ResumeOwnBreaks | shared/worker_shared/sdk/manager.py:208-236 | In that case the caller ends up with a session it has no lock on, and two live objects share one session id. |
| SessionProtocol.OwnResumeIsReachable | shared/worker_shared/sdk/manager.py:208-236 | It is reachable: starting a session and resuming the same id on the same connection does it. |
| SessionProtocol.LockedOutIff | shared/worker_shared/locks/manager.py:62-73 | A resume is answered with the holder's label if and only if another connection, on another device, holds the session and the caller does not insist. |
| SessionProtocol.CollidesIff | shared/worker_shared/sdk/manager.py:100-116 | A new session is refused in the same case. |
| SessionProtocol.RefusedResumeChangesNothing | shared/worker_shared/sdk/manager.py:127-206 | A refused resume changes nothing but the caller's mailbox, and a parked session is never refused. |
| SessionProtocol.GrantedIff | shared/worker_shared/locks/manager.py:62-98 | The caller gets the session on screen, under its own lock, if and only if nobody else holds it, or the same device does, or it insists: the same device always gets its session back. |
| SessionProtocol.ScreenTakenIff | shared/worker_shared/locks/manager.py:62-98 | A call of another connection takes a session off a screen if and only if it resumes that session and insists or comes from the same device. |
| SessionProtocol.TakeoverEffect | shared/worker_shared/locks/manager.py:42-100 | A granted takeover tells the previous holder and nobody else, takes the session off its screen, gives the lock to the caller and leaves every third connection alone. |
| SessionProtocol.ParkedIsReclaimed | shared/worker_shared/sdk/manager.py:150-206 | Resuming a parked session always succeeds, hands over the very object that was parked, and starts and stops nothing. |
| SessionProtocol.HowSessionsEnd | shared/worker_shared/sdk/manager.py:316-369 | A live session ends in a step if and only if its own expiry task fires, the server shuts down while it is parked, or someone takes over the screen it is on. |
| SessionProtocol.NothingIsLost | shared/worker_shared/sdk/manager.py:72-369 | Over any run, a session that is live at some point is live at the end, or was ended by one of those three causes in between. |
| SessionProtocol.OutputFollows | shared/worker_shared/sdk/registry.py:59-106 | A session is muted when its client leaves, goes on sending to its client in the background when that switches to another one, and sends to whoever reclaims it; nothing else redirects its output. |
| SessionProtocol.NoDirectoryIff | shared/worker_shared/sdk/manager.py:80-88 | A call is answered that its project directory is missing exactly if it is, and then nothing else happens. |
| SessionProtocol.HeldIdlyIff | shared/worker_shared/sdk/manager.py:97-125 | Over all runs: a connection holds the lock of a session it does not show exactly when a granted start of its failed, and since then it did not leave and nobody was granted the session. |
| SessionProtocol.FailedStartKeepsItsLock | shared/worker_shared/sdk/manager.py:97-125 | It is reachable: a new session whose start fails leaves its lock behind. |
| SessionWorker.LockManager.TryAcquire | shared/worker_shared/locks/manager.py:42-100 | The lock table in place: grants unless another device holds the lock and the caller does not insist, reports the previous holder, and calls its revocation callback on a takeover. |
| SessionWorker.LockManager.Release | shared/worker_shared/locks/manager.py:102-109 | Frees the lock only for the connection that holds it. |
| SessionWorker.LockManager.ReleaseAllByConnection | shared/worker_shared/locks/manager.py:111-119 | Frees exactly the locks of one connection and returns them. |
| SessionWorker.SessionRegistry.Park | shared/worker_shared/sdk/registry.py:59-106 | Parking in place: the session is in the table under a new expiry task, an older task for the id is cancelled, and its output goes to the background or nowhere. |
| SessionWorker.SessionRegistry.Take | shared/worker_shared/sdk/registry.py:108-119 | Removes and returns the parked session and cancels its expiry task. |
| SessionWorker.SessionRegistry.Expire | shared/worker_shared/sdk/registry.py:128-140 | A firing expiry task stops exactly the session the table holds for it. |
| SessionWorker.SessionRegistry.StopAll | shared/worker_shared/sdk/registry.py:142-154 | Shutdown stops every parked session and leaves no entry and no expiry task. |
| SessionWorker.SessionManager.NewSession | shared/worker_shared/sdk/manager.py:72-125 | The handler in place takes the whole process from one protocol state to exactly the next. |
| SessionWorker.SessionManager.ResumeSession | shared/worker_shared/sdk/manager.py:127-242 | The same for resume, through the reclaiming path or the path from disk. |
| SessionWorker.SessionManager.Reattach | shared/worker_shared/sdk/manager.py:150-206 | The reclaiming path: acquire, park the current session, show the parked one; or put it back. |
| SessionWorker.SessionManager.ParkCurrent | shared/worker_shared/sdk/manager.py:330-349 | The session on screen is parked with its output in the background and its lock released. |
| SessionWorker.SessionManager.Stop | shared/worker_shared/sdk/manager.py:316-326 | A disconnect parks the session silently and releases every lock of the connection. |
| SessionWorker.SessionManager.OnRevoked | shared/worker_shared/sdk/manager.py:351-369 | The revocation callback tells its client and stops its session if that is the one taken over. |
| SessionWorker.Worker.Expire | shared/worker_shared/sdk/registry.py:128-140 | An expiry as a step of the whole process. |
| SessionWorker.Worker.Shutdown | shared/worker_shared/sdk/registry.py:142-154 | A shutdown as a step of the whole process. |
| ParkingLot.RunsAreValid | shared/worker_shared/sdk/registry.py:59-154 | In every reachable registry state the parked ids and the timer ids coincide, and the timers still running are exactly the registered ones. |
| ParkingLot.ExpiryStopsItsOwnParking | shared/worker_shared/sdk/registry.py:128-140 | A timer is running if and only if nothing touched its parking since, and it stops exactly the session of that parking, never one taken or parked again in the meantime. |
| ParkingLot.UntouchedIsHeld | shared/worker_shared/sdk/registry.py:59-106 | A parking that nothing touched is still in the table, under its own timer. |
| ParkingLot.TakenIsNeverExpired | shared/worker_shared/sdk/registry.py:108-119 | Right after a take no running timer is for that session id. |
| LineDiff.DiffLines | frontend/src/components/DiffView.tsx:6-51 | The whole function: its context and deleted lines rebuild the first text, its context and added lines the second, and no other edit script between them is cheaper. |
| LineDiff.FillTable | frontend/src/components/DiffView.tsx:12-24 | The table filled by the nested loops holds, for every pair of prefixes, the length of a longest common subsequence. |
| LineDiff.WalkBack | frontend/src/components/DiffView.tsx:26-50 | The backward walk over the table, reversed, is the trace whose properties are proved. |
| LineDiff.TraceIsScript | frontend/src/components/DiffView.tsx:26-50 | The result is an edit script from the old lines to the new ones with as many context lines as the longest common subsequence is long. |
| LineDiff.KeptAtMostLcs | frontend/src/components/DiffView.tsx:12-24 | No edit script whatsoever keeps more lines than the recurrence says. |
| LineDiff.CostFromKept | frontend/src/components/DiffView.tsx:26-50 | Additions plus deletions of a script are determined by how many lines it keeps. |
| LineDiff.TraceIsCheapest | frontend/src/components/DiffView.tsx:26-50 | No edit script between the same lines has fewer additions plus deletions. |
| LineDiff.ApplyIffScript | frontend/src/components/DiffView.tsx:26-50 | Applying a patch succeeds on exactly the lines it starts from and yields exactly the lines it leads to. |
| LineDiff.TraceRoundTrips | frontend/src/components/DiffView.tsx:26-50 | The diff applied to the old lines gives the new ones; with additions and deletions swapped it goes back. |
| LineDiff.SwapExchangesEnds | frontend/src/components/DiffView.tsx:26-50 | Swapping additions and deletions exchanges the two texts of any script. |
| LineDiff.SplitThenJoin | frontend/src/components/DiffView.tsx:7-8 | Splitting at newlines and joining again is the identity, so the line results hold of whole texts. |
| LineDiff.AdditionsPrecedeDeletions | frontend/src/components/DiffView.tsx:34-41 | Within a changed hunk the added lines are listed before the deleted ones (the tie-break of the walk). |
| Transcript.ReadAll | worker-claude/src/sessions/reader.py:216-343 | The reading loop, mutating message and block lists, computes the fold of the entries. |
| Transcript.ReadUser | worker-claude/src/sessions/reader.py:241-302 | A user entry: cleaned texts, task blocks attached to the assistant before it, tool results attached to the newest tool block with their id. |
| Transcript.ReadAssistant | worker-claude/src/sessions/reader.py:311-343 | An assistant entry is dropped if nothing in it is visible, merged into an assistant bubble before it, or appended. |
| Transcript.AttachToPrior | worker-claude/src/sessions/reader.py:288-298 | The nested search attaches a result to the last message, and in it the first tool block, with that id. |
| Transcript.ResultIsShown | worker-claude/src/sessions/reader.py:281-305 | A tool result goes to the last message that has the tool, there to its first block, replaces what that showed and changes nothing else; it is shown as it is served. |
| Transcript.ResultsComeFromTranscript | worker-claude/src/sessions/reader.py:216-343 | Every tool result that is read, on any page, stands for that tool in a user entry of the transcript, whole up to the limit and cut beyond it. |
| ToolResults.TruncateServes | worker-claude/src/sessions/reader.py:149-166 | A result of at most 20 000 characters is served as it is; a longer one, or one whose parts are, becomes the first 20 000 characters of its text and a marker whose digits read as the length of the whole. |
| ToolResults.DecimalIsNumeral | worker-claude/src/sessions/reader.py:155 | The digits of the marker are a numeral without leading zeros with the value of the length. |
| ToolResults.FlattenIsInOrder | worker-claude/src/sessions/reader.py:156-164 | The parts are joined in order, and their sizes added up. |
| ToolResults.CutIsBounded | worker-claude/src/sessions/reader.py:149-166 | What is served of a long text is at most the limit, the marker and the digits of the length long. |
| ToolResults.CutTellsLength | worker-claude/src/sessions/reader.py:149-166 | Two long texts that are served alike have the same length and the same beginning. |
| Transcript.FoldGrows | worker-claude/src/sessions/reader.py:216-343 | More entries never remove or reorder a message: the ids for a transcript are a prefix of the ids for any longer one. |
| Transcript.GetSessionMessages | worker-claude/src/sessions/reader.py:195-362 | Reading, cutting at the first message with the given id and limiting is the page that the paging laws are about. |
| Transcript.PageIsStretch | worker-claude/src/sessions/reader.py:345-362 | A page is the stretch of messages right before the given one, or at the end without one, as long as the limit allows; a limit of zero or less allows all. |
| Transcript.StubIsSkippedIff | worker-claude/src/sessions/reader.py:304-322 | An assistant entry leaves the page as it is exactly if it has no tool call and only blank words. |
| Transcript.UserTextReads | worker-claude/src/sessions/reader.py:241-302 | A user text: its task events go behind the blocks of the last assistant message, or to a carrier message of their own; what cleaning leaves is a user message behind that. |
| Transcript.AssistantReads | worker-claude/src/sessions/reader.py:311-343 | A visible block of the agent joins the assistant message at the end or starts one. |
| Transcript.OlderPage | worker-claude/src/sessions/reader.py:345-362 | The page before a held message is the stretch of history right before it, and says truly whether more is older. |
| Transcript.NextPage | worker-claude/src/sessions/reader.py:345-362 | Fetching one more page moves the start of what the client holds back by the limit, without gap or repeat. |
| Transcript.PagingTiles | worker-claude/src/sessions/reader.py:345-362 | Paging back any number of times while the file grows tiles the history of the first page, and `has_more` is true exactly while something older exists. |
| ChatStore.UnfinishedStaysCurrent | frontend/src/stores/chat.ts:154-482 | Every action keeps this: an unfinished message is the one that `currentAssistantId` names, and that id when set names an unfinished assistant message in the list. |
| ChatStore.RunsKeepTheBubble | frontend/src/stores/chat.ts:238-482 | Over any run with fresh ids both that and the correspondence of the live bubble to the streamed blocks hold. |
| ChatStore.BubbleGroupsDeltas | frontend/src/stores/chat.ts:504-544 | The live bubble groups what was streamed into maximal runs: no two neighbours are both text or both thinking, and each is its deltas concatenated in order. |
| ChatStore.CoalesceJoinsRuns | frontend/src/stores/chat.ts:516-544 | Appending block by block, as the store does, joins exactly the maximal runs of same-kind texts. |
| ChatStore.RunsKeepTheTrail | frontend/src/stores/chat.ts:218-236 | Over any run: the open bubble is followed by exactly the prompts and notes that came while it was open, in order, less the prompts rolled back as refused. |
| ChatStore.StreamLandsLastIff | frontend/src/stores/chat.ts:504-514 | Over any run: a streamed block lands in the last message exactly if that trail is empty. |
| ChatStore.ReplyAbovePrompt | frontend/src/stores/chat.ts:504-514 | It does happen otherwise: a task event outside a turn opens a bubble, and the answer to the next prompt is streamed into it, above the prompt. |
| ChatStore.StreamingIff | frontend/src/stores/chat.ts:218-482 | Over any run: the store is streaming if and only if a prompt, a busy session or a busy error came, and since then no result of the session shown, no idle session, no takeover, no other error and no reset. |
| ChatStore.FailedIff | frontend/src/stores/chat.ts:238-482 | Over any run: it shows a failure if and only if an error came and since then no prompt, busy session or busy error, no result of the session shown, takeover or reset, and no page of history. |
| ChatStore.PageIsTakenIff | frontend/src/stores/chat.ts:154-190 | Over any run: a page of history that is not longer than what is shown is ignored while the store is streaming; any other page replaces what is shown, with its bounds. |
| ChatStore.PagingFollowsLastPage | frontend/src/stores/chat.ts:154-198 | Over any run: paging goes on where the last page that was taken says, and an older page is awaited exactly while one was asked for and none was taken. |
| ChatStore.ListsWhatIsAsked | frontend/src/stores/chat.ts:247-318 | Over any run: the store lists the permission requests since the session was joined, in order, and each question since then once, as it was asked last. |
| ChatStore.Store.HandleServerMessage | frontend/src/stores/chat.ts:238-482 | The event handler in place computes the reducer on the old state. |
| ChatStore.Store.EnsureAssistantMessage | frontend/src/stores/chat.ts:504-514 | Creates a live bubble only if there is none and returns the id of the live one. |
| ChatStore.Store.AppendBlock | frontend/src/stores/chat.ts:516-544 | The loop over the messages, with its test of the last block, grows every message with that id as the reducer does and no other. |
| ChatStore.Store.SetHistoryPage | frontend/src/stores/chat.ts:154-190 | A reloaded page replaces the messages, keeping what is still streaming. |
| ChatStore.Store.PrependHistoryPage | frontend/src/stores/chat.ts:192-198 | An older page goes in front, the rest is unchanged. |
| ChatStore.Store.AppendUserPrompt | frontend/src/stores/chat.ts:218-236 | The user's own prompt is echoed as a finished message. |
| LiveReload.LiveEqualsReload | worker-claude/src/sessions/reader.py:216-343 | For turns with unique tool ids, non-empty prompts other than the consolidation prompt, no blank blocks, and task events only after the agent said something: the chat on screen and the chat reloaded from the transcript agree bubble by bubble, up to coalescing neighbouring texts and truncating long results, if and only if no turn was a hidden consolidation, model and effort were not changed, no task reported between turns, and every prompt reads back as it was echoed, without task events in it. |
| LiveReload.ConsolidationIsReloaded | worker-claude/src/sdk/session.py:1089-1114 | A consolidation without task events shows nothing on screen; the reload shows its prompt as a message of the user, whatever came before, so the chats differ. |
| LiveReload.ConsolidationIsVisible | worker-claude/src/sdk/knowledge_tools.py:54-61 | The text that a consolidation sends is not empty, which is all that the comparison asks of it. |
| LiveReload.ChangeIsNotReloaded | shared/worker_shared/sdk/prefs.py:17-34 | A change of model or effort puts a note on screen that the reload does not have. |
| TurnSimulation.TurnsSim | worker-claude/src/sessions/reader.py:216-343 | For turns that were shown and read back, the events the session sends keep the store and the reader in simulation turn by turn, task events included, and no bubble is left open. |
| TurnSimulation.PieceDispatch | worker-claude/src/sdk/session.py:698-743 | Whether deltas are forwarded or held back, what is sent of a text is its deltas without the empty ones, or the whole of it once. |
| TurnSimulation.AttachIsSetResult | worker-claude/src/sessions/reader.py:288-298 | With unique tool ids the reader's search for the last match and the store's update of every match do the same. |
| ChatGist.TurnsRead | worker-claude/src/sessions/reader.py:216-343 | For any turns whose injected task events come without other text, what the reader makes of their transcript has, in order, exactly the user texts that cleaning leaves of the prompts, hidden ones included, and as many task blocks as events were found. |
| ChatGist.TurnsShow | worker-claude/src/sdk/session.py:698-875 | For any turns, the screen has, in order, exactly the echoed prompts and the notes of changes, and as many task blocks as events were sent, also from suppressed turns. |
| LiveReload.PlanModeReadsDifferently | frontend/src/App.tsx:727-736 | In plan mode a prefixed prompt is sent and the typed one echoed: among whatever other turns, the reload differs from the screen. |
| LiveReload.ReportReadsDifferently | worker-claude/src/sessions/reader.py:263-281 | A task that reports between two turns opens a bubble of its own on screen and is put into the earlier bubble by the reader; whatever follows, the chats stay out of step. |
| Dispatcher.SendMessage | worker-claude/src/sdk/session.py:698-875 | The dispatcher's loops: deltas are sent only when asked for, whole texts only when not, and neither those nor tool calls, tool results and results while output is suppressed; task events and system messages are sent in any case, but for the redundant stage. |
| Dispatcher.TasksAreAnnounced | worker-claude/src/sdk/session.py:757-826 | Over any messages, shown or suppressed: the task events sent are, in order, those found in user texts and the stages, each under its own name and otherwise as it is; an update is not announced. |
| Dispatcher.SuppressionKeepsTasksAndNotes | worker-claude/src/sdk/session.py:698-875 | While output is suppressed exactly the task events and system messages of the unsuppressed output are sent, in the same order. |
| Dispatcher.SilentIff | worker-claude/src/sdk/session.py:745-843 | A suppressed turn sends nothing at all exactly if no user text in it holds a task event and no system message comes but the redundant task stage. |
| Chunker.ChunkTextLoop | shared/worker_shared/knowledge/chunk.py:17-45 | The imperative function computes the chunks that the laws are about. |
| Chunker.PackLoop | shared/worker_shared/knowledge/chunk.py:25-45 | The packing loop computes the greedy packing. |
| Chunker.HardSplitLoop | shared/worker_shared/knowledge/chunk.py:48-58 | The window loop computes the windows. |
| Chunker.GreedyIsMinimal | shared/worker_shared/knowledge/chunk.py:25-45 | No cut of the paragraphs into consecutive groups whose joined length fits, an oversized paragraph standing alone, gives fewer chunks than the greedy one. |
| Chunker.CountMonotone | shared/worker_shared/knowledge/chunk.py:25-45 | A longer open chunk never saves a chunk and costs at most one (the exchange argument of the optimum). |
| Chunker.GroupsAreACut | shared/worker_shared/knowledge/chunk.py:25-45 | The greedy groups are themselves such a cut. |
| Chunker.PackRendersGroups | shared/worker_shared/knowledge/chunk.py:25-45 | The chunks are the renderings of those groups. |
| Chunker.ChunkingLosesNothing | shared/worker_shared/knowledge/chunk.py:17-58 | For every text, a budget of at least one and an overlap that is not negative: every chunk is non-empty and fits, the chunks are those of consecutive groups of its paragraphs, and un-joining or un-overlapping the chunks of each group gives its paragraphs back in order. |
| Chunker.JoinedParagraphs | shared/worker_shared/knowledge/chunk.py:25-45 | Splitting a packed chunk at blank lines gives exactly the paragraphs that were packed. |
| Chunker.HardSplitLosesNothingIff | shared/worker_shared/knowledge/chunk.py:48-58 | The windows of a text hold all of it exactly when the overlap is not negative or one window is enough; with an overlap below the budget, each window after the first is longer than the overlap and dropping it there rebuilds the text. |
| Chunker.WindowsFit | shared/worker_shared/knowledge/chunk.py:48-58 | Every window is non-empty and at most the budget long. |
| Chunker.ParagraphsKeepInk | shared/worker_shared/knowledge/chunk.py:24-28 | Splitting into paragraphs loses only white space. |
| Correlation.RunKeepsInv | hub/src/workers/connection.py:231-318 | In every run without cancelled callers each pending entry belongs to the call inside the lock of its type, and every waiting call is pending. |
| Correlation.KeptIffNotAbandoned | hub/src/workers/connection.py:241-253 | A step breaks that if and only if it cancels a waiting caller from outside, who leaves the lock but not the entry. |
| Correlation.OrphanIff | hub/src/workers/connection.py:241-253 | Over all runs: an entry whose call is in no lock is pending exactly when its caller was cancelled while it waited, and since then no message was matched to it and the connection was not closed. |
| Correlation.AbandonedEntryStealsReply | hub/src/workers/connection.py:301-312 | What that costs with an old worker: the next reply of the type is matched to the abandoned entry and the waiting call gets nothing. |
| Correlation.OnePerType | hub/src/workers/connection.py:241-253 | At most one request per response type is pending, and ids are distinct. |
| Correlation.CompletesIff | hub/src/workers/connection.py:289-314 | A message completes a request exactly when the request still waits and the message carries its id, or is untagged, has its type, and no message ever carried an id. |
| Correlation.HandledIff | hub/src/workers/connection.py:299-314 | The message handler gets exactly the untagged messages that answer no pending request. |
| Correlation.CompletesOnce | hub/src/workers/connection.py:289-312 | No request is completed by two messages of a run. |
| Correlation.DoneIffCompleted | hub/src/workers/connection.py:289-312 | A future holds a reply exactly when some message of the run was routed to it. |
| Correlation.CompletedByItsReply | hub/src/workers/connection.py:289-312 | What completes a request carries its id, or is untagged, of the type the request was begun with, and preceded by no message with an id. |
| Correlation.AfterEchoOnlyTagged | hub/src/workers/connection.py:289-314 | After the first echoed id only a reply with the id of the request completes it. |
| Correlation.PushBeforeFirstEcho | hub/src/workers/connection.py:301-312 | Before the first echo an unsolicited push of the same type does complete a request: the exact claim cannot be had earlier. |
| Correlation.LateReplyCompletesNothing | hub/src/workers/connection.py:289-297 | A tagged reply to a request that timed out or was cancelled goes neither to a future nor to the handler and changes no future. |
| Correlation.TimedOutLeavesNothing | hub/src/workers/connection.py:248-253 | A request that times out frees its entry and its lock and leaves every other entry. |
| Correlation.QuietTableIsEmpty | hub/src/workers/connection.py:244-253 | Over all runs: when no call is inside a lock the pending entries are exactly those of cancelled callers, so there is none if no caller was cancelled. |
| Correlation.WorkerConnection.BeginRequest | hub/src/workers/connection.py:241-247 | From the lock to the wait, in place. |
| Correlation.WorkerConnection.ReadOne | hub/src/workers/connection.py:277-314 | One turn of the read loop: the new tables, and where the message went. |
| Correlation.WorkerConnection.EndRequest | hub/src/workers/connection.py:248-253 | A call returns its reply exactly if it has one, and otherwise removes its entry. |
| Correlation.WorkerConnection.Shut | hub/src/workers/connection.py:255-260 | Closing cancels every future that still waits and empties the table. |
| TurnMachine.RunKeepsInv | worker-claude/src/sdk/session.py:461-1114 | The flag, lock, timer and turn invariant holds in every reachable state. |
| TurnMachine.UserTurnRunsAlone | worker-claude/src/sdk/session.py:461-484 | While the stream is read, an accepted prompt's turn is the only turn, its output and result are shown, and whoever gets the lock meanwhile starts nothing. |
| TurnMachine.UpkeepIsSuppressed | worker-claude/src/sdk/session.py:1089-1114 | A consolidation turn is the only turn, is suppressed, and never has one-shot approval, not even by a prompt sent meanwhile. |
| TurnMachine.FlagsAgree | worker-claude/src/sdk/session.py:669-696 | In every reachable state the idle event is set iff not busy, output is suppressed iff consolidating, one-shot approval is armed only while busy; and while the stream is read consolidating implies busy. |
| TurnMachine.AcceptedPrompt | worker-claude/src/sdk/session.py:461-484 | A prompt accepted by an idle session starts the only turn, shown, with one-shot approval exactly if it asked for it: none is left over. |
| TurnMachine.UntilItsResult | worker-claude/src/sdk/session.py:669-686 | Over runs: a turn stays the only one, shown and busy, with the approval it started with, as long as neither its result came nor its own query failed. |
| TurnMachine.ApprovedIff | worker-claude/src/sdk/session.py:461-473 | Over all runs: one-shot approval is on exactly when an accepted prompt asked for it and neither a result nor an error of the stream came since. |
| TurnMachine.WorkIsConsolidated | worker-claude/src/sdk/session.py:1065-1106 | The idle timer is armed by a result exactly if consolidation is wanted and something was edited. When it fires, a consolidation starts, or queues if the lock is taken, exactly if nothing runs and the work is still there; a queued one starts exactly if nothing runs when it gets the lock. |
| TurnMachine.LeftOverIff | worker-claude/src/sdk/session.py:687-696 | Over all runs: a consolidation is left over on a dead stream exactly when the stream failed or ended during it outside its query, its query returned on a dead stream, or the session was stopped during it. |
| TurnMachine.ConsolidationOutlivesItsStream | worker-claude/src/sdk/session.py:687-696 | Once left over it is so in every later state: output stays suppressed and no consolidation starts. |
| TurnMachine.StreamDiesDuringConsolidation | worker-claude/src/sdk/session.py:687-696 | It is reachable: the stream fails after the query returned, and the session is idle but suppressed. |
| TurnMachine.FailingQueryRollsBack | worker-claude/src/sdk/session.py:1103-1114 | If the query is still awaited when the stream fails, and fails too, the consolidation is rolled back. |
| TurnMachine.ConsolidationOnDeadStream | worker-claude/src/sdk/session.py:1080-1087 | The timer does not look at the stream: a consolidation started on a dead one leaves the session suppressed and busy. |
| TurnMachine.HungIff | worker-claude/src/sdk/session.py:461-484 | Over all runs: the session is busy with no result to come exactly when a prompt's query failed, the stream ended or the session was stopped while busy, or on a dead stream a prompt was accepted or a consolidation's query returned, and the stream did not break with an error since. |
| TurnMachine.FailedPromptSticks | worker-claude/src/sdk/session.py:461-484 | It is reachable: one prompt whose query raises, and the next prompt is refused. |
| TurnMachine.StuckIffAPromptFailed | worker-claude/src/sdk/session.py:461-484 | As long as the stream is read, the session is busy with nothing running exactly when some prompt's query raised: the busy flag is then never cleared. |
| TurnMachine.ConsolidationEndsQuiet | worker-claude/src/sdk/session.py:1055-1063 | After a consolidation's result nothing is dirty, no timer runs and no consolidation waits for the lock. |
| TurnMachine.QuietUntilWork | worker-claude/src/sdk/session.py:1065-1087 | From then on no consolidation starts until a turn edits something, whatever else happens. |
| TurnMachine.TimerIff | worker-claude/src/sdk/session.py:1055-1087 | Over all runs: the timer task sleeps exactly if a result left work to consolidate and since then no other result came, it did not fire and the session was not stopped; it is past its sleep exactly while its consolidation has the lock or waits for it. |
| TurnMachine.PhaseIff | worker-claude/src/sdk/session.py:259-280 | Over all runs: a session is live from its start until it is stopped, and its stream is read from the start until it raises, ends, or the session is stopped. |
| ClaudeSession.Session.SendPrompt | worker-claude/src/sdk/session.py:438-484 | Refuses with the right error, waits for the lock, or starts exactly one turn. |
| ClaudeSession.Session.EnterConsolidation | worker-claude/src/sdk/session.py:1089-1106 | Inside the lock: starts a suppressed turn, or nothing if busy or consolidating. |
| ClaudeSession.Session.GrantLock | worker-claude/src/sdk/session.py:461-470 | The lock goes to the waiter that came first. |
| ClaudeSession.Session.QueryFails | worker-claude/src/sdk/session.py:1103-1114 | A failing consolidation is rolled back; a failing prompt is not. |
| ClaudeSession.Session.Result | worker-claude/src/sdk/session.py:679-686 | The reaction to a result, one-shot approval and idle event included. |
| ClaudeSession.Session.OnTurnEnd | worker-claude/src/sdk/session.py:1055-1078 | Ends a consolidation, or re-arms the idle timer if there is something to consolidate. |
| ClaudeSession.Session.IdleConsolidate | worker-claude/src/sdk/session.py:1080-1091 | A timer that fires while busy or without new work does nothing. |
| ClaudeSession.Session.StreamFails | worker-claude/src/sdk/session.py:687-696 | A dead stream clears busy and one-shot approval and leaves the consolidation flags. |
| ClaudeSession.Session.Stop | worker-claude/src/sdk/session.py:396-436 | Cancels the timer wherever it is, the lock and its queue included. |
| ClaudeSession.Session.Dispatch | worker-claude/src/sdk/session.py:698-737 | A message with an editing tool marks the session as having something to consolidate, suppressed or not, and what is sent is what the dispatcher sends under the session's suppression. |
| ClaudeSession.UpkeepSendsTasksAndNotes | worker-claude/src/sdk/session.py:698-875 | In every reachable state whose stream is read: during a consolidation only task events and system messages are sent, in order; during a user turn everything is. |
| Permissions.ParkingDeniesAndKeeps | worker-claude/src/sdk/permissions.py:218-228 | In every reachable state, parking denies every undecided permission request with the reason, changes no decided one, and keeps every open question and its order. |
| Permissions.TeardownReleasesEveryone | worker-claude/src/sdk/permissions.py:230-240 | After teardown no request is undecided and no question unanswered; each open question got one empty answer per question asked. |
| Permissions.ResendsTheUnanswered | worker-claude/src/sdk/permissions.py:195-216 | A reconnecting client is sent exactly the questions that have no answer yet. |
| Permissions.QuestionsAreDelivered | worker-claude/src/sdk/permissions.py:195-216 | Whenever a client is attached, every open question was delivered to one, also if it was asked while the session was muted. |
| Permissions.UndeliveredIffRaisedMuted | worker-claude/src/sdk/permissions.py:75-107 | A permission request that still waits was delivered to no client exactly if it was raised while the session was muted: it is never sent again. |
| Permissions.RequestRaisedMuted | worker-claude/src/sdk/permissions.py:75-107 | It is reachable: a request raised while muted waits undelivered after the client is back. |
| Permissions.ListedIffRaisedHere | frontend/src/stores/chat.ts:247-295 | Over all runs: of the requests that still wait, a client lists exactly those raised since a client last attached: attaching empties the list, and none is sent again. |
| Permissions.RequestRaisedBehind | shared/worker_shared/sdk/registry.py:59-106 | It is reachable: a request raised while the client shows another session is delivered and listed, and off the list when the client comes back, though it still waits. |
| Permissions.AnswersFitQuestions | worker-claude/src/sdk/permissions.py:131-193 | From the time it is asked a question stays open with the same prompt until the first step that settles it; from then on it has that step's answers, one per question, whatever comes later. |
| Permissions.GivenAnswersArrive | worker-claude/src/sdk/permissions.py:175-193 | What the user gives for an open question is what the agent is told: the i-th answer where there is one, a blank where there is none. |
| Permissions.BlankIff | worker-claude/src/sdk/permissions.py:131-240 | The agent is told nothing but blanks if and only if the call went on or was torn down before an answer, or the user gave only blanks. |
| Permissions.FirstDecisionCounts | worker-claude/src/sdk/permissions.py:109-129 | A request that is not approved at once waits until the first step that decides it; that decision is final, with the given reason or the default one. |
| Permissions.PendingIff | worker-claude/src/sdk/permissions.py:75-107 | Over all runs: a request has an entry exactly if it was raised, and since then neither its tool call went on nor everything was denied. |
| Permissions.ApprovalFollows | worker-claude/src/sdk/permissions.py:61-73 | Over all runs: what the user last chose for the session stands, and the approval of one prompt lasts exactly until its turn is over. |
| Permissions.MayRunIffGranted | worker-claude/src/sdk/permissions.py:75-129 | In every run a tool may run if and only if auto-approval was on when it asked, or the user allowed it while it was waiting. |
| Permissions.RunKeepsInv | worker-claude/src/sdk/permissions.py:75-240 | Whoever still waits is in the tables: undecided requests are pending and unanswered questions are listed with their prompt. |
| Permissions.PermissionBroker.RequestPermission | worker-claude/src/sdk/permissions.py:75-97 | Allowed at once exactly under auto-approval, one-shot included; otherwise pending. |
| Permissions.PermissionBroker.ResolveRequest | worker-claude/src/sdk/permissions.py:109-129 | Reports a match exactly for an undecided pending request, and decides that one only. |
| Permissions.PermissionBroker.ResolveUserInput | worker-claude/src/sdk/permissions.py:175-193 | The padding loop yields the normalised answers. |
| Permissions.PermissionBroker.Deny | worker-claude/src/sdk/permissions.py:218-228 | The loop over the pending futures, in place. |
| Permissions.PermissionBroker.TearDown | worker-claude/src/sdk/permissions.py:230-240 | The loops over both tables, in place. |
| Permissions.PermissionBroker.Resend | worker-claude/src/sdk/permissions.py:195-216 | The loop sends the open questions in the order they were asked. |
| Inbound.SocketIffPaired | hub/src/workers/inbound.py:173-184 | A call holds exactly the socket that some accepted dial with its own session id brought. |
| Inbound.PairedOnce | hub/src/workers/inbound.py:173-184 | No call is given a second socket. |
| Inbound.OneTaker | hub/src/workers/inbound.py:126-184 | A data socket that dials once is handed to at most one caller. |
| Inbound.AcceptsIff | hub/src/workers/inbound.py:173-184 | In reachable states a dial is accepted exactly when nothing settled the future of its call, and the call is under way or was cancelled while sending. |
| Inbound.CallBegins | hub/src/workers/inbound.py:139-152 | A call comes about only by opening a session under a new id with a control there; it then has an entry and an open future. |
| Inbound.CallByStep | hub/src/workers/inbound.py:146-184 | What moves a call from sending to waiting to over, and what settles its future, once and for all. |
| Inbound.LateDialIsRefused | hub/src/workers/inbound.py:161-184 | After a call got its socket, gave up or lost its entry, every dial for it is refused and changes no call. |
| Inbound.KeptIffNotAbandoned | hub/src/workers/inbound.py:150-171 | Every step keeps the table free of entries of calls that are over, except one that cancels a caller with an entry: that always leaves one. |
| Inbound.OrphanIff | hub/src/workers/inbound.py:150-171 | Over all runs: an entry whose call is over is there exactly when its caller was cancelled while it had one and no dial for it came since. |
| Inbound.AbandonedCallTakesASocket | hub/src/workers/inbound.py:139-184 | It is reachable, and then a dial is accepted for nobody: the call that is handed the socket is over. |
| Inbound.NoOrphans | hub/src/workers/inbound.py:146-171 | As long as no caller is cancelled, a call that is over, by timeout, failed send or success, leaves no entry. |
| Inbound.OverIsSettled | hub/src/workers/inbound.py:161-184 | A call that is over is settled, so that late dials are refused, unless its caller was cancelled with an entry. |
| Inbound.TimeoutLeavesNoEntry | hub/src/workers/inbound.py:162-171 | A waiting call can always time out, and then only its own entry is gone. |
| Inbound.QuietTableIsEmpty | hub/src/workers/inbound.py:126-171 | When no call is under way the entries are exactly those of cancelled callers, so there is none if no caller was cancelled. |
| Inbound.ControlKeptIff | hub/src/workers/inbound.py:74-116 | Which steps take a control away, exactly: a registration, a drop naming it or nothing, a failing send on it. |
| Inbound.NewerControlStays | hub/src/workers/inbound.py:102-116 | Over any run a newer control survives drops and failing sends that are about an older one. |
| Inbound.InboundRegistry.Open | hub/src/workers/inbound.py:139-152 | Raises without a control, otherwise has a waiter under the new id before it sends. |
| Inbound.InboundRegistry.HandleSendResult | hub/src/workers/inbound.py:150-160 | A failing send removes the waiter and the control, the latter only if it is still the same socket. |
| Inbound.InboundRegistry.Finish | hub/src/workers/inbound.py:162-171 | Returns the socket exactly if one was paired, otherwise removes the entry. |
| Inbound.InboundRegistry.RegisterData | hub/src/workers/inbound.py:173-184 | Reports whether the dial was paired; a refused one leaves every call as it was. |
| Inbound.InboundRegistry.Drop | hub/src/workers/inbound.py:102-116 | Removes the control only if the given socket is the registered one, or none is given. |
| Inbound.InboundRegistry.CancelCaller | hub/src/workers/inbound.py:166-171 | A cancelled caller runs neither handler: its call is over, an awaited future is cancelled, the entry stays. |
| SvgLift.Idempotent | frontend/src/components/Markdown.tsx:50-70 | Lifting twice is lifting once, for every text. |
| SvgLift.LiftIsConservative | frontend/src/components/Markdown.tsx:50-70 | The output is the input with wrappers around some complete svg elements: leaving the wrappers out gives the input back. |
| SvgLift.UnchangedIff | frontend/src/components/Markdown.tsx:50-57 | The text stays as it is exactly when its prose has no complete svg element or no lower-case `<svg` occurs anywhere. |
| SvgLift.MentionsIff | frontend/src/components/Markdown.tsx:51 | The quick test at the start finds exactly a lower-case `<svg` in the text. |
| SvgLift.NothingLeft | frontend/src/components/Markdown.tsx:50-70 | After lifting, no prose holds a complete svg element. |
| SvgLift.ClosedFencesStay | frontend/src/components/Markdown.tsx:58-61 | Every closed fence stands in the output as it is, between the liftings of what surrounds it. |
| SvgLift.OpenFenceStays | frontend/src/components/Markdown.tsx:62-68 | From a fence that never closes onward the text is untouched. |
| SvgLift.LiftAtFence | frontend/src/components/Markdown.tsx:58-70 | Lifting goes piece by piece: prose up to a closed fence, the fence, the rest. |
| SvgLift.WrappedSettles | frontend/src/components/Markdown.tsx:52-56 | Lifting passes over wrapped prose unchanged and continues behind it. |
| SvgLift.WrapsIff | frontend/src/components/Markdown.tsx:52-56 | Something is wrapped exactly when an opening tag is followed by a closing one. |
| SvgLift.ElementIsFenced | frontend/src/components/Markdown.tsx:52-56 | The first complete element, from the first opening tag to the first closing tag behind it, becomes the body of an svg fence between blank lines; what is before it stays and the rest is treated alike. |
| SvgLift.TagsInAnyCase | frontend/src/components/Markdown.tsx:52-56 | Tags count in small and capital letters. |
| SvgLift.PiecesJoin | frontend/src/components/Markdown.tsx:58-70 | Splitting at closed fences and joining again is the identity. |
| Uploads.NothingIsLost | frontend/src/stores/uploads.ts:110-219 | After any sequence of actions every item is, as often as it was enqueued, either held or uploaded, failed, skipped or cancelled exactly once. |
| Uploads.OneAtATime | frontend/src/stores/uploads.ts:133-217 | `current` and `conflict` are never both set. |
| Uploads.StartsInOrder | frontend/src/stores/uploads.ts:119-143 | Items start in the order they were enqueued, and as long as nothing is cancelled none is passed over. |
| Uploads.BatchAccountsForItsItems | frontend/src/stores/uploads.ts:110-219 | The running batch counts exactly what happened since the store last held nothing, and its items are uploaded, failed, skipped, cancelled or held; renamed never exceeds uploaded and every failure has a name. |
| Uploads.DrainedBatchReportsItself | frontend/src/stores/uploads.ts:144-215 | A batch that a mark or a skip drains reports exactly its own counts, and they add up to what came in and was not cancelled. |
| Uploads.MarkIsExactIff | frontend/src/stores/uploads.ts:144-192 | In any state whose books are exact, idle ones included, a mark keeps them exact if and only if an item is in flight. |
| Uploads.StrayMarkReportsABatch | frontend/src/stores/uploads.ts:144-162 | A mark out of the blue reports a finished batch of one upload though nothing was enqueued. |
| Uploads.EndedBatchIsReportedIff | frontend/src/stores/uploads.ts:144-217 | A batch that ends is reported with its own counts exactly if it was not a cancellation that ended it; the outcomes of a cancelled batch are never shown. |
| Uploads.SummaryFollows | frontend/src/stores/uploads.ts:106-220 | Over all runs: the summary on show is that of the last batch that ended with an outcome, unless it was dismissed or a new batch began since. |
| Uploads.ProgressFollows | frontend/src/stores/uploads.ts:123-194 | Over all runs: progress is there exactly while an item is in flight, starts at zero for every item, and is what was last told of it. |
| Uploads.TickCounts | frontend/src/stores/uploads.ts:134-156 | The refresh tick counts the uploads. |
| Uploads.UploadsStore.Enqueue | frontend/src/stores/uploads.ts:119-131 | Appends, and starts a new batch exactly if nothing was held. |
| Uploads.UploadsStore.TakeNext | frontend/src/stores/uploads.ts:133-140 | Takes the head exactly if nothing is in flight or in conflict. |
| Uploads.UploadsStore.MarkUploaded | frontend/src/stores/uploads.ts:144-162 | Counts the upload and drains the batch when nothing is left. |
| Uploads.UploadsStore.MarkFailed | frontend/src/stores/uploads.ts:174-192 | Counts and names the failure and drains the batch when nothing is left. |
| Uploads.UploadsStore.MarkConflict | frontend/src/stores/uploads.ts:164-172 | The item in flight waits for the user instead. |
| Uploads.UploadsStore.ResumeConflict | frontend/src/stores/uploads.ts:194-199 | The conflicting item is in flight again. |
| Uploads.UploadsStore.SkipConflict | frontend/src/stores/uploads.ts:201-215 | The conflicting item is skipped and the batch drained when nothing is queued. |
| Uploads.UploadsStore.CancelQueued | frontend/src/stores/uploads.ts:217 | Only the item in flight stays. |
| ProjectIndex.ResolveIff | hub/src/workers/project_index.py:38-88 | With worker ids in [0, 1 000 000), after any updates a hub id resolves to (w, p) exactly when p is in the latest list of w and the hub id is the one made for (w, p). |
| ProjectIndex.UpdateExactly | hub/src/workers/project_index.py:48-81 | For all ids: after an update the worker's live projects are those of its list, and a live project of another worker survives if and only if no listed project takes over its hub id. |
| ProjectIndex.LiveIsListed | hub/src/workers/project_index.py:48-88 | For all ids: what resolves back to itself was in the latest list of its worker. |
| ProjectIndex.CollideIff | hub/src/workers/project_index.py:44-46 | Two projects share a hub id exactly when their ids differ by as many millions as their workers' offsets. |
| ProjectIndex.MillionthProjectIsLost | hub/src/workers/project_index.py:25-46 | With id 1 000 000 the first project of the next worker takes over the hub id, so the range is needed. |
| ProjectIndex.ResponseInvertsRequest | hub/src/ws/handler.py:239-251 | What a request's hub id resolves to is sent back under the same hub id, and the index does not change on the way. |
| ProjectIndex.OffsetsStay | hub/src/workers/project_index.py:38-42 | An offset, once given, never changes. |
| ProjectIndex.RunIsSound | hub/src/workers/project_index.py:38-81 | Offsets are distinct, and every mapping stands under the hub id of its project. |
| ProjectIndex.HubProjects.UpdateFromWorker | hub/src/workers/project_index.py:48-81 | The clearing and filling loops in place; the returned projects carry their hub ids in order. |
| ProjectIndex.HubProjects.ToHubId | hub/src/workers/project_index.py:38-46 | Gives the worker an offset if it has none and returns the id in its range. |
| ProjectIndex.HubProjects.Lookup | hub/src/workers/project_index.py:83-88 | Finds the worker and its own id, or nothing. |

## Left out

* Interleavings inside one handler call of the session protocol: a step is the whole call.
* Codex sessions, which rename themselves after they were locked.
* `SessionProtocol.Reattach` models the refusal on the reclaiming path although `RefusedResumeChangesNothing` shows that no reachable state takes it.
* Freshness is assumed where the source draws a uuid: new session objects, session ids, request ids, message ids and timers are new.
* Lock time stamps, stored model and effort preferences, and the database behind them.
* The regular expressions that clean user texts: a text entry carries its raw form, what is left after cleaning, and the task events found in it.
* Starting a session object again after it was stopped: its managers let go of a stopped session.
* Images in prompts are echoed by the store but not part of the comparison with the reloaded chat; nor are empty prompts (which need an image), turns that end in an error, and changes of model or effort while a turn runs.
* `LiveReload.LiveEqualsReload` leaves out task events that come before the agent said anything, and the task stages that the client library reports as system messages: whether the transcript records those is up to that library.
* While a consolidation runs, permission requests, questions and knowledge updates are sent as well: they do not pass the dispatcher.
* Live messages are assumed to arrive in the order they were sent, and the client library to yield each block of a turn right after its deltas.
* Store fields that only drive widgets (effort, local storage).
* Old workers that never echo an id: a late untagged reply can complete a newer request of the same type, as `Correlation.CompletesIff` allows.
* Reconnecting in the hub and the `on_disconnect` callback: liveness depends on timing.
* The client library behind a Claude session: a query that raises is taken never to have reached the agent, and a result belongs to a turn that was asked for. The awaits between receiving a result and clearing the flags are not steps of their own.
* Task tails, push notifications, bootstrap authentication, knowledge storage and embeddings.
* A permission request whose own coroutine is cancelled while it waits.
* A tool-use id is asked about once; the broker's fallback ids are taken as unique.
* `Permissions.RunKeepsInv` does not say that a tool call eventually goes on: that is up to the event loop.
* Upload transport; the pump is assumed to report on the item in flight (see `Uploads.MarkIsExactIff`).
* `ProjectIndex`: the sorted project list (`get_all`) and the fields that only travel along.
* Regular expressions of the svg lifter are written out as searches for the first opening tag and the first closing tag behind it, ASCII letters in either case.
* Sockets, HTTP, authentication, path sandboxing, terminals, rendering: input and output only.
* Command matching, list sorting, zoom and backoff: they would only add easy members.
