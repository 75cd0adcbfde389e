# Typr Companion: verified model

A Dafny model of the stateful parts of the Typr companion server, with proofs
of what they guarantee over whole runs. `dafny verify dfyconfig.toml` checks
the project.

- **Live preview** (`LiveSession*`, `Outbound`, `Waiters`, `LiveEngine`). One
  WebSocket connection runs frame handlers, one initialisation, one drain loop
  and one close path on shared fields, interleaved at every `await`.
  `LiveSession` has one function per run from `await` to `await`; `Step` takes
  any event in any state, so a run is any sequence of events.
  `LiveSessionControl` and `LiveSessionData` hold the inductive invariant,
  `LiveSessionSteps` its proof, `LiveSessionTheorems` and `LiveSessionPages`
  what follows, and `LiveSessionObject` the same code as an object updated in
  place, proved to follow `Step`. `Outbound` is the queue of frames and
  `LiveSessionWire` what session and queue together put on the wire, `Waiters`
  the requests pending at the TeXpresso process, `LiveEngine` the buffers and
  raster caches of the two backends, which `LiveEngineSimulation` and
  `LiveEngineRun` tie to the engine of `LiveSession` over whole runs.
- **Text positions and edits** (`SourceText`). Texts are sequences of UTF-16
  code units. The reference for every operation is the array of lines.
- **Workspace store** (`Workspace*`). A directory tree with inodes, the scan
  with its three quotas, the promise-tail lock, compare-and-swap by ETag,
  replacement by temporary file and rename, and reads beside it all. Any file
  operation may fail at any step. `WorkspaceStore` is the state machine,
  `WorkspaceInvariant`, `WorkspaceSteps`, `WorkspaceCommits` and
  `WorkspaceRuns` the invariant and its proof, `WorkspaceTheorems` and
  `WorkspaceFailures` the results, `WorkspaceStoreObject` the object.
- **Base64, mount audit, activity log, management login, project paths**
  (`Base64`, `MountInfo`, `Activity`, `ManagementAuth`, `ManagementCookies`,
  `ProjectPaths`, with `Splitting` for split and join).

The TeX engine is an oracle: each change is answered with success, a LaTeX
error or a failure, each page request with any page or a failure. Hashes and
random tokens are parameters; the ETag is an arbitrary function of the content.
Timers are events that may come at any time.

Where the code does something other than one might expect, the model follows
the code and a lemma says exactly when:

- a document of exactly 64 pages is refused, although `docs/companion-protocol.md`
  and the limit constant allow 64 (`LiveSessionPages.DocumentCommittedIff`,
  `LiveSessionPages.SixtyFourPagesFail`);
- `offsetToPosition` returns line 1, column -1 for offset 0 of a source that
  starts with a newline, so `replaceText` cannot replace a match there
  (`SourceText.OffsetRoundTrip`, `SourceText.ReplaceTextReplacesFirstOccurrence`);
- a failed image send followed by a successful send leaves a page's metadata
  without its image (`Outbound.FramePairing`);
- when the workspace root and the TeX cache root are the same path, the mount
  audit always refuses (`MountInfo.ValidateFallbackMountInfo`);
- the 15 minute cap on a lockout is never reached by logins that do not
  overlap: the failure window runs out first (`ManagementAuth.GuessingIsSlow`).

## Model

| member | source | states |
|---|---|---|
| `LiveSessionTheorems.Convergence` | typr-server/texpressoLiveSession.ts:182-340 | For every run: when an open, initialized session has neither loop active, the queue is empty, the newest accepted revision is applied, every committed document has been handed to the outbound queue whole, and the last of them is of that revision, unless its compile error has been handed over instead (no lost wakeup, no edit left unshown) |
| `LiveSessionWire.ClientIsUpToDate` | typr-server/texpressoLiveSession.ts:182-417 | The same on the wire: when the frame queue of that session is drained as well and no send has failed, the page frames sent are exactly those of the committed documents, each page with its image, and the last document is of the newest accepted revision, or the compile error of that revision has been sent |
| `LiveSessionTheorems.AppliedIsPrefixOfAccepted` | typr-server/texpressoLiveSession.ts:187-258 | For every run: accepted revisions strictly increase, the announced applied revisions are the first accepted ones in order, at most 64 wait, and the queue of an open session is exactly the rest |
| `LiveSessionTheorems.BuffersAreReplay` | typr-server/texpressoSession.ts:200-225 | For every run: the buffers are the initial text with a prefix of the accepted changes replayed in order, exactly the applied ones between changes of an open session |
| `LiveSessionTheorems.FailedRangeStops` | typr-server/texpressoLiveSession.ts:231-243 | For every run: once a change cannot be applied, neither it nor any later change is ever applied or stored |
| `LiveSessionTheorems.PublishedDocuments` | typr-server/texpressoLiveSession.ts:288-340 | For every run: page output is whole documents in order, the last possibly cut short; each has 1 to 63 pages numbered from 0 within the byte limits, all of one edit count, its revision the newest accepted at the commit; revisions strictly increase and last good <= applied <= latest received |
| `LiveSessionTheorems.CacheIsFresh` | typr-server/texpressoSession.ts:219-270 | For every run: while a page is awaited the engine holds exactly the applied edits and every cached raster shows them, so a page from the cache is the page a new rasterisation would give |
| `LiveSessionTheorems.OneActivityAtATime` | typr-server/texpressoLiveSession.ts:137-285 | For every run: initialisation and the drain loop are never active together, and the two flags say exactly which one is |
| `LiveSessionTheorems.NativeLifecycle` | typr-server/texpressoLiveSession.ts:71-185 | For every run: at most one native session is started, it is closed at most once and only when closing, the owner is told at most once, and when the close path and initialisation have ended a started session has been closed |
| `LiveSessionTheorems.StepDecreasesMeasure` | typr-server/texpressoLiveSession.ts:71-385 | For every run: an event that is no inbound frame either does nothing or lowers a natural-number measure, so the loops and the close path end |
| `LiveSessionTheorems.StuckMeansDone` | typr-server/texpressoLiveSession.ts:71-385 | For every run: when no pending await can move the session, every activity has ended and the close path has not begun or is finished |
| `LiveSessionTheorems.ShutdownCompletes` | typr-server/texpressoLiveSession.ts:71-96 | For every run: a closing session that has nothing more to wait for has closed every native session it started and told its owner exactly once |
| `LiveSessionTheorems.OpenSessionComesToRest` | typr-server/texpressoLiveSession.ts:182-285 | For every run: an open initialized session with nothing more to wait for is at rest, which is where Convergence speaks |
| `LiveSessionPages.DocumentCommittedIff` | typr-server/texpressoLiveSession.ts:293-315 | Against an engine that answers truthfully, a render that is not overtaken commits a document of pages of any sizes exactly when it has 1 to 63 of them, each within the page limit and all within the document limit; any other, one of exactly 64 pages included, is rejected with nothing changed |
| `LiveSessionPages.FirstDocument` | typr-server/texpressoLiveSession.ts:146-315 | The same from a fresh connection: the run that opens a session and renders its first document ends with that one commit exactly when the document is publishable, else with none and the session failing |
| `LiveSessionPages.SixtyFourPagesFail` | typr-server/texpressoLiveSession.ts:307-311 | Such a run for 64 pages of one byte, far within both byte limits: nothing is ever committed |
| `LiveSessionPages.AcceptedExactly` | typr-server/texpressoLiveSession.ts:187-217 | A step appends to the accepted changes exactly the change frame that met the conditions on arrival; no other event adds, drops or reorders one, and the initial text is set by the start alone |
| `LiveSessionControl.ControlStep` | typr-server/texpressoLiveSession.ts:71-385 | Every step keeps the control invariant: flags agree with where activities wait, at most one loop runs, a closing session has an empty queue, starts and closes are counted right |
| `LiveSessionSteps.GoodStep` | typr-server/texpressoLiveSession.ts:71-385 | Every step keeps the data invariant tying queue, counters, buffers, raster cache, documents and wire to the accepted changes |
| `LiveSessionTheorems.InvariantOfRun` | typr-server/texpressoLiveSession.ts:71-385 | Both invariants hold after every sequence of events from a fresh connection |
| `LiveSessionObject.TexpressoLiveSession.Close` | typr-server/texpressoLiveSession.ts:71-86 | close up to its first await, in place: the second call changes nothing; the first empties the queue, drops the exit listener, and notifies or goes on to the native session |
| `LiveSessionObject.TexpressoLiveSession.CloseNativeSession` | typr-server/texpressoLiveSession.ts:87-90 | The native session, if there is one, is closed and the close path waits for it |
| `LiveSessionObject.TexpressoLiveSession.NativeWasClosed` | typr-server/texpressoLiveSession.ts:91-95 | The end of close: the socket goes, the owner is told once |
| `LiveSessionObject.TexpressoLiveSession.OnFrame` | typr-server/texpressoLiveSession.ts:103-135 | handleFrame in place: ignored when closing, refused, or dispatched to shutdown, initialize or the queue |
| `LiveSessionObject.TexpressoLiveSession.EnqueueChange` | typr-server/texpressoLiveSession.ts:187-217 | enqueueChange in place: the four refusals in their order, or the change at the end of the queue and the drain loop woken |
| `LiveSessionObject.TexpressoLiveSession.StartDrain` | typr-server/texpressoLiveSession.ts:219-223 | The entry of drainChanges in place |
| `LiveSessionObject.TexpressoLiveSession.TakeChange` | typr-server/texpressoLiveSession.ts:223-230 | The head of the drain loop in place: one change leaves the queue and is announced |
| `LiveSessionObject.TexpressoLiveSession.EndDrain` | typr-server/texpressoLiveSession.ts:281-284 | The finally clause of drainChanges in place |
| `LiveSessionObject.TexpressoLiveSession.EndInitialize` | typr-server/texpressoLiveSession.ts:181-184 | The finally clause of initialize in place |
| `LiveSessionObject.TexpressoLiveSession.SessionFailure` | typr-server/texpressoLiveSession.ts:360-375 | sessionFailure in place: nothing when closing, else the error goes out and close follows |
| `LiveSessionObject.TexpressoLiveSession.SendProtocolError` | typr-server/texpressoLiveSession.ts:377-385 | protocolFailure in place up to its send |
| `LiveSessionObject.TexpressoLiveSession.ApplyRangeChange` | typr-server/texpressoSession.ts:200-218 | The part of applyRangeChange before its await: the command is sent and the buffer replaced, or nothing is |
| `LiveSessionObject.TexpressoLiveSession.ChangeSettled` | typr-server/texpressoLiveSession.ts:233-276 | What follows an edit, in place: fatal refusal, or applied and classified as not rendered, coalesced or pending |
| `LiveSessionObject.TexpressoLiveSession.RenderRevision` | typr-server/texpressoLiveSession.ts:288-293 | The entry of renderRevision in place |
| `LiveSessionObject.TexpressoLiveSession.AskForPage` | typr-server/texpressoSession.ts:245-256 | A page request: served from the cache or asked of the engine |
| `LiveSessionObject.TexpressoLiveSession.PageSettled` | typr-server/texpressoLiveSession.ts:293-312 | One turn of the page loop in place: limits checked, abandoned when overtaken, or ended by the page-count probe |
| `LiveSessionObject.TexpressoLiveSession.PageCountSettled` | typr-server/texpressoLiveSession.ts:307-311 | The end probe in place |
| `LiveSessionObject.TexpressoLiveSession.PublishDocument` | typr-server/texpressoLiveSession.ts:313-324 | The commit in place: dropped when overtaken, else last good is set and the document announced |
| `LiveSessionObject.TexpressoLiveSession.SendNext` | typr-server/texpressoLiveSession.ts:325-339 | The sends after the document message, in place: pages in order, then the completion |
| `LiveSessionObject.TexpressoLiveSession.NativeStarted` | typr-server/texpressoLiveSession.ts:146-163 | The middle of initialize in place, with the late close of a session that started after close began |
| `LiveSessionObject.TexpressoLiveSession.ReadyWasSent` | typr-server/texpressoLiveSession.ts:173-180 | What follows session-ready in place |
| `LiveSessionObject.TexpressoLiveSession.SendWasSettled` | typr-server/texpressoLiveSession.ts:219-340 | Every await of a send in the two loops, resolved or rejected, in place |
| `LiveSessionObject.TexpressoLiveSession.HandlerWasSettled` | typr-server/texpressoLiveSession.ts:355-385 | The rest of protocolFailure and of the exit listener after their send, in place |
| `LiveSessionObject.TexpressoLiveSession.NativeExited` | typr-server/texpressoSession.ts:507-528 | The native process dies: the listener is told if it is still registered and the session is not closing |
| `LiveSessionObject.TexpressoLiveSession.Deliver` | typr-server/texpressoLiveSession.ts:57-385 | Any event delivered to the object does to its fields exactly what the transition system does |
| `LiveSessionObject.Serve` | typr-server/texpressoLiveSession.ts:57-385 | An object served any sequence of events is where the run of that sequence is, so every theorem about runs holds of the object |
| `Outbound.FramePairing` | typr-server/texpressoLiveSession.ts:391-417 | For every run of the outbound queue: each image on the wire directly follows its own metadata, and each metadata frame is directly followed by its image or ends the wire exactly when no send succeeded after an image send had failed |
| `Outbound.OrphanedMetadataExample` | typr-server/texpressoLiveSession.ts:406-417 | The condition above is needed: an image send that fails before another message goes out leaves metadata without its image |
| `Outbound.FramesInOrder` | typr-server/texpressoLiveSession.ts:387-417 | For every run without a failed send, the wire carries the frames of the enqueued messages in order, without gap or repetition |
| `Outbound.OutboundQueue.EnqueueFrames` | typr-server/texpressoLiveSession.ts:406-417 | enqueueFrames in place: the message joins the promise chain |
| `Outbound.OutboundQueue.NextSend` | typr-server/texpressoLiveSession.ts:407-413 | The task between two awaits in place: returns when the socket is not open, takes the next message when it is done |
| `Outbound.OutboundQueue.SendSettled` | typr-server/texpressoLiveSession.ts:410-412 | A send resolves or rejects, in place |
| `Outbound.Serve` | typr-server/texpressoLiveSession.ts:387-417 | A queue served any sequence of events is where the run of that sequence is |
| `SourceText.PositionToOffset` | typr-server/texpressoSession.ts:586-602 | The loop over line starts returns exactly the offset that recursion on the lines gives, and the same error |
| `SourceText.PositionSplitsLines` | typr-server/texpressoSession.ts:586-602 | A position resolves exactly when it is a column of an existing line; the text before the offset is then the lines above and the start of its line, the text after it the rest |
| `SourceText.PositionIffEndOfPrefix` | typr-server/texpressoSession.ts:586-602 | A position resolves to an offset exactly when it is the end position of the text before that offset |
| `SourceText.OffsetToPositionIsEndOfPrefix` | typr-server/texpressoSession.ts:577-584 | offsetToPosition gives the end position of the text before the offset, and (1, -1) at offset 0 of a source that starts with a newline |
| `SourceText.OffsetRoundTrip` | typr-server/texpressoSession.ts:577-602 | positionToOffset undoes offsetToPosition at an offset exactly when it is not offset 0 of a source starting with a newline |
| `SourceText.PositionRoundTrip` | typr-server/texpressoSession.ts:577-602 | offsetToPosition undoes positionToOffset on a valid position with the same single exception |
| `SourceText.LeadingNewlineExample` | typr-server/texpressoSession.ts:581-583 | The exception exists: the column is -1 and the position is rejected on the way back |
| `SourceText.PositionOrder` | typr-server/texpressoSession.ts:586-602 | Lexicographic order of valid positions is numeric order of their offsets |
| `SourceText.SliceEditAcceptsValidRanges` | typr-server/texpressoSession.ts:200-206 | An edit is rejected exactly when a position lies outside its line or the end precedes the start |
| `SourceText.SliceEditIsLineEdit` | typr-server/texpressoSession.ts:200-218 | The slice edit is the edit on the array of lines, for every source, range and replacement, multi-line ones included |
| `SourceText.ReplaceTextReplacesFirstOccurrence` | typr-server/texpressoSession.ts:184-197 | replaceText replaces the first occurrence and nothing else, and fails exactly when there is none or it is offset 0 of a source starting with a newline |
| `SourceText.JoinOfLines` | typr-server/texpressoSession.ts:586-602 | Splitting at newlines and joining again loses nothing, and no line holds a newline |
| `SourceText.LinesOfConcat` | typr-server/texpressoSession.ts:200-218 | The lines of two texts put together: only the two that meet are merged |
| `Waiters.WaiterAccounting` | typr-server/texpressoSession.ts:352-528 | For every run: a flush, page or count request is in exactly one set, once, while its timer runs, and has settled otherwise; every flush waiter waits for the next flush; after a failure all sets are empty |
| `Waiters.SettledOnce` | typr-server/texpressoSession.ts:352-528 | For every run and every later point of it: what has settled stays settled the same way, and after a failure the three sets stay empty for ever |
| `Waiters.OnFlushSound` | typr-server/texpressoSession.ts:401-412 | A flush settles every pending flush request with the new count and keeps the accounting |
| `Waiters.FailSound` | typr-server/texpressoSession.ts:507-528 | fail rejects every waiter, disarms every timer, and changes nothing that had settled |
| `Waiters.PendingRequests.HandleFlushLine` | typr-server/texpressoSession.ts:401-412 | The loop over the flush waiters in place |
| `Waiters.PendingRequests.HandlePageLine` | typr-server/texpressoSession.ts:422-458 | A page image or its error settles the first waiter for that page, in place |
| `Waiters.PendingRequests.HandleCountLine` | typr-server/texpressoSession.ts:413-421 | A page count settles the oldest count waiter, in place |
| `Waiters.PendingRequests.TimerFired` | typr-server/texpressoSession.ts:360-365 | A timeout removes its waiter, rejects it and begins to close, in place |
| `Waiters.PendingRequests.SessionFailed` | typr-server/texpressoSession.ts:507-524 | The three rejecting loops of fail in place |
| `Waiters.Serve` | typr-server/texpressoSession.ts:352-528 | The requests served any sequence of events are where the run of that sequence is |
| `LiveEngine.CacheKeyIsInjective` | typr-server/texpressoSession.ts:554-558 | Requests that a backend shows differently never share a cache entry |
| `LiveEngine.FreshOfRun` | typr-server/texpressoSession.ts:200-270 | Over every run of either backend: whenever the last change was answered with success, every cached page is what the engine would paint now |
| `LiveEngine.CachedPageIsCurrent` | typr-server/liveLatexSession.ts:56-108 | Over every run of either backend: whenever the last change was answered with success, renderPage answers what the engine would paint now, for every page, theme and resolution the backend admits, cached or not |
| `LiveEngine.StalePageHasItsReason` | typr-server/texpressoSession.ts:219-224 | Over every run of either backend: a cached page that is not what the engine would paint now is there only because the last change got no answer or, with TeXpresso, a LaTeX error |
| `LiveEngine.LatexErrorKeepsStalePage` | typr-server/texpressoSession.ts:219-224 | That reason does occur: a page cached before a change that ends in a LaTeX error is still served although the engine would paint another |
| `LiveEngine.BackendsHoldSameText` | typr-server/liveLatexSession.ts:56-69 | After any commands TeXpresso holds the text, edit count and result that the full compiler held after some first part of them: all of them, or those up to a change that got no answer and ended TeXpresso |
| `LiveEngine.StepsAgree` | typr-server/liveLatexSession.ts:56-69 | From equal states both backends accept or reject the same edit, answer it alike and store the same text; only a change without an answer parts them, by ending TeXpresso alone |
| `LiveEngineSimulation.EditSimulated` | typr-server/texpressoSession.ts:200-225 | The engine of the transition system follows either backend: both reject the same changes and hold the same text, edit count and cached pages after any other, whatever the answer |
| `LiveEngineSimulation.RenderSimulated` | typr-server/texpressoSession.ts:245-270 | For the resolution and theme of one session a page is served from one cache exactly when it is from the other, with the same size, and a new one enters both |
| `LiveEngineRun.StepInStep` | typr-server/texpressoLiveSession.ts:57-385 | Every event keeps session and backend in step: while the session is in use the backend has the text, edits and pages of its engine, every page marked with the edits it was painted for; a change sent and not answered is the only difference |
| `LiveEngineRun.ServedPagesAreCurrent` | typr-server/texpressoSession.ts:200-270 | For every run in which pages are answered as the backend paints them, from a fresh connection: while a session in use renders, the backend holds the same text, has taken exactly the applied changes and caches the same pages, and every page served from the cache is the very image the engine would paint now |
| `LiveEngine.TexpressoSession.ApplyRangeChange` | typr-server/texpressoSession.ts:200-225 | The change in place, with its rejections, its unanswered case and the cache rule |
| `LiveEngine.TexpressoSession.RenderPage` | typr-server/texpressoSession.ts:245-270 | renderPage in place: range checks, cache, process, and the new entry |
| `LiveEngine.FullCompileLiveSession.ApplyRangeChange` | typr-server/liveLatexSession.ts:56-69 | The change of the full compiler in place |
| `LiveEngine.FullCompileLiveSession.Compile` | typr-server/liveLatexSession.ts:147-165 | A build replaces the result and empties the cache |
| `LiveEngine.FullCompileLiveSession.RenderPage` | typr-server/liveLatexSession.ts:71-108 | renderPage of the full compiler in place |
| `WorkspaceTheorems.CriticalSectionsInCallOrder` | typr-server/workspaceStore.ts:335-345 | For every run: a write or delete is inside the lock only when every earlier call is over, failed ones included |
| `WorkspaceTheorems.RefinesCasMap` | typr-server/workspaceStore.ts:153-219 | For every run: every path holds what the commits made of it; each commit met its call's precondition on what the path held just before; commits are in call order, one at most per call; a call reporting success is among them |
| `WorkspaceTheorems.QuotaClosure` | typr-server/workspaceStore.ts:163-269 | From a directory the scan accepts, every run of calls, failing anywhere, leaves a directory the scan accepts |
| `WorkspaceTheorems.ReadsSeeOneVersion` | typr-server/workspaceStore.ts:129-151 | For every run: a finished unlocked read reports the whole content of one committed version, or the absence of the file, at one instant between its call and its end |
| `WorkspaceTheorems.NothingShowsWithoutCommit` | typr-server/workspaceStore.ts:163-218 | For every run: a step that commits nothing changes the content of no path, so a call that fails before its rename or unlink leaves them all |
| `WorkspaceFailures.FailedCallLeavesOnlyParents` | typr-server/workspaceStore.ts:163-206 | For every run in which a call gets the lock and ends without a commit: the tree is then the one it found at the lock with new empty parent directories of its path and, exactly when it had created its temporary file and removing that failed, this one file; had it not created it, the tree is without a file that already had the random name when cleanup removed that |
| `WorkspaceTheorems.FirstUnfinishedCallAdvances` | typr-server/workspaceStore.ts:335-345 | For every run: the first unfinished call can always go on and comes nearer to its end, whatever its step meets, so the lock is never lost |
| `WorkspaceTheorems.UninterruptedCall` | typr-server/workspaceStore.ts:153-219 | A call that nothing disturbs, and whose random temporary name is free, succeeds exactly when its precondition holds, nothing is in the way of its path and a write fits the quotas; it is then one more commit, and otherwise nothing differs |
| `WorkspaceTheorems.SuccessIsCommitted` | typr-server/workspaceStore.ts:163-218 | For every run: no call reports success without its change being visible |
| `WorkspaceRuns.StepKeeps` | typr-server/workspaceStore.ts:129-345 | Every step of every call and reader keeps the invariant of lock, tree, quotas, log and readers |
| `WorkspaceRuns.InvariantOfRun` | typr-server/workspaceStore.ts:129-345 | The invariant holds after every sequence of events on a usable directory |
| `WorkspaceRuns.ReaderMoves` | typr-server/workspaceStore.ts:129-151 | One step of an unlocked read keeps what it has read a prefix of one version |
| `WorkspaceCommits.RenamePublishes` | typr-server/workspaceStore.ts:197-199 | The rename changes one path to the new content, keeps the quotas, and is a legal commit |
| `WorkspaceCommits.UnlinkPublishes` | typr-server/workspaceStore.ts:211-218 | The unlink takes one path away, keeps the quotas, and is a legal commit |
| `WorkspaceCommits.QuotasAfterPut` | typr-server/workspaceStore.ts:172-179 | The checks before the write are enough: after the replacement the scan is within all three limits |
| `WorkspaceCommits.LogPublishes` | typr-server/workspaceStore.ts:163-218 | A commit appended at the instant its change is visible keeps the log legal, in order, one per call and equal to the contents |
| `WorkspaceSteps.HiddenPut` | typr-server/workspaceStore.ts:181-196 | A new parent directory or temporary file shows nowhere: same listing, same contents, same open files |
| `WorkspaceSteps.HiddenRemove` | typr-server/workspaceStore.ts:200-203 | Removing the temporary file shows nowhere |
| `WorkspaceSteps.ResolveMeaning` | typr-server/workspaceStore.ts:271-294 | Resolving succeeds exactly on a regular file reached through directories, and reports a missing file exactly when nothing else is in the way |
| `WorkspaceScan.ScanIff` | typr-server/workspaceStore.ts:221-269 | The scan succeeds exactly when every visible entry is a regular file or directory with a valid path and the three limits hold, in whatever order the entries come, and lists exactly those files |
| `WorkspaceScan.VisitDirectory` | typr-server/workspaceStore.ts:224-266 | The recursive loop with its accumulators computes the scan |
| `WorkspaceScan.FilesAfterPut` | typr-server/workspaceStore.ts:181-199 | Putting a file or an empty directory replaces what the scan lists at that path and nothing else |
| `WorkspaceScan.FilesAfterRemove` | typr-server/workspaceStore.ts:216-217 | Removing a file takes exactly its entry out of the listing |
| `WorkspaceTree.FileAtAfterPut` | typr-server/workspaceStore.ts:181-199 | Putting a file or an empty directory changes what one path names and no other |
| `WorkspaceTree.FileAtAfterRemove` | typr-server/workspaceStore.ts:197-217 | Removing a file changes what one path names and no other |
| `WorkspacePath.AcceptedIffValid` | typr-server/workspaceStore.ts:348-364 | The accepted strings are exactly the joins of valid segment lists, and each stands for one list: no two accepted paths name the same place |
| `WorkspacePath.PrefixOfValidPath` | typr-server/workspaceStore.ts:296-313 | Every directory on the way to a valid path has a valid path |
| `WorkspaceStoreObject.Store.ResolveExistingFile` | typr-server/workspaceStore.ts:271-294 | The loop over the segments resolves as the recursion on the tree does, with the same errors |
| `WorkspaceStoreObject.Store.Read` | typr-server/workspaceStore.ts:129-151 | read between two changes: resolve, read, check the size |
| `WorkspaceStoreObject.Store.ReadExisting` | typr-server/workspaceStore.ts:315-327 | readIfExists: only a missing file counts as absent |
| `WorkspaceStoreObject.Store.WithMutationLock` | typr-server/workspaceStore.ts:335-345 | The call joins the promise tail in place |
| `WorkspaceStoreObject.Store.Write` | typr-server/workspaceStore.ts:153-163 | write up to the lock in place: invalid paths and oversized content are refused with nothing changed |
| `WorkspaceStoreObject.Store.Delete` | typr-server/workspaceStore.ts:209-211 | delete up to the lock in place |
| `WorkspaceStoreObject.Store.CheckPrecondition` | typr-server/workspaceStore.ts:163-170 | The precondition check in place |
| `WorkspaceStoreObject.Store.CheckQuotas` | typr-server/workspaceStore.ts:172-179 | The quota check in place, with the scanning loop |
| `WorkspaceStoreObject.Store.MakeParent` | typr-server/workspaceStore.ts:296-313 | One turn of resolveForWrite in place |
| `WorkspaceStoreObject.Store.OpenTemporary` | typr-server/workspaceStore.ts:181-190 | The temporary file is created exclusively beside its destination, in place |
| `WorkspaceStoreObject.Store.FillTemporary` | typr-server/workspaceStore.ts:191-194 | The content goes into the temporary file, or a broken write leaves anything there |
| `WorkspaceStoreObject.Store.Rename` | typr-server/workspaceStore.ts:197-199 | The rename in place: one instant, one commit |
| `WorkspaceStoreObject.Store.CleanUp` | typr-server/workspaceStore.ts:200-203 | The finally clause in place |
| `WorkspaceStoreObject.Store.ReadBack` | typr-server/workspaceStore.ts:204-205 | The read after the rename, which may fail although the change is visible |
| `WorkspaceStoreObject.Store.Unlink` | typr-server/workspaceStore.ts:216-217 | The unlink in place |
| `WorkspaceStoreObject.Store.Resume` | typr-server/workspaceStore.ts:153-219 | A call taken to its next await does to the object exactly what the step does to the state |
| `WorkspaceStoreObject.Store.LookAtSegment` | typr-server/workspaceStore.ts:271-294 | One lstat of an unlocked read in place |
| `WorkspaceStoreObject.Store.FetchPiece` | typr-server/workspaceStore.ts:137-151 | One more piece of the file an unlocked read has open, in place |
| `WorkspaceStoreObject.Serve` | typr-server/workspaceStore.ts:129-345 | A store served any sequence of events is where the run of that sequence is, so every theorem about runs holds of the object |
| `Base64.IsBase64` | typr-server/base64.ts:2-22 | The validator accepts exactly letters alone with no lone letter over, or letters and the padding that completes the last quantum (RFC 4648, section 4) |
| `Base64.OutputBase64` | docker/patches/texpresso-page-export.patch:57-72 | The encoder loop's output is padded base64 with zero unused bits, decodes to the data, and has four letters for every three octets begun |
| `Base64.CanonicalIsUnique` | docker/patches/texpresso-page-export.patch:57-72 | Exactly one padded text with zero unused bits carries given octets, so the encoder's output is determined |
| `Base64.FileFitsWriteBody` | typr-server/server.ts:559-562 | Base64 text of a file within the limit, padded or not, leaves the 64 KiB overhead of the request body free |
| `Base64.StrayBitsExample` | typr-server/base64.ts:2-22 | The validator accepts a text with unused bits set and unpadded text, which decode like the canonical one |
| `Base64.PackedSextets` | docker/patches/texpresso-page-export.patch:65-70 | The shifts and masks of the encoder pick the four six-bit values of three octets |
| `MountInfo.DecodeUndoesEscape` | typr-server/sandboxPolicy.ts:155-159 | Decoding undoes the kernel's escaping for every path, also where escapes meet |
| `MountInfo.EscapeUndoesDecode` | typr-server/sandboxPolicy.ts:155-159 | Escaping undoes decoding exactly on what the kernel can have written |
| `MountInfo.ValidateFallbackMountInfo` | typr-server/sandboxPolicy.ts:117-153 | The line loop with its two flags accepts exactly the tables whose lines parse, whose mounts are standard or a requested root, and where each requested root is mounted on its own; a failure names the first offending line |
| `MountInfo.ValidateTrustedWorkspace` | typr-server/sandboxPolicy.ts:106-115 | The trusted form additionally asks for an absolute workspace root, and acceptance means it is mounted |
| `MountInfo.OrderDoesNotMatter` | typr-server/sandboxPolicy.ts:117-153 | The verdict depends neither on the order of the lines nor on repeated ones |
| `MountInfo.LineReadsBack` | typr-server/sandboxPolicy.ts:124-132 | The line of a mount reads back as its real path and type, whatever characters the path holds |
| `MountInfo.AuditOfMounts` | typr-server/sandboxPolicy.ts:117-153 | On the table of any mounts the verdict is about the mounts themselves: all allowed, and each requested root its own non-standard mount |
| `Activity.LogKeepsNewest` | typr-server/activity.ts:38-51 | For every run: the log is the newest min(n, maxEvents) of the n events published, with consecutive ids |
| `Activity.ResumesExactlyOnce` | typr-server/managementServer.ts:298-307 | For every run of publications, connections and drops: a client's received events are published ones with increasing ids, without a gap between first and last as long as no absence exceeded the log, and a connected client has the newest |
| `Activity.ReconnectionLosesNothingIff` | typr-server/managementServer.ts:303-304 | A reconnection brings every missed event exactly when no more were published in the gap than the log holds |
| `Activity.ReplayIsTail` | typr-server/activity.ts:53-59 | What is replayed after an id is every later event the log still holds; after 0 it is the whole log |
| `Activity.ActivityBus.Publish` | typr-server/activity.ts:38-51 | publish in place: next id, the bounded log, and the event written to every listener once |
| `Activity.ActivityBus.OpenActivityStream` | typr-server/managementServer.ts:298-304 | Replay and subscription in place, in one turn |
| `Activity.ActivityBus.Close` | typr-server/activity.ts:61-64 | Unsubscribing removes exactly that listener |
| `Activity.ActivityServer.Connect` | typr-server/managementServer.ts:298-307 | A client that comes back with its last id, in place: its response is replayed to and subscribed |
| `Activity.ActivityServer.Drop` | typr-server/managementServer.ts:305-307 | A connection that ends, in place: its listener is gone and the client keeps what reached it |
| `Activity.Serve` | typr-server/managementServer.ts:298-307 | Bus and clients served any sequence of publications, connections and drops are where the run of that sequence is |
| `ManagementAuth.SessionLastsAsTold` | typr-server/managementAuth.ts:143-175 | For every run with a clock that does not go back: a session neither logged out nor evicted is accepted at a time exactly when it is not later than the expiry last reported; the table never exceeds 32 |
| `ManagementAuth.NewestSurvives` | typr-server/managementAuth.ts:126-135 | A successful login is in the table behind the newest unexpired sessions, the oldest having made room |
| `ManagementAuth.PruneIsInvisible` | typr-server/managementAuth.ts:186-195 | Pruning changes no reply to any later sequence of requests |
| `ManagementAuth.GuessingIsSlow` | typr-server/managementAuth.ts:96-123 | For every run of logins that do not overlap: at most nine wrong passwords are looked at in one window, a block lasts at most 480 seconds, and the ninth failure blocks past the window, so the 15 minute cap is never reached |
| `ManagementAuth.LockoutSchedule` | typr-server/managementAuth.ts:113-115 | Lockouts lie between 30 and 900 seconds and never shrink with the failure count |
| `ManagementAuth.ManagementAuthenticator.PruneSessions` | typr-server/managementAuth.ts:187-191 | The deleting loop over the sessions leaves exactly the live ones in order |
| `ManagementAuth.ManagementAuthenticator.PruneFailures` | typr-server/managementAuth.ts:192-194 | The deleting loop over the failures leaves exactly those that can still matter |
| `ManagementAuth.ManagementAuthenticator.Open` | typr-server/managementAuth.ts:96-141 | login in place, with the evicting loop |
| `ManagementAuth.ManagementAuthenticator.SessionOf` | typr-server/managementAuth.ts:143-156 | session in place |
| `ManagementAuth.ManagementAuthenticator.Forget` | typr-server/managementAuth.ts:158-162 | logout in place |
| `ManagementCookies.ReadCookie` | typr-server/managementAuth.ts:231-240 | The loop returns the token of the first field of the name, or nothing, even when a later field holds one |
| `ManagementCookies.ReadsBack` | typr-server/managementAuth.ts:181-184 | A cookie that was set is read back as its token among any other cookies, unless one before it has the same name or the header is too long |
| `ProjectPaths.AcceptedPathResolves` | typr-server/projectFiles.ts:39-47 | An accepted path lands at the root followed by its segments without empty and dot ones, or is refused, exactly when the first of those begins with two dots |
| `ProjectPaths.SamePlaceSameSegments` | typr-server/projectFiles.ts:39-47 | Two accepted paths land at the same place exactly when they name the same segments |
| `ProjectPaths.DotPathLandsOnRoot` | typr-server/projectFiles.ts:21-29 | A path of dots and separators passes the validator and lands on the root itself |
| `ProjectPaths.CollapseIsKept` | typr-server/projectFiles.ts:39-41 | Without parent segments, normalising only takes empty and dot segments out |

## Left out

- Removal of the temporary project directory: the code does not guarantee it when close runs while `mkdtemp` is pending.
- The text of diagnostics, log lines, timings and session ids: data carried along without a decision depending on it.
- Starting, signalling and reaping processes, Landlock, MuPDF and the TeX engine: native tools, behind the oracle.
- Timer durations: timeouts are events that may come at any time.
- PNG validation in `handleProtocolLine`: whether an image is shown or rejected is part of the event.
- Order of microtasks within one turn: an event is one whole run from await to await, and answers may come in any order.
- LiveEngine.CachedPageIsCurrent: assumes the engine paints a page as a function of the edits it was sent; what it paints is not modelled.
- Waiters: settlement of the waiters is modelled, the contents of snapshots and images are not.
- `WorkspaceStore.list`: its scan runs unlocked and reads file by file, so it promises no single version; the scan itself is modelled on one tree, as the write path uses it under the lock.
- File modes and modification times of the workspace: carried along, no decision depends on them.
- Changes made to the workspace by other programs: the store is taken to be the only one that changes it.
- SHA-256: the ETag is any function of the content, so equal ETags are what the precondition compares, not equal contents.
- Windows path rules (`isWindowsUnsafePathSegment`): only the POSIX branch is modelled.
- Lone surrogates in paths, cookies, mount tables and base64 text: these are modelled as Unicode characters; none is a letter, a digit or a separator the code looks for.
- Base64.OutputBase64: does not model overflow of the `int` loop index near 2^31 octets, far above the 16 MiB limit on a page.
- ManagementAuth.GuessingIsSlow: logins that overlap while the password is being hashed share failure states in ways the code does not count exactly; each login is one step here.
- ManagementAuth.SessionLastsAsTold: the clock never goes back, as the code assumes of `Date.now`.
- Password hashing, user names and CSRF tokens: a login carries whether its credentials match.
- Activity timestamps, levels and metadata: copied unchanged into the event.
- `materializeProjectFiles`, HTTP routing, CORS, JSON and HTML, provider downloads, `tlmgr`, the access store and the command line.
