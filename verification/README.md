# Fallout Chat Mod overlay: a verified model of its control core

The overlay is an Electron program that shows chat over a running game. Its main
process holds a number of protocols that have to stay right over whole runs of
timers, file reads, socket events and key presses, in any order. This project
models them in Dafny and proves what they promise.

How it is laid out. Each protocol has a plain value for its state and a step
function over its events. Run-level results are lemmas about every sequence of
events. Beside it stands a class with the program's own variables, whose methods
follow the program's control flow and are proved to make exactly those steps, so
that the run-level results are about the code's own branches and loops.

| files | what they model |
|---|---|
| `texts.dfy`, `lines.dfy` | trimming, decimal numbers, cutting text at separators |
| `snapshots.dfy` | the export document, its parser, its keys and its evidence |
| `export_cursor.dfy`, `cursor_exact.dfy` | one export file: which reads are believed, and for how long; every outcome of a read, exactly |
| `export_watch.dfy`, `watch_exact.dfy` | polling several files with slow reads and an expiry timer; every pass, tick and discovery, from the reads alone |
| `bridge_relay.dfy`, `bridge_runs.dfy`, `bridge_script.dfy` | the one desktop owner of the server-room bridge; the same without its fields, as a script over the calls and the log |
| `bridge_pipeline.dfy`, `watch_grounding.dfy`, `interval_limits.dfy`, `age_lag.dfy`, `pipeline_script.dfy` | files, watchers and relay together |
| `socket_proxy.dfy`, `socket_runs.dfy`, `socket_delivery.dfy`, `socket_object.dfy` | proxied sockets, held frames, held opens, session tokens |
| `socket_exact.dfy`, `socket_notices.dfy`, `socket_bridge.dfy` | the same seen one by one: each socket, id, notice, waiting open and call of the bridge |
| `reconcile.dfy`, `reconcile_history.dfy` | the compositor rule: one helper, a recheck, a backed-off retry; what was launched and how it ended |
| `hyprland_pin.dfy`, `pin_reports.dfy`, `pin_world.dfy` | the pin toggle, the course of its flights, and the window's real pin beside it |
| `panel_modes.dfy`, `panel_routines.dfy`, `panel_text.dfy` | hiding the desktop panels, safely through crashes |
| `window_height.dfy`, `size_drift.dfy`, `window_saves.dfy` | the window's height through collapse and drag; sizes on scaled displays; what is saved on the way |
| `keybinds.dfy`, `keybind_edits.dfy` | the keybind file and its watch loop; what an edit means |
| `presence.dfy` | whether the game runs, judged from unreliable scans |
| `focus_worker.dfy`, `focus_requests.dfy`, `focus_exact.dfy` | the helper process that takes focus commands; when a request is served |

Where the code does less than it sets out to do, the exact condition is proved,
with a run that shows the failure:

- Two export files of one provider (several game roots give such files) can make
  the observed interval empty (`IntervalLimits.OrderedExactly`).
- A published copy counts its age from the file's last read. If that read was
  missing or unchanged, the copy looks younger than its document; the true age is
  still within the evidence (`WatchGrounding.PublishedAge`, `AgeLag.AgeCanLag`).
- A file read again unchanged stays current only while fewer than 512 keys are
  retired (`CursorExact.UnchangedStaysCurrent`,
  `ExportCursors.FullRetirementEndsLiveness`).
- A pin toggle that no later look has shown, followed by a request for the old
  state, can leave the window pinned with the protocol at rest. Rest can be trusted
  exactly when every dispatch has been followed by a look that showed the pin
  (`PinWorld.RestAgreesExactly`, `PinWorld.UnseenStrands`,
  `PinWorld.PinCanBeStranded`).
- Panel modes are forgotten when the desktop answers that its widgets are locked
  (`PanelModes.RecoverableExactly`, `PanelModes.LockedForgets`).
- A collapse target two pixels or more above the window makes an interrupted
  expansion forget the window's height (`WindowHeight.HeightIsRecoveredExactly`).
- A save that falls into an expansion under way writes the height of that moment
  (`WindowSaves.SavesAreHomeExactly`, `WindowSaves.ExpansionIsSaved`).
- The size drift that a comment says cannot accumulate is bounded within a session
  but adds up from session to session (`SizeDrift.NoDriftExactly`,
  `SizeDrift.SessionsAddUp`).

## Model

| member | source | states |
|---|---|---|
| Snapshots.ParseSnapshot | cross-platform-overlay/local-bridge-files.js:27-44 | what the parser accepts meets every check of the export format |
| Snapshots.ParseExactly | cross-platform-overlay/local-bridge-files.js:27-44 | a document is accepted as a snapshot exactly when it is that snapshot written out and the snapshot meets every check; both directions |
| Snapshots.SpellInjective | cross-platform-overlay/local-bridge-files.js:86-118 | the texts used as generation and session keys never collide, because of the nonce and provider checks |
| Snapshots.SpelledMembership | cross-platform-overlay/local-bridge-files.js:97-118 | looking a text up in the set of retired texts answers as looking the key up in the set of keys |
| Snapshots.NamedMeans | cross-platform-overlay/local-bridge-files.js:126 | an own name of white space only is exactly one without evidence |
| ExportCursors.ExportCursor.constructor | cross-platform-overlay/local-bridge-files.js:92 | a new cursor has seen nothing |
| ExportCursors.ExportCursor.AcceptRead | cross-platform-overlay/local-bridge-files.js:93-131 | one read moves the cursor exactly by its verdict (absent, refused, repeated, stored), and the answer is what is current then |
| ExportCursors.ExportCursor.Replace | cross-platform-overlay/local-bridge-files.js:112-130 | storing a snapshot sets both clocks, the retirement set, liveness and the baseline as the run-level results need |
| ExportCursors.ExportCursor.CurrentAt | cross-platform-overlay/local-bridge-files.js:132-134 | the snapshot offered at a time: live and inside both deadlines |
| ExportCursors.ExportCursor.WhyInactive | cross-platform-overlay/local-bridge-files.js:135-136 | a recorded failure first, then a deadline, then an invalid export |
| ExportCursors.LivenessIsEarned | cross-platform-overlay/local-bridge-files.js:93-131 | over every run of reads a live cursor stands on two stored, strictly advancing snapshots of one session, and a live holding one on an unbroken live chain of the same evidence back to an active one |
| ExportCursors.DeadlinesBind | cross-platform-overlay/local-bridge-files.js:119-134 | whatever is offered is inside the writer clock and inside the evidence clock of every stored read of its observation |
| ExportCursors.UnstoredMovesNothing | cross-platform-overlay/local-bridge-files.js:94-115 | a missing, refused or repeated read moves neither clock and revives nothing |
| ExportCursors.NoRevival | cross-platform-overlay/local-bridge-files.js:116-134 | once an offered observation stops being offered, it is never offered again, also when a read was under way at either time |
| ExportCursors.RetirementIsExact | cross-platform-overlay/local-bridge-files.js:97-118 | the retired keys are exactly the generations and sessions that were left, none is stored again, and there are at most 513 |
| ExportCursors.FullRetirementEndsLiveness | cross-platform-overlay/local-bridge-files.js:102-104 | with 512 retired keys the next snapshot ends liveness for good |
| ExportCursors.AttachGoesLive | cross-platform-overlay/local-bridge-files.js:116-131 | a session never left goes live on its second, newer, active and named snapshot, from any state of the cursor, while time is left on it |
| CursorExact.ReadExactly | cross-platform-overlay/local-bridge-files.js:93-131 | over every run of reads, one read, exactly: a document that returns to nothing left, advances and keeps its evidence is stored; a missing or unchanged one leaves the cursor as it is; any other silences it as an invalid export |
| CursorExact.InTimeExactly | cross-platform-overlay/local-bridge-files.js:119-134 | a cursor is in time exactly while the writer clock of the last stored read and the evidence clock of every stored read of its observation run, both written out from starts and ages |
| CursorExact.UnchangedStaysCurrent | cross-platform-overlay/local-bridge-files.js:94-110 | a snapshot offered once is offered, through any number of missing or unchanged reads, exactly as long as those clocks run |
| CursorExact.NewlyStoredIsCurrent | cross-platform-overlay/local-bridge-files.js:112-134 | a newly stored snapshot is offered exactly when it is believed (new active evidence, the second of its session, or the continuation of a current one, active or holding) and while its clocks run |
| CursorExact.NewerStaysCurrent | cross-platform-overlay/local-bridge-files.js:112-134 | a strictly newer active or holding snapshot of the same evidence, read while its predecessor is current, takes its place for as long as the clocks run |
| CursorExact.ReasonExactly | cross-platform-overlay/local-bridge-files.js:135-136 | the reason of a silence, from the reads: told inactive, timed out or not acceptable; a missing or unchanged read does not change it |
| ExportWatch.ExportWatcher.constructor | cross-platform-overlay/local-bridge-files.js:142-145 | a new watcher knows no files and has published nothing |
| ExportWatch.ExportWatcher.Tick | cross-platform-overlay/local-bridge-files.js:154-166 | a pass starts only when none is under way, and asks for files only while there are none and ten seconds have gone by |
| ExportWatch.ExportWatcher.DiscoveryDone | cross-platform-overlay/local-bridge-files.js:165-172 | at most 64 files are kept, and one read starts for each |
| ExportWatch.ExportWatcher.DiscoveryThrew | cross-platform-overlay/local-bridge-files.js:196-198 | a failed discovery closes what is open and keeps the cursors |
| ExportWatch.ExportWatcher.ReadFinished | cross-platform-overlay/local-bridge-files.js:171-175 | a finished read moves its own file's cursor and no other, at its own start time |
| ExportWatch.ExportWatcher.PassCompleted | cross-platform-overlay/local-bridge-files.js:177-198 | the end of a pass publishes the sole current export, closes otherwise, and does nothing once stopped |
| ExportWatch.ExportWatcher.CheckExpiry | cross-platform-overlay/local-bridge-files.js:146-153 | the expiry timer closes an open publication whose cursor offers nothing |
| ExportWatch.ExportWatcher.Halt | cross-platform-overlay/local-bridge-files.js:207 | stopping changes nothing but the stop flag |
| ExportWatch.ActivesExact | cross-platform-overlay/local-bridge-files.js:179 | the filtered rows are exactly the rows that hold a snapshot whose cursor still offers one |
| ExportWatch.EveryInterleavingIsSafe | cross-platform-overlay/local-bridge-files.js:142-207 | over every interleaving of passes, slow reads and expiry checks: no closing call first or twice in a row, every published age below 30000, and sequences of one file and session never go back |
| ExportWatch.PassEndsOnTheSole | cross-platform-overlay/local-bridge-files.js:177-192 | a pass leaves open exactly the sole current export, and closes an open one exactly once when there are none or several |
| ExportWatch.ExpiryClosesExactly | cross-platform-overlay/local-bridge-files.js:146-153 | an expiry check closes exactly when the selected cursor offers nothing |
| ExportWatch.StoppedIsSilent | cross-platform-overlay/local-bridge-files.js:177-207 | a stopped watcher never calls back, whatever reads are still under way |
| ExportWatch.SpelledMarkersAgree | cross-platform-overlay/local-bridge-files.js:186-187 | two publication markers have the same text exactly when file, generation and sequence agree |
| WatchExact.PassExactly | cross-platform-overlay/local-bridge-files.js:177-192 | over every run the end of a pass, from the reads alone: the sole file that still offers a snapshot is left open, newly published at the age reached since its last read began unless that very sample was open; otherwise an open call is closed, for the conflict or for what its own file says |
| WatchExact.ReadsBeginTogether | cross-platform-overlay/local-bridge-files.js:165-176 | every read of a pass begins with the tick or the discovery that starts the pass |
| WatchExact.DiscoveryExactly | cross-platform-overlay/local-bridge-files.js:154-166 | over every run the files polled are the first 64 of the last discovery, and an idle tick asks again exactly when that found nothing and was asked for ten seconds ago or more |
| WatchExact.FailedDiscovery | cross-platform-overlay/local-bridge-files.js:196-198 | over every run a failed discovery leaves everything as it was, and the next tick may ask again |
| WatchExact.FilesStay | cross-platform-overlay/local-bridge-files.js:160-166 | files once found are polled for good, whatever follows |
| BridgeRelay.LocalBridgeRelay.constructor | cross-platform-overlay/local-bridge-relay.js:8-15 | a new relay has no token, owner, watcher or binding |
| BridgeRelay.LocalBridgeRelay.SendTo | cross-platform-overlay/local-bridge-relay.js:16-19 | a frame goes out only on an open owner's socket |
| BridgeRelay.LocalBridgeRelay.Reset | cross-platform-overlay/local-bridge-relay.js:20-28 | clearing ends the epoch, stops the watcher, drops interval and binding, and tells server and renderer |
| BridgeRelay.LocalBridgeRelay.ChangeAuth | cross-platform-overlay/local-bridge-relay.js:29-32 | a changed token clears and disowns; the same token does nothing |
| BridgeRelay.LocalBridgeRelay.ChangeGameRunning | cross-platform-overlay/local-bridge-relay.js:33-39 | a game exit clears before the status goes out, a launch starts after it |
| BridgeRelay.LocalBridgeRelay.SocketOpened | cross-platform-overlay/local-bridge-relay.js:40-49 | only the current token makes an owner; status and watch request go out before anything else |
| BridgeRelay.LocalBridgeRelay.StartWatching | cross-platform-overlay/local-bridge-relay.js:50-56 | a watcher starts only with environment, token, game and owner, and with none running |
| BridgeRelay.LocalBridgeRelay.SnapshotArrived | cross-platform-overlay/local-bridge-relay.js:57-67 | a current watcher's snapshot opens or extends the interval and goes out; any other does nothing |
| BridgeRelay.LocalBridgeRelay.WentInactive | cross-platform-overlay/local-bridge-relay.js:68-73 | a current watcher's inactivity drops interval and binding and is told both ways; any other does nothing |
| BridgeRelay.LocalBridgeRelay.SocketClosed | cross-platform-overlay/local-bridge-relay.js:76-79 | only the owner's own socket disowns |
| BridgeRelay.LocalBridgeRelay.RouteOut | cross-platform-overlay/local-bridge-relay.js:80-97 | evidence and leave frames never pass, watch and status are rewritten, room chat passes only under the binding |
| BridgeRelay.LocalBridgeRelay.RouteIn | cross-platform-overlay/local-bridge-relay.js:98-113 | bridge frames reach the renderer only on the owner's socket, a ready frame only if it acknowledges the interval |
| BridgeRelay.LocalBridgeRelay.Quit | cross-platform-overlay/local-bridge-relay.js:114 | quitting clears, disowns and forgets the token |
| BridgeRuns.NestingAlwaysHolds | cross-platform-overlay/local-bridge-relay.js:20-79 | in every reachable state a binding needs an interval, that needs the watcher of this epoch, and a watcher runs exactly while environment, token, game and owner with that token are there |
| BridgeRuns.StaleCallbacksAreMute | cross-platform-overlay/local-bridge-relay.js:52-73 | callbacks of any watcher but the current one change nothing and send nothing |
| BridgeRuns.RendererSeesTheState | cross-platform-overlay/local-bridge-relay.js:20-113 | the last state told to any renderer socket is ready with a binding exactly when that socket is the owner's and holds that binding |
| BridgeRuns.ChatPassesExactly | cross-platform-overlay/local-bridge-relay.js:80-97 | a room chat frame passes exactly when the last state told to its socket was ready with the binding it names |
| BridgeRuns.ChatPassesIffAcknowledged | cross-platform-overlay/local-bridge-relay.js:57-113 | a room chat frame passes exactly when it names a ready frame accepted on that same socket, inside the interval observed then, with nothing revoked since |
| BridgeRuns.WatchComesFirst | cross-platform-overlay/local-bridge-relay.js:40-49 | a socket hears the watch request before its first observation |
| BridgeScript.EveryStepIsScripted | cross-platform-overlay/local-bridge-relay.js:16-114 | over every run every call and callback adds to the log exactly what a script says that knows the calls before it and the log, and none of the fields: frames, notices, their order and reasons, and when a watcher starts |
| BridgeScript.LeavesExactly | cross-platform-overlay/local-bridge-relay.js:80-97 | a frame of the renderer leaves exactly when it is no local evidence, a watch request of the owner, or no room chat without the agreement of the last ready frame; and as what it leaves |
| BridgeScript.ArrivesExactly | cross-platform-overlay/local-bridge-relay.js:98-113 | a frame of the server reaches the renderer exactly when it is no bridge frame, a state for the owner that is not ready or acknowledges what was observed (session, world, sequence, binding and room written out), or another bridge frame naming what the last ready frame named |
| BridgeScript.CrossingsAreEntitled | cross-platform-overlay/local-bridge-relay.js:80-113 | over every run, on the log alone: every frame that crossed was put there by the one call that sent it, and was entitled to cross by the log before it |
| BridgeScript.RendererNeverTestifies | cross-platform-overlay/local-bridge-relay.js:80-89 | no frame of the renderer on a wire is local evidence; a watch request is for the local export only and from the owner; a status tells the game as it was then |
| BridgePipeline.RelayFollows | cross-platform-overlay/local-bridge-relay.js:50-75 | at every step of a watcher the relay holds the interval that watcher's calls so far aim at, and ignores every other watcher |
| BridgePipeline.IntervalIsOrdered | cross-platform-overlay/local-bridge-relay.js:57-67 | with real watchers and at most one file per provider the interval held is never empty, in any run |
| BridgePipeline.IntervalOnlyGrows | cross-platform-overlay/local-bridge-relay.js:59-65 | within a generation no step moves the interval's start or takes its end back |
| BridgePipeline.WireIsFresh | cross-platform-overlay/local-bridge-relay.js:40-75 | every observation on the wire was published by a watcher, is younger than 30000 and follows the socket's watch request |
| IntervalLimits.OrderedExactly | cross-platform-overlay/local-bridge-files.js:164-192 | over all runs the interval published is never empty exactly when no two candidate files share a provider |
| IntervalLimits.WrongRunDisorders | cross-platform-overlay/local-bridge-files.js:164-192 | a concrete run of two files of one provider that empties the interval |
| WatchGrounding.CursorIsItsReads | cross-platform-overlay/local-bridge-files.js:167-176 | in every run each file's cursor is the outcome of exactly the reads the events delivered to that file, which follow each other in time |
| WatchGrounding.PublishedIsEarned | cross-platform-overlay/local-bridge-files.js:177-192 | every publication was made by one event, and the reads delivered to its file up to that event show it as current then |
| WatchGrounding.PublishedAge | cross-platform-overlay/local-bridge-files.js:186-190 | the published age never exceeds the time since the document was read plus its own age, which is within the evidence, and equals it exactly when the last read of the file brought the document |
| AgeLag.AgeCanLag | cross-platform-overlay/local-bridge-files.js:167-192 | a run of two files in which a copy is published with age zero a second after its document was read |
| WatchGrounding.NoRevivalInTheWatcher | cross-platform-overlay/local-bridge-files.js:146-192 | in every run of the watcher, whatever reads are under way, an observation a file offered and then no longer offers is never offered by it again |
| WatchGrounding.NoRepublication | cross-platform-overlay/local-bridge-files.js:146-192 | a published observation on which its file has fallen silent is never published from that file again |
| WatchGrounding.WatchersAreTraced | cross-platform-overlay/local-bridge-relay.js:20-75 | every watcher the relay ever started is a run of the watcher over its own events, the relay's stop among them |
| WatchGrounding.WireIsEarned | cross-platform-overlay/local-bridge-relay.js:50-75 | through files, watchers, relay and sockets: every observation on the wire is a call that one event of one watcher made, and the reads of its file in that very run up to that event hold two advancing snapshots, an unbroken chain to an active one, and time left |
| WatchGrounding.EarnedMeans | cross-platform-overlay/local-bridge-files.js:93-134 | a snapshot shown by well-timed reads inherits their liveness chain and deadlines |
| PipelineScript.WatchersAreHeard | cross-platform-overlay/local-bridge-relay.js:50-75 | through the whole bridge: a watcher's call is to the relay the callback it stands for, with its own snapshot or reason, and the relay does exactly what its script says of it |
| SocketObject.SocketHandlers.constructor | cross-platform-overlay/main.js:1510-1545 | no sockets, buffers, waiting opens or token at the start |
| SocketObject.SocketHandlers.SetSessionToken | cross-platform-overlay/main.js:1523-1533 | a changed token first moves the bridge, then closes, tells and forgets every mapped socket |
| SocketObject.SocketHandlers.OpenRelaySocket | cross-platform-overlay/main.js:2172-2188 | a new socket replaces the id's old one, which is closed and disowned first |
| SocketObject.SocketHandlers.FlushPendingWsOpens | cross-platform-overlay/main.js:2254-2259 | every waiting open is made, oldest first |
| SocketObject.SocketHandlers.LogIn | cross-platform-overlay/main.js:3420-3422 | a login sets the token and then makes the waiting opens |
| SocketObject.SocketHandlers.FinishUnlink | cross-platform-overlay/main.js:3084-3103 | an unlink drops the token, refuses every waiting open and forgets every socket |
| SocketObject.SocketHandlers.OnIpcOpen | cross-platform-overlay/main.js:2261-2274 | without a token an open waits, and a full queue refuses its oldest |
| SocketObject.SocketHandlers.OnIpcSend | cross-platform-overlay/main.js:2276-2297 | a routed frame goes out when open, is held while connecting with the oldest of 64 dropped, and is lost otherwise |
| SocketObject.SocketHandlers.OnIpcClose | cross-platform-overlay/main.js:2298-2307 | the renderer's close takes one waiting open and the socket, and disowns it |
| SocketObject.SocketHandlers.OnSockOpen | cross-platform-overlay/main.js:2189-2204 | a stale or late socket is closed; the mapped one becomes the owner before its held frames go out |
| SocketObject.SocketHandlers.OnSockMessage | cross-platform-overlay/main.js:2205-2225 | only the mapped socket's messages go on, and only those the bridge lets through |
| SocketObject.SocketHandlers.OnSockClose | cross-platform-overlay/main.js:2226-2241 | a close disowns, and is told to the renderer only for the mapped socket |
| SocketObject.SocketHandlers.OnBeforeQuit | cross-platform-overlay/main.js:5196-5200 | quitting disposes of the bridge and blocks later openings |
| SocketRuns.CouplingHolds | cross-platform-overlay/main.js:1523-1546 | over all interleavings every mapped socket carries the current token, which is the bridge's; the bridge owner is a mapped, opened socket; at most 64 frames and 8 opens are held, opens only without a token |
| SocketRuns.CloseToldOnce | cross-platform-overlay/main.js:2226-2241 | a socket's close is told to the renderer at most once |
| SocketRuns.RoomChatIsThisSession | cross-platform-overlay/main.js:2276-2297 | room chat passes the proxy only on the mapped socket of the current session, under an acknowledged and unrevoked binding |
| SocketRuns.MappedIsInForce | cross-platform-overlay/main.js:2190-2206 | the token comparisons in the socket handlers never decide anything: a mapped socket always has the current token |
| SocketExact.SocketsExactly | cross-platform-overlay/main.js:1523-1546 | socket by socket, over every event: what closes it, opens it and ends it, and that nothing else about it changes |
| SocketExact.MapExactly | cross-platform-overlay/main.js:2172-2307 | id by id, over every event but a login to another account: what gives it a socket and what takes it away |
| SocketExact.LoginMaps | cross-platform-overlay/main.js:2254-2259 | a login to another account makes a socket of that account for every waiting id, in order, the last one standing for its id, and leaves no other id one |
| SocketExact.OpensExactly | cross-platform-overlay/main.js:2172-2188 | sockets are made for the ids an event opens and for nothing else |
| SocketExact.NoSocketLeaks | cross-platform-overlay/main.js:1523-1546 | over every run a socket that is connecting or live is the one its id maps to, made for the current account |
| SocketNotices.NoticesExactly | cross-platform-overlay/main.js:2189-2307 | notice by notice, over every event: how often it tells it, closes, refusals, openings, failures and texts |
| SocketNotices.OpensAreAccounted | cross-platform-overlay/main.js:2254-2307 | over every run each open asked for made a socket, was refused, was taken back while it waited, or still waits: none is lost or doubled |
| SocketNotices.QueueKeepsOrder | cross-platform-overlay/main.js:2298-2307 | taking back a waiting open removes its first place in the queue and no other |
| SocketBridge.TalkReachesTheBridge | cross-platform-overlay/main.js:2205-2297 | what is said on the sockets is exactly one call of the bridge, which answers by its script; anything else leaves the bridge alone |
| SocketBridge.OpeningOwnsTheBridge | cross-platform-overlay/main.js:2189-2204 | a socket that opens in its place owns the bridge, and hears the status and the watch request ahead of what was held for it |
| SocketBridge.ProxyCrossings | cross-platform-overlay/main.js:2205-2297 | over every run of the proxy, on the log: whatever crossed was entitled to, and no frame of the renderer on a wire is local evidence or asks for another bridge |
| SocketDelivery.DeliveryIsOrdered | cross-platform-overlay/main.js:2189-2297 | the renderer's frames on a wire are those of the last 64 held that still pass, in order, then all later ones that pass, in order: the bounded buffers refine one unbounded record |
| SocketDelivery.HeldChatNeverLeaves | cross-platform-overlay/main.js:2195-2202 | a room chat frame held while connecting is never sent at opening |
| SocketDelivery.StepSends | cross-platform-overlay/local-bridge-relay.js:16-114 | no relay method or callback puts a renderer's frame on any wire |
| Reconcile.StackSync.Clear | cross-platform-overlay/main.js:1304-1309 | a cleared retry has no timer, target or failures |
| Reconcile.StackSync.ScheduleAgain | cross-platform-overlay/main.js:1311-1325 | a retry is scheduled once, for the desired state only, with the delay its failure count gives |
| Reconcile.StackSync.Prepare | cross-platform-overlay/main.js:1326-1330 | a new desired state cancels a retry for the old one |
| Reconcile.StackSync.Synchronise | cross-platform-overlay/main.js:1332-1342 | a request during a flight is queued; otherwise it agrees, waits for its retry, or launches |
| Reconcile.StackSync.OnDone | cross-platform-overlay/main.js:1343-1360 | a finished helper confirms or not, then a queued request is looked at afresh, or the retry is cleared or scheduled |
| Reconcile.StackSync.OnTimer | cross-platform-overlay/main.js:1318-1322 | the timer forgets its target before it asks again |
| Reconcile.ReconcileIsSound | cross-platform-overlay/main.js:1297-1378 | over every run: never a helper and a retry together, a retry is for the desired state, at rest applied is desired, delays follow the back-off table |
| Reconcile.AppliedIsConfirmed | cross-platform-overlay/overlay-core.js:880-888 | the applied state changes only to what a successful helper attempted |
| Reconcile.RecheckMeansQueued | cross-platform-overlay/main.js:1343-1355 | a desired state that moved on during a flight was always queued |
| Reconcile.TwoCompletionsAgree | cross-platform-overlay/main.js:1332-1360 | once a request has seen the final inputs and helpers succeed, two completions bring agreement, no third ever happens, and until then something is under way |
| Reconcile.TwoCanBeNeeded | cross-platform-overlay/main.js:1332-1360 | two completions are needed after a helper sent for the other state |
| ReconcileHistory.HelpersAreAccounted | cross-platform-overlay/main.js:1297-1378 | over every run the launches are the helpers that ended and, in a flight, one more, for what the flight says; applied is the target of the last helper that ended well; the last act tells helper, retry and rest apart |
| ReconcileHistory.LaunchesAreWanted | cross-platform-overlay/main.js:1332-1342 | a helper is launched only for the desired state of the moment, which is what the inputs then ask for, only with none out and not for what is applied |
| ReconcileHistory.RetriesAreWaitedFor | cross-platform-overlay/main.js:1326-1342 | until its timer fires a scheduled retry is not overtaken by requests for the same state |
| ReconcileHistory.RetriesFire | cross-platform-overlay/main.js:1318-1342 | a timer that fires ends the retry, takes the inputs of that moment and launches for them unless they are applied |
| ReconcileHistory.RequestsInFlightAreHonoured | cross-platform-overlay/main.js:1332-1360 | a request during a flight is never lost: when the helper ends the inputs of that moment become the desired state, and the next helper, if one is needed, is for it |
| HyprlandPin.HyprlandHelper.Request | cross-platform-overlay/main.js:1380-1390 | a request that launches starts with a look at the window, never with a toggle |
| HyprlandPin.HyprlandHelper.OnRetry | cross-platform-overlay/main.js:1318-1322 | a retry starts over with a look |
| HyprlandPin.HyprlandHelper.LookupAnswered | cross-platform-overlay/main.js:1432-1466 | unknown or unaddressable windows fail, the wanted pin succeeds, only a known opposite pin is toggled |
| HyprlandPin.HyprlandHelper.DispatchAnswered | cross-platform-overlay/main.js:1466-1473 | a failed dispatch ends the flight, a done one is verified |
| HyprlandPin.HyprlandHelper.VerifyAnswered | cross-platform-overlay/main.js:1409-1431 | only a look that shows the wanted pin is a success |
| HyprlandPin.ToggleOnlyFromOpposite | cross-platform-overlay/main.js:1432-1473 | over every run the toggle goes out only right after a look that knew the opposite state, and success is claimed only for a state that was seen |
| HyprlandPin.PinRefinesSync | cross-platform-overlay/main.js:1380-1476 | the three-stage helper is, to the protocol, one helper that succeeds or fails, run by run |
| PinReports.FlightsRunTheirCourse | cross-platform-overlay/main.js:1394-1476 | over every run each flight takes its whole course: what follows a look, a toggle and an answer is decided by what was seen, in both directions |
| PinWorld.RestAgreesExactly | cross-platform-overlay/main.js:1380-1476 | at rest the window's real pin is the desired one, whatever the hidden effects of the dispatches, exactly when every dispatch has been followed by a look that showed the pin |
| PinWorld.UnseenStrands | cross-platform-overlay/main.js:1386-1476 | otherwise the window is stranded for certain if the unseen dispatch was answered as done, and either way round is possible if it was answered as failed |
| PinWorld.PinCanBeStranded | cross-platform-overlay/main.js:1394-1424 | a run that rests with the window pinned against the desired state |
| PanelModes.PanelHider.ApplyPanelHide | cross-platform-overlay/main.js:589-605 | hiding saves first, never over a map left by a crash, and counts as active only when the script said ok |
| PanelModes.PanelHider.RestorePanels | cross-platform-overlay/main.js:606-613 | restoring drops the map on ok and on locked, and keeps it on failure |
| PanelRoutines.HideIsRun | cross-platform-overlay/main.js:589-605 | the routine that hides is the run of its events, whatever is answered on the way |
| PanelRoutines.RestoreIsRun | cross-platform-overlay/main.js:606-613 | so is the routine that restores |
| PanelModes.RecoverableExactly | cross-platform-overlay/main.js:577-622 | with a crash possible between any two steps, a panel's own mode is in force or on the disk exactly when no step hid it uncovered and none dropped the map after a locked answer that left it hidden |
| PanelModes.CrashesLoseNothing | cross-platform-overlay/main.js:577-622 | with working writes, listed modes and no locked answer every panel stays recoverable |
| PanelModes.MapIsWhole | cross-platform-overlay/main.js:577-622 | under the same assumptions either no map is saved and all panels are in the user's modes, or the map is exactly those modes |
| PanelModes.RestoreRecovers | cross-platform-overlay/main.js:606-613 | a restore that ends with ok gives the panel its own mode back |
| PanelModes.LockedForgets | cross-platform-overlay/main.js:606-613 | a run in which a locked answer loses a panel's mode |
| PanelRoutines.HidingHides | cross-platform-overlay/main.js:589-605 | a hiding without obstacles leaves every panel hidden and the known modes on the disk |
| PanelRoutines.AlreadyHidden | cross-platform-overlay/main.js:598-600 | panels that hide already are left alone and count as hidden |
| PanelRoutines.HideThenRestore | cross-platform-overlay/main.js:589-613 | the round trip: after hiding and restoring every panel with a known mode has exactly that mode, one in an unknown mode stays hidden, and with all modes known everything is as it was |
| PanelRoutines.CrashThenRestore | cross-platform-overlay/main.js:577-613 | after a crash in the middle of hiding a restore puts everything back |
| PanelRoutines.CrashThenHide | cross-platform-overlay/main.js:589-605 | after a crash the next hiding runs under the map that was left, not under the modes the crash left |
| PanelRoutines.SyncExactly | cross-platform-overlay/main.js:615-622 | what a request leads to: ask, hide under the saved map, restore, tidy up or nothing |
| PanelRoutines.FailedHidingIsRetried | cross-platform-overlay/main.js:603-604 | a hiding whose script failed does not count: the next request hides again under the saved map |
| PanelText.ParsePanelHidingSave | cross-platform-overlay/overlay-core.js:313-320 | the loop over the pieces reads what the specification reads |
| PanelText.PairExactly | cross-platform-overlay/overlay-core.js:313-318 | a piece of any text names a panel's mode exactly if, trimmed, it is a number, an equals sign and a word |
| PanelText.SaveRoundTrip | cross-platform-overlay/overlay-core.js:307-320 | whatever modes the panels report, reading the report gives exactly the known ones |
| PanelText.EveryPanelFound | cross-platform-overlay/overlay-core.js:307-320 | every panel's known mode is found under its own number, and an unknown one is not |
| PanelText.ModesByName | cross-platform-overlay/overlay-core.js:297-318 | a mode is read from its own word and from no other |
| WindowHeight.OverlayWindow.SetBoundsGuarded | cross-platform-overlay/main.js:1901-1913 | every height written is cut to the work area and the floor, one pixel only for a collapsed window's short frames |
| WindowHeight.OverlayWindow.AnimateHeightTo | cross-platform-overlay/main.js:4536-4572 | a near target is set at once, another starts an animation from the height of the moment |
| WindowHeight.OverlayWindow.CollapseToHeader | cross-platform-overlay/main.js:4574-4623 | a collapse remembers the height, or the larger target of the animation it cancels |
| WindowHeight.OverlayWindow.ExpandFromHeader | cross-platform-overlay/main.js:4625-4655 | an expansion heads for the remembered height |
| WindowHeight.OverlayWindow.OnFrame | cross-platform-overlay/main.js:4558-4571 | a frame lies on the eased path, the last one on the target |
| WindowHeight.OverlayWindow.OnMoveStart | cross-platform-overlay/main.js:2564-2598 | a drag expands at once and pins the size |
| WindowHeight.OverlayWindow.OnMoveTick | cross-platform-overlay/main.js:2599-2615 | a drag holds the pinned size |
| WindowHeight.HeightIsRecoveredExactly | cross-platform-overlay/main.js:4536-4655 | from the first collapse on the height comes back through every interleaving of collapses, expansions, cancelled animations and drags, exactly when no target cut to the work area is two pixels or more above the window |
| WindowHeight.LosingRunLoses | cross-platform-overlay/main.js:4574-4623 | the run that loses the height, for every target above it |
| WindowSaves.CollapseEnds | cross-platform-overlay/main.js:4574-4623 | a collapse run to its end stands at the nearest pixel of the header, at least 24, or at one pixel, within the work area |
| WindowSaves.CollapseThenExpand | cross-platform-overlay/main.js:4574-4655 | a collapse and an expansion, each run to its end, give back the height |
| WindowSaves.FramesAreEased | cross-platform-overlay/main.js:4556-4562 | a frame is the eased height to the nearest pixel, from the start to the target |
| WindowSaves.DragHolds | cross-platform-overlay/main.js:2564-2615 | through a whole drag, on a display that changes the height on its own between the ticks, every tick puts back the height the drag began with |
| WindowSaves.SavesAreHomeExactly | cross-platform-overlay/main.js:1864-1883 | through every interleaving of collapses, expansions, drags and saves the saved size is the window's own exactly when each save falls on a collapsed window or within two pixels of its height |
| WindowSaves.ExpansionIsSaved | cross-platform-overlay/main.js:1864-1883 | the save during an expansion that writes one pixel as the height |
| SizeDrift.OverlayBounds.PersistBounds | cross-platform-overlay/main.js:1864-1883 | what is saved is the pre-modal size while a modal is open and the remembered height while collapsed, else the observed size with drift snapped away |
| SizeDrift.OverlayBounds.GrowWindowForModal | cross-platform-overlay/main.js:1925-1955 | a modal grows the window once, from a size snapped to the last cycle's, and not while it is collapsed or being animated |
| SizeDrift.OverlayBounds.RestoreWindowAfterModal | cross-platform-overlay/main.js:1957-1969 | closing commands the remembered size |
| SizeDrift.DriftIsBounded | cross-platform-overlay/main.js:1864-1969 | every size saved in a session is within four pixels of the opening size, the size given back within two |
| SizeDrift.RestoredSizeIsFixed | cross-platform-overlay/main.js:1925-1969 | the size given back never changes after the first modal |
| SizeDrift.NoDriftExactly | cross-platform-overlay/overlay-core.js:435-498 | only the opening size is ever saved exactly when the window is roomy enough that no modal grows it |
| SizeDrift.SessionsAddUp | cross-platform-overlay/overlay-core.js:409-427 | from session to session the error adds up, four pixels each |
| WindowSaves.ModalRoundTrip | cross-platform-overlay/main.js:1925-1969 | an open modal has the room it needs as far as the display allows, no window shrinks for it, and closing it gives the size back, up to the display's two pixels each time |
| WindowSaves.ModalKeepsOut | cross-platform-overlay/main.js:1925-1969 | a modal leaves a collapsed or animated window alone, opened and closed |
| WindowSaves.ResizeIsSaved | cross-platform-overlay/overlay-core.js:435-453 | a resize beyond two pixels is saved as it is, a smaller one not at all |
| WindowSaves.OpenModalIsNotSaved | cross-platform-overlay/main.js:1864-1883 | while a modal is open the size from before it is saved, whatever the window measures |
| Keybinds.ParseKeybindsCfg | cross-platform-overlay/main.js:1631-1643 | the loop over the lines reads what the specification reads |
| Keybinds.WriteKeybindsCfg | cross-platform-overlay/main.js:1650-1660 | the loop over the actions writes what the specification writes |
| Keybinds.BuildKeybindMap | cross-platform-overlay/overlay-core.js:141-159 | the loop over the party channels resolves what the specification resolves |
| Keybinds.BuildExact | cross-platform-overlay/overlay-core.js:141-159 | the resolved map has the sixteen actions and no other, each from the file, the defaults or blank |
| Keybinds.ParseClean | cross-platform-overlay/main.js:1631-1643 | every value read from any text is trimmed and on one line |
| Keybinds.RoundTripExactly | cross-platform-overlay/main.js:1631-1660 | a full map survives writing and reading exactly when its values are trimmed and on one line |
| Keybinds.ResolvedRoundTrip | cross-platform-overlay/main.js:1606-1660 | for every file text, what is resolved and written reads back the same on all sixteen actions and no other key |
| Keybinds.LoopSettles | cross-platform-overlay/main.js:1685-1712 | the write, watch, write loop stands still after one notification, even without the comparison with the last written text |
| Keybinds.KeybindFile.OnNotification | cross-platform-overlay/main.js:1692-1712 | an own echo, an empty file and an unchanged map do nothing; anything else is registered and written back |
| Keybinds.KeybindFile.RegisterHotkeys | cross-platform-overlay/main.js:3865-3878 | registering puts the resolved map in force and writes it |
| KeybindEdits.LineExactly | cross-platform-overlay/main.js:1631-1643 | a line binds a name exactly as it reads, cut at its first equals sign and trimmed, unless it is a comment or has no name |
| KeybindEdits.FileReads | cross-platform-overlay/main.js:1631-1643 | a name is bound exactly if some line binds it, and to what the last such line says |
| KeybindEdits.EditTakesEffect | cross-platform-overlay/main.js:1685-1712 | a notification, exactly: an own echo, an empty or an unchanged file does nothing; after any other each action is what the file's last line for it says, or its default, and the file says just that |
| Presence.PresenceGate.OnScan | cross-platform-overlay/main.js:1149-1168 | the rest of the overlay is told exactly when the committed state changes |
| Presence.FlipsExactly | cross-platform-overlay/overlay-core.js:244-254 | a scan flips the state exactly when it ends two (launch) or three (exit) scans in a row of the new value |
| Presence.ConsecutiveScansFlip | cross-platform-overlay/overlay-core.js:244-254 | that many scans of one value settle on it, whatever came before |
| Presence.FlipsAreRare | cross-platform-overlay/overlay-core.js:244-254 | k flips from not running take at least 2⌈k/2⌉ + 3⌊k/2⌋ scans |
| FocusWorker.WindowsFocusWorker.constructor | cross-platform-overlay/windows-focus-worker.js:59-64 | a new worker has no helper and no request |
| FocusWorker.WindowsFocusWorker.StartHelper | cross-platform-overlay/windows-focus-worker.js:65-79 | one helper at a time, none before the back-off or after disposal |
| FocusWorker.WindowsFocusWorker.MakeRequest | cross-platform-overlay/windows-focus-worker.js:106-114 | a request retires a helper with an older one pending, and exists only with a helper |
| FocusWorker.WindowsFocusWorker.FlushRequest | cross-platform-overlay/windows-focus-worker.js:115-121 | a ready helper gets the pending command once |
| FocusWorker.WindowsFocusWorker.CancelRequest | cross-platform-overlay/windows-focus-worker.js:122-127 | cancelling retires the exact helper without back-off |
| FocusWorker.WindowsFocusWorker.StopHelper | cross-platform-overlay/windows-focus-worker.js:128-139 | stopping drops helper and request, and backs off if asked |
| FocusWorker.WindowsFocusWorker.OnOutput | cross-platform-overlay/windows-focus-worker.js:80-99 | the current helper's lines are taken one by one, even past a line that stopped it |
| FocusWorker.WindowsFocusWorker.OnStartupTimeout | cross-platform-overlay/windows-focus-worker.js:75 | only the current helper that is not ready yet is given up |
| FocusWorker.WindowsFocusWorker.OnEnded | cross-platform-overlay/windows-focus-worker.js:100-104 | only the current helper's end stops the worker |
| FocusWorker.WindowsFocusWorker.OnRequestTimeout | cross-platform-overlay/windows-focus-worker.js:112 | only the request that is still pending times out |
| FocusWorker.WindowsFocusWorker.DisposeHelper | cross-platform-overlay/windows-focus-worker.js:140 | disposal is final |
| FocusWorker.CommandsAreSafe | cross-platform-overlay/windows-focus-worker.js:65-140 | over every run: no spawn before its back-off or after disposal, each command written at most once and only to its own helper, none to a helper that owes an answer, a pending request has its helper |
| FocusRequests.RequestsAreAccounted | cross-platform-overlay/windows-focus-worker.js:80-140 | over every run each request ends only by an answer of its own helper under its own number or by a stop, and is pending until then |
| FocusRequests.FormerHelpersAreMute | cross-platform-overlay/windows-focus-worker.js:73-104 | after a helper was given up, every run goes as if its output, its end and its start-up timer had never come |
| FocusExact.ReadyMeansSent | cross-platform-overlay/windows-focus-worker.js:80-121 | over every run a helper that is ready has been sent what is pending |
| FocusExact.RequestServedExactly | cross-platform-overlay/windows-focus-worker.js:65-121 | over every run a request is made of a helper exactly when there is one that owes nothing or one can be spawned with no failure in the last five seconds; it is written at once exactly to a ready one |
| FocusExact.PutAwayExactly | cross-platform-overlay/windows-focus-worker.js:75-139 | what puts a helper away, when, and with which back-off |
| FocusExact.AnswerEnds | cross-platform-overlay/windows-focus-worker.js:80-99 | an answer under the pending number ends the request and leaves the helper; other lines change nothing |

## Left out

- Times and ages are real numbers, and the clock is taken never to go back.
- Text length counts characters, and lower-casing covers the ASCII letters only.
- The list of observed names in the evidence is sorted in the code; the model compares it as a multiset, which agrees.
- Texts used as set keys (`provider/session/world`) are values in the model; `SpellInjective`, `SpelledMembership` and `SpelledMarkersAgree` prove that the texts decide the same.
- JSON text, byte limits of the export text, and the reading of the file itself: a document that cannot be read, is too long or is no JSON is the missing document.
- File discovery is an input that lists every file once, as `cross-platform-overlay/local-bridge-paths.js:106` makes sure.
- A callback of the relay that throws inside the watcher's pass, and the timing diagnostics.
- A chat or status frame whose payload is not an object, and exceptions of `send` on a closing socket.
- LogIn: the requests that lead to a login and the state saved after it; only the token and the opens that waited are modelled.
- OnSockMessage: the update notice and its comparison of versions.
- OnSockClose: the special wording for an outdated build.
- How the wanted state is derived (the game runs and the overlay is known to share its display) and the shell scripts of the compositor helpers; a helper succeeds or fails.
- CouplingHolds: after quitting has begun the bridge keeps no owner, so its token is no longer compared with the session's.
- RestAgreesExactly: nothing but the helper's own dispatches moves the window's pin.
- RecoverableExactly: the user changes no panel meanwhile, and a save answer lists every panel.
- UnchangedStaysCurrent: an unchanged file is one that repeats the stored snapshot while fewer than 512 keys are retired; with more, the code refuses it, as FullRetirementEndsLiveness says.
- HeightIsRecoveredExactly: no deliberate resize, modal, reload or change of display between collapse and expansion, and the window lands where it is told to.
- ExpandFromHeader: the native minimum and maximum sizes, the focus it may ask for, and widths and positions.
- SavesAreHomeExactly: widths do not change meanwhile, and the window lands where it is told to.
- DriftIsBounded: no deliberate resize, drag or collapse in the session, and every size lands within two pixels.
- The header text of the keybind file is any block of blank and comment lines, as the real one is.
- OnNotification: the two-second and the debounce guards, which only leave notifications out.
- OnOutput: how chunks are put together into lines, and the helper's own script.
- The overlay's windows, tray, menus, rendering, onboarding, account pages and the server.
- `cross-platform-overlay/native-bridge-prototype.js`, a development variant of the relay.
