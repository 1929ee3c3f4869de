# fctrl: a verified model

fctrl is an agent that owns a Factorio installation and its server process, and a management
server that talks to the agent over one WebSocket. This project models the parts of it that carry
real obligations, and proves what they promise, for every input, every run and every interleaving.

- **Agent tasks** (`AgentMachine`, `AgentInvariant`, `AgentVersions`, `AgentRuns`, `AgentReports`,
  `AgentOutcomes`, `AgentInstalls`, `AgentUpgrade`, `AgentFailures`, `AgentProgress`, `AgentScan`).
  The request handlers as interleaved tasks over the version map with its read/write lock, the
  instance slot with its mutex, and the live processes, which may exit at any step. A handler can be
  overtaken wherever it waits for a lock, a download, a process or its final reply; lock waits,
  time-outs, downloads, signals and spawns are choices of the environment. The final reply is a step
  of its own: the instance mutex is free by then and the version guard is still held. An Ack or a
  progress reply goes out with the step before it, as it changes only the handler's own trace. A
  dropped process handle kills its process, as `kill_on_drop` does
  (src/agent/server/builder.rs:190).
- **Event broker and operations** (`EventBroker`, `EventBrokerRuns`, `EventBrokerLag`, `Operations`,
  `OperationProofs`, `OperationClients`, `OperationTrace`, `AgentReplies`, `AgentProtocol`,
  `AgentDelivery`). Topics created on demand by competing publishers and subscribers, bounded
  broadcast channels that lag, and on top of them the request/response protocol keyed by operation
  id, which the agent's handlers follow.
- **Metric index** (`ByteOrder`, `MetricKeys`, `SortedStore`, `MetricRoute`, `MetricRouteProofs`,
  `MetricPaging`). The 64-byte keys, the range scan with its continuation, the writer and the
  route, compared with the plain specification: filter, sort, take `count`.
- **Log console** (`LogConsole`). The backward paging of the log viewer, with any number of requests
  in flight.
- **Save transfer** (`SaveTransfer`). The upload splitter, writes at offsets, the sentinel, the
  chunked download.
- **Mod directory** (`ModFilenames`, `ModReconciliation`). The delta, tasks that end in any order
  and any way, file names, the mod list.
- **Keep-alive** (`KeepAlive`). The ping task and the reader over one atomic counter; Ping and Pong
  are the frames of sections 5.5.2 and 5.5.3 of RFC 6455.

Mutable objects of the source are classes (`Db`, `SystemLogView`, `SaveDirectory`, `ModDirectory`),
its loops are methods with invariants, and its concurrent tasks are state machines. `Basics` has the
definitions they share.

## Where the code does not keep a promise

Each of these has a run or an input at which the promise fails, and a theorem with the exact
condition under which it holds.

- An agent that is started again finds an installed version exactly when its directory is of the
  legacy naming scheme; versions 2.x and 1.2x are no longer seen (`RestartFindsExactlyWhen`,
  `ModernExactlyWhen`, `ModernVersionIsLost`).
- The metric route is wrong for a start tick above `MAX_TICK`, unless the number begins with twelve
  nines: a longer number sorts right after its own leading twelve digits
  (`UnfaithfulStartFails`, `RouteAgreesExactlyWhen`).
- Following the metric route's `next` loops or repeats exactly when the pages end on the metric's
  last point and the record behind it, which belongs to another metric, has a tick that is not past
  that point; one batch with two metrics is enough (`TwoMetricsLoopForever`,
  `FollowingNextIsExactWhen`).
- `version_install` reports success without restarting the server exactly when stopping it reported
  an error (`StopErrorLosesTheServer`, `CompletedInstall`).
- When the removal of a previous version fails, both versions stay, and a later install can
  overwrite an installation while a process runs from it (`FailedRemovalLeadsToOverwrite`). From any
  quiet point on, installations in use are safe exactly when at most one version is installed
  (`SafeExactlyWhen`).
- A handler's final reply goes out after the instance mutex is free, so it can be out of date:
  `server_stop` can report Completed with a server running (`StopReportsWhileAnotherRuns`). Nothing
  runs when a stop is reported exactly when every process started meanwhile has exited or been
  stopped, and nothing has run since exactly when none was started (`NothingOldAtReply`).
  `server_start` can report Completed when its server has exited (`StartReportsAfterExit`); a started
  server still runs when it is reported exactly when it has neither exited nor been asked to stop
  (`StartedServerAtReply`).
- `ModManager::apply` reports success although a task panicked (`PanicIsReportedAsSuccess`,
  `OkIsExactWhen`), and a mod that shares its name with a DLC is read back as that DLC
  (`ModReadAsDlc`, `DlcsReadBackExactlyWhen`).
- The log viewer's button stays enabled while a page loads. Asking twice before the first answer is
  shown puts the same page on the screen twice (`AskingTwiceRepeats`); no record appears twice exactly
  when every page is shown while the marker is still the one it was asked for at
  (`ConsoleRebuildsTheLog`).
- The keep-alive task can give up after two unanswered pings instead of three
  (`AnAnsweredPingCanCount`): exactly when the last Pong arrived between a ping and its increment
  (`ThreePingsExactlyWhen`).

## Model

| member | source | states |
|---|---|---|
| AgentRuns.AtMostOneProcess | src/agent/server/proc.rs:71-142 | In every reachable state at most one process is alive, hosted and save-creating ones together, across start, stop, status clean-up and spontaneous exit. |
| AgentRuns.RestartIsUndisturbed | src/agent/main.rs:613-726 | From the stop inside `version_install` to its restart the slot is empty and nothing runs, and stays so whatever any other task does next; the restart therefore never finds a running process, and the version it unwraps is there. |
| AgentRuns.HandlersDeliver | src/agent/server/proc.rs:63-194 | At the step that settles its success, from whichever point, `server_start` has just started a process that is the only live one and hosts the requested savefile; `server_stop`, `save_create` and a `server_status` that finds nothing running, at its first or second look, have nothing alive and the slot empty. A `server_start` that fails changes nothing. |
| AgentReports.StartedServerAtReply | src/agent/main.rs:987-995 | When `server_start` sends Completed, whatever happened in between, the process it started serves the savefile, as the only one alive, if and only if it has not exited and no stop has begun since; the versions are those it chose from. |
| AgentReports.NothingOldAtReply | src/agent/main.rs:998-1023 | When `server_stop`, `save_create` or a `server_status` that found nothing running, at its first or second look, sends Completed, and ever after, no process from before is alive; nothing runs if and only if every process started meanwhile has exited or been stopped, and nothing has run since if and only if none was started. |
| AgentReports.ProcessesBalance | src/agent/server/proc.rs:63-194 | Over any run, what is alive at the end is exactly what was alive and what was started, less what exited or was stopped; no process comes back. |
| AgentReports.VersionsAreHeld | src/agent/main.rs:571-735 | While a handler with a version guard waits to reply the versions stay as they are, and with the write guard no process is started. |
| AgentOutcomes.FailsExactlyWhen | src/agent/main.rs:565-1150 | From its request on and whatever it is interleaved with, any handler reports Failed exactly when one of its own steps met an error it does not tolerate (a time-out, a failed step or removal, no version, an occupied or empty slot), and Completed otherwise. |
| AgentOutcomes.StopAndStatusNeverFail | src/agent/main.rs:998-1024 | Whatever happens meanwhile, `server_stop` and `server_status` never report Failed. |
| AgentOutcomes.NotInstalledIsCurrent | src/agent/main.rs:761-779 | When `server_start` or `save_create` is refused for want of a version, there is still none when the refusal goes out. |
| AgentOutcomes.RconNeedsServer | src/agent/server/proc.rs:144-155 | An `rcon_command` succeeds only where a server is in the slot. |
| AgentOutcomes.AcknowledgesWithLock | src/agent/main.rs:571-735 | When `version_install` or `save_create` is about to report, it has acknowledged if and only if it got the version lock. |
| AgentOutcomes.StartDelivers | src/agent/main.rs:761-1000 | From the request for a savefile on, a `server_start` that settles on Completed has just started a process that hosts this savefile, from an installation in place, as the only one alive. |
| AgentOutcomes.CreateDelivers | src/agent/main.rs:1026-1144 | From its request on, a `save_create` that reports has left no process of its own alive, and reports Completed only when it has started one process and that has exited by itself. |
| AgentOutcomes.PollFindsOut | src/agent/server/proc.rs:169-194 | A `server_status` whose poll works clears the slot exactly when the hosted process is gone; a poll that errs changes nothing. |
| AgentFailures.StopReportsWhileAnotherRuns | src/agent/main.rs:998-1001 | From the agent's start, a run in which `server_stop` is stopping a live server, then a server with a later process is hosted while the stop is about to send Completed, and still is once it has. |
| AgentFailures.StartReportsAfterExit | src/agent/main.rs:987-995 | From the agent's start, a run in which `server_start` has hosted its server, the server exits, and Completed is sent with nothing alive. |
| AgentFailures.CrashedServerIsReplaced | src/agent/server/proc.rs:169-194 | A crashed server still fills the slot; a run in which `server_status` clears it and `server_start` then hosts a new one. |
| AgentRuns.RepliesConform | src/agent/main.rs:466-540 | Every handler's replies are an optional Ack, progress only after an Ack, and exactly one final status when it ends, with nothing after it; a handler whose client expects no Ack sends the final status alone. |
| AgentRuns.RunningVersionsAreInstalled | src/agent/main.rs:571-709 | In every run whose removals succeed, at most one version is installed whenever no install holds the lock, and every live process runs from an installed version. |
| AgentRuns.InstallationsInUseAreSafe | src/agent/main.rs:577-709 | In every such run, no task is unpacking over the directory of a live process or deleting a version while a process is alive. |
| AgentRuns.RunKeeps | src/agent/server/proc.rs:63-194 | Every run keeps the invariant: who holds which guard at which point, one owner per live process, what each point of `version_install` may rely on. |
| AgentRuns.RunKeepsVersions | src/agent/main.rs:763-779 | Every run whose removals succeed keeps exactly the versions each point of an install expects, and readers' chosen installations stay installed. |
| AgentInvariant.ActKeeps | src/agent/main.rs:565-1150 | One step of any handler, at any point, keeps the invariant of all tasks and changes only its own task, its own guards and what they protect. |
| AgentInvariant.OthersKeep | src/agent/server/proc.rs:71-142 | What a step may change under the guards it holds never breaks what another task relies on. |
| AgentProgress.SomeoneIsFree | src/agent/server/proc.rs:71-142 | In every state that keeps the invariant, if any handler is unfinished then some unfinished handler waits for no lock: the locks form no cycle. |
| AgentProgress.EveryScheduleEnds | src/agent/main.rs:565-1150 | No deadlock, no livelock: from every reachable state, any schedule without new requests is bounded in length, progress reports apart, and where nothing more can happen but a time-out, a failure or the exit of a server, every handler has ended and every lock is free; a running server is no obstacle. |
| AgentProgress.EveryHandlerCanEnd | src/agent/main.rs:565-1150 | From every reachable state there is a continuation without time-outs, failures, exits of servers or new requests in which every handler sends its last reply and all locks are free; where no handler is an install or about to stop a server, the hosted server runs on. |
| AgentUpgrade.CompletedInstall | src/agent/main.rs:577-731 | Starting with at most one version, a `version_install` that succeeds has restarted the instance it stopped, on the requested version and with the same savefile, if and only if the stop reported no error; when it sends Completed that version is still the only one, and the instance still runs if and only if in addition it has not exited and no stop has begun; any interleaving. |
| AgentInstalls.UnforcedInstallChangesNothing | src/agent/main.rs:599-607 | An install of the installed version that is not forced changes neither versions nor slot nor processes by any of its steps, downloads nothing, and reports Completed, whatever it is interleaved with. |
| AgentInstalls.DownloadsExactlyWhen | src/agent/main.rs:577-667 | An install that reports success has unpacked the version if and only if it was forced or found the version missing. |
| AgentInstalls.InstallNarrates | src/agent/main.rs:577-731 | A successful install has sent its Ack and exactly the progress messages that belong to what it found and to whether the stopped server came back. |
| AgentUpgrade.FailedDownload | src/agent/main.rs:651-667 | A failed download in an upgrade ends in Failed with the versions as the operation found them until the reply is out, and no step of the operation has touched the slot or a process. |
| AgentFailures.StopErrorLosesTheServer | src/agent/main.rs:612-731 | From the agent's start, a run in which a forced reinstall is stopping a live server, that stop fails, and the reinstall ends with Completed and nothing running. |
| AgentFailures.FailedRemovalLeavesBoth | src/agent/main.rs:694-699 | A failed removal leaves both versions installed and nothing running until the failure is reported. |
| AgentFailures.FailedRemovalLeadsToOverwrite | src/agent/main.rs:577-699 | From the agent's start, a run in which a removal fails and a later install unpacks over the installation a process runs from. |
| AgentFailures.LeftoverIsOverwritten | src/agent/main.rs:577-667 | Wherever two versions are installed, nothing runs and nobody holds a guard, a run without failed removals overwrites an installation in use. |
| AgentFailures.SafeExactlyWhen | src/agent/main.rs:571-709 | At any point of any run where nothing runs and nobody holds a guard, every continuation whose removals succeed keeps installations in use safe if and only if at most one version is installed. |
| AgentMachine.DirNamesDiffer | src/agent/factorio.rs:108-125 | Installation directory names determine version and naming scheme, so no two versions share a directory. |
| AgentScan.ScanInstallDir | src/agent/factorio.rs:27-58 | In whatever order the directories come, the scan finds exactly the versions that have a directory of the legacy scheme. |
| AgentScan.RestartFindsExactlyWhen | src/agent/factorio.rs:38-125 | What a new agent finds is what was installed if and only if no installed version is of the modern scheme; modern ones are not found. |
| AgentScan.ModernExactlyWhen | src/agent/factorio.rs:120-125 | A version's directory is of the modern scheme exactly when the version starts with 2. or 1.2. |
| AgentScan.ModernVersionIsLost | src/agent/factorio.rs:38-46 | After an install of 2.0.28 an agent that is started again finds nothing; after one of 1.1.104 it finds that version. |
| EventBrokerRuns.OneChannelForever | src/mgmt-server/events/broker.rs:83-110 | A topic keeps the one channel it was first given through every run, however many tasks found it missing; its log only grows, and no two topics share a channel. |
| EventBrokerRuns.PublishedEventArrives | src/mgmt-server/events/broker.rs:23-55 | A publisher that starts after a subscription exists and runs to its end sends its event exactly once to each of its topics, and the event is in the subscription's channel. |
| EventBrokerRuns.ChannelGainsWhatIsSent | src/mgmt-server/events/broker.rs:23-55 | While a subscription lives, its channel gains exactly what is sent to its topic, in order. |
| EventBrokerRuns.NothingLostWithoutLag | src/mgmt-server/events/broker.rs:57-80 | What an unlagged live subscriber was given, followed by what it wants of the waiting events, is what it wants of everything sent since it subscribed. |
| EventBrokerRuns.LagsExactlyWhen | src/mgmt-server/events/broker.rs:71-75 | Over any run a subscriber's lag is reported exactly when some poll finds more waiting than the channel's capacity. |
| EventBrokerLag.LosesExactly | src/mgmt-server/events/broker.rs:57-80 | Over any run, lagging or not, a subscriber is given in order what it wants of all that its channel held where it has read, less exactly the events beyond the capacity at the polls that found it behind. |
| EventBrokerLag.PollsGiveTheLast | src/mgmt-server/events/broker.rs:57-80 | Polling until nothing waits gives a subscriber what it wants of the last `capacity` waiting events, in order. |
| EventBrokerLag.DroppedHearsNothing | src/mgmt-server/events/broker.rs:57-80 | A dropped subscriber is given nothing more. |
| EventBrokerRuns.NextOnce | src/mgmt-server/events/broker.rs:57-80 | Lagging or not, a subscriber is given no event more often than it was sent. |
| EventBroker.NextKeeps | src/mgmt-server/events/broker.rs:23-110 | Every step of any publisher, subscriber or receiver keeps topics and channels in one-to-one correspondence and every publisher's sends equal to a prefix of its topics. |
| OperationClients.EveryRunDelivers | src/mgmt-server/clients.rs:449-486 | In every run a client that listens and has not lagged has been given, in order and once, a prefix of exactly its own operation's trace, the rest being in its channel, being published or on the wire; every request handed over starts one handler. |
| OperationClients.FusedStreamIsTheTrace | src/mgmt-server/clients.rs:674-727 | When the fused stream closes, Ack plus its items is the whole trace of the operation, which has ended, and the last item is its final status. |
| OperationClients.OpenWhileRunning | src/mgmt-server/clients.rs:701-727 | The fused stream is not closed while the operation still runs. |
| OperationClients.FirstDecides | src/mgmt-server/clients.rs:654-693 | `response_or_timeout` and `ack_or_timeout` depend on the operation's first status alone: one returns it, the other goes on exactly if it is an Ack and refuses exactly if it is final. |
| OperationClients.SingleAnswer | src/mgmt-server/clients.rs:654-693 | For an operation that never acknowledges, `response_or_timeout` sees the only status there is, a final one, and `ack_or_timeout` refuses it. |
| OperationClients.HandedOverIsNew | src/mgmt-server/clients.rs:558-569 | What the connection hands over next is a request for an operation with no handler yet, even when its own subscription lags. |
| AgentReplies.EveryReplyMayFollow | src/agent/main.rs:466-540 | Every reply any handler sends, in any run, is one the protocol allows after those before it, and a handler whose client expects no Ack never sends one. |
| AgentReplies.WorldFollowsHandler | src/agent/main.rs:466-540 | Whatever a handler sends in a step, the protocol's world can emit for its operation, so that it has emitted exactly the handler's replies. |
| AgentProtocol.EveryRunIsServed | src/agent/main.rs:466-540 | Every run of the agent is part of a run of the whole protocol from nothing exchanged on: requests arrive through broker and connection, the operations are those of the handlers, and each has emitted exactly its handler's replies. |
| AgentDelivery.EveryClientHears | src/mgmt-server/clients.rs:449-727 | Every run of the agent is part of a run of the whole protocol from nothing exchanged on, at whose end every operation's client listens and has been given exactly its handler's replies; for a handler that has ended, the acknowledged operation's fused stream may close and any other client has its one final answer. |
| OperationProofs.FlowStep | src/mgmt-server/clients.rs:571-609 | Every step keeps, for every operation: what the agent sent is in the channel, in the incoming task's hands or on the wire, in that order. |
| MetricKeys.NewAccepts | src/mgmt-server/metrics.rs:29-67 | `DataPoint::new` accepts exactly names of at most 44 bytes without a `#` and ticks of at most twelve digits. |
| MetricKeys.KeyIsSixtyFourBytes | src/mgmt-server/metrics.rs:172-183 | A key is 64 bytes if and only if its tick is at most `MAX_TICK`. |
| MetricKeys.KeyRoundTrip | src/mgmt-server/metrics.rs:69-103 | `try_from` on a written key recovers period, name and tick. |
| MetricKeys.AcceptedIsWhatReadsBack | src/mgmt-server/metrics.rs:29-103 | A point whose name fits is accepted if and only if its key reads back as that point. |
| MetricKeys.ForeignKeys | src/mgmt-server/metrics.rs:69-103 | Of keys that nobody wrote, only those of 64 bytes are read, those whose fields begin inside a character panic, and whatever is read is an acceptable point. |
| MetricKeys.KeysAreInjective | src/mgmt-server/metrics.rs:172-183 | Different points never share a key. |
| MetricKeys.KeyOrder | src/mgmt-server/metrics.rs:159-183 | Bytewise order on keys of one period is lexicographic order on (padded name, tick number). |
| MetricKeys.MetricsAreContiguous | src/mgmt-server/metrics.rs:172-183 | Between two keys of a metric lie only keys of that metric, with ticks between theirs. |
| MetricKeys.TickTextOrder | src/mgmt-server/metrics.rs:159-167 | How a stored tick's text compares with any looked-up tick's, also past `MAX_TICK`. |
| SortedStore.PutUpdates | src/mgmt-server/db.rs:94-99 | Writing is a map update on the store's contents. |
| SortedStore.SeekYields | src/mgmt-server/db.rs:55-76 | An inclusive seek yields exactly the records at or past the key, in the asked direction and order. |
| SortedStore.EndsYield | src/mgmt-server/db.rs:78-92 | Head and tail reads see every record, in ascending and descending key order. |
| SortedStore.ReadRangeInternal | src/mgmt-server/db.rs:121-156 | The iterator loop returns the first `count` records of the scan and the key of the one after them, if any. |
| SortedStore.ContinuationResumes | src/mgmt-server/db.rs:143-149 | Reading on from a continuation key yields the same scan without its first page. |
| SortedStore.FollowPages | src/mgmt-server/db.rs:55-92 | Following continuations from any start in either direction terminates and yields the whole scan, nothing lost or repeated. |
| SortedStore.Db.Write | src/mgmt-server/db.rs:94-99 | A write puts one record into its family and changes no other family. |
| SortedStore.Db.ReadRange | src/mgmt-server/db.rs:55-92 | A read returns the first page of the scan and changes no family's contents. |
| SortedStore.Db.GetOrCreate | src/mgmt-server/db.rs:109-119 | Creating a family on first use changes no contents. |
| MetricRoute.PutMirrors | src/mgmt-server/rpc.rs:101-114 | Writing a point's record keeps the family equal to the map of points, updated at that point. |
| MetricRoute.Stream | src/mgmt-server/rpc.rs:84-117 | A batch, in any order of its hash map, stores exactly its accepted points; rejected points, other families and so all other periods are untouched. |
| MetricRoute.CollectRecords | src/mgmt-server/routes/metrics.rs:62-94 | The record loop equals the recursive specification: unreadable records skipped, cut at the first foreign metric. |
| MetricRouteProofs.Get | src/mgmt-server/routes/metrics.rs:14-115 | The route rejects a bad period, name or direction in this order. On a written store it answers, without `from`, the first `count` of all the metric's points in the asked direction, and with a faithful `from` the reference; the store stays as it was. |
| MetricRouteProofs.RouteAnswers | src/mgmt-server/routes/metrics.rs:37-94 | On any written store and any `from`, one page is the first `count` points the lookup reaches; `next` is none when the metric is exhausted, and otherwise the next record's tick. |
| MetricRouteProofs.RouteMatchesReference | src/mgmt-server/routes/metrics.rs:37-94 | On any written store the points equal the reference: filter by name and tick, sort in the asked direction, take `count`. |
| MetricRouteProofs.RouteAgreesExactlyWhen | src/mgmt-server/routes/metrics.rs:37-55 | The route agrees with the reference on every written store if and only if `from` is at most `MAX_TICK` or begins with twelve nines. |
| MetricRouteProofs.UnfaithfulStartFails | src/mgmt-server/routes/metrics.rs:37-55 | Any other `from` goes wrong on a store of one point: returned forward, missed backward. |
| MetricPaging.FollowingNextIsExactWhen | src/mgmt-server/routes/metrics.rs:57-94 | From a start tick up to `MAX_TICK` (or beginning with twelve nines), following `next` ends and yields the metric's points at or past `from`, each once and in order, if and only if the pages do not end on the last point with a foreign record behind whose tick is not past it. |
| MetricPaging.FollowingNextFromAnywhere | src/mgmt-server/routes/metrics.rs:57-94 | The same from any start tick, for the points the lookup reaches from it. |
| MetricPaging.WalkIsExactWhen | src/mgmt-server/routes/metrics.rs:57-94 | The same equivalence for any source of pages with these properties. |
| MetricPaging.TwoMetricsLoopForever | src/mgmt-server/routes/metrics.rs:57-60 | After one batch with two metrics, reading the first of them one point a page never ends. |
| MetricRoute.InOrderIsUnique | src/mgmt-server/routes/metrics.rs:62-94 | An already ordered sequence of ticks is the sorted form of its elements, so the reference has one answer. |
| LogConsole.TextToPrepend | web/src/app/logs/system/system.component.ts:94-102 | The loop from the last line of a page to the first renders the page in ascending order. |
| LogConsole.TextShowsEveryLine | web/src/app/logs/system/system.component.ts:115-119 | The text determines every line: lists of lines with equal text have the same timestamps and contents. |
| LogConsole.SystemLogView.ShowPage | web/src/app/logs/system/system.component.ts:94-110 | A page is put in ascending order before the text, and the marker becomes the page's continuation, whatever else is in flight. |
| LogConsole.SystemLogView.Perform | web/src/app/logs/system/system.component.ts:44-113 | Whatever happens next, a click, an answer from the store, a page shown or lost, a live line or a record stored, the page object and the store behind it go on as one step of the run that `ConsoleRebuildsTheLog` is about. |
| LogConsole.ConsoleRebuildsTheLog | web/src/app/logs/system/system.component.ts:81-113 | Over any run with any number of requests in flight, answered, shown or lost in any order, and live lines and newer records at any point: no record is shown twice if and only if every page was shown while the marker was the one it was asked for at (or there are none). Then the text is exactly the newest 50 records per page at or before the start, ascending, before the live text, and the marker is gone exactly when all are shown. |
| LogConsole.AskingTwiceRepeats | web/src/app/logs/system/system.component.html:5-6 | Two clicks before the first answer is shown put records on the screen twice, on every store with something to show. |
| LogConsole.SystemLogView.StreamLogs | web/src/app/logs/system/system.component.ts:44-54 | The first marker is the key of the newest stored line. |
| LogConsole.WholeLogIsShown | web/src/app/logs/system/system.component.ts:44-113 | From that marker, enough pages, each shown in time, put the whole stored log on the screen. |
| LogConsole.PutAbove | src/mgmt-server/db.rs:94-99 | Inserting a larger key leaves everything at or below a key alone, so backward paging is not disturbed. |
| SaveTransfer.UploadSavefile | web/src/app/dashboard2/dashboard2.component.ts:206-249 | The loop terminates for every size and sends exactly the planned messages. |
| SaveTransfer.PlanPartitions | web/src/app/dashboard2/dashboard2.component.ts:211-249 | Non-empty chunks of at most the chunk size partition the file, and the one sentinel comes last at the offset equal to the size. |
| SaveTransfer.PiecesFit | src/agent/main.rs:1186 | Uploaded pieces have at most 2,000,000 bytes, downloaded ones at most 8,000,000. |
| SaveTransfer.SaveDirectory.SetSavefile | src/agent/util/saves.rs:67-104 | One message overwrites, writes at an offset or sets the length of its file, which is created when missing, and changes no other file. |
| SaveTransfer.WholeAndLength | src/agent/util/saves.rs:67-104 | A message without an offset replaces its file; one without bytes sets its length, with zeros for what is missing. |
| SaveTransfer.UploadsDoNotMeet | src/agent/util/saves.rs:67-104 | Any number of uploads to different saves, their messages interleaved in any order and with repeats, leave each uploaded save with exactly its data and every other save as it was. |
| SaveTransfer.SavesAreSeparate | src/agent/util/saves.rs:67-104 | Whatever messages arrive, each save ends as the messages for it alone, in their order, leave it. |
| SaveTransfer.UploadIsExactWhen | src/agent/util/saves.rs:73-91 | Messages of an upload, in any order and with repeats, leave exactly the data over every previous content if and only if every chunk and the sentinel are among them. |
| SaveTransfer.UploadArrives | src/agent/util/saves.rs:73-91 | A complete set of messages in any order leaves exactly the data. |
| SaveTransfer.SaveGet | src/agent/main.rs:1182-1215 | `save_get` sends the download of the save's content, or one failure. |
| SaveTransfer.DownloadIsFinished | src/agent/main.rs:1185-1202 | A download is an acknowledged, finished trace. |
| SaveTransfer.UploadThenDownload | src/mgmt-server/routes/download.rs:41-73 | Uploading in any order over any previous file and downloading through the reassembled stream gives back the same bytes. |
| SaveTransfer.UploadsThenDownloads | src/mgmt-server/routes/download.rs:41-73 | After any number of complete uploads, interleaved in any way, every uploaded save is downloaded as it was uploaded and every other save as it was before. |
| ModFilenames.ParsesBack | src/agent/server/mods.rs:299-316 | Printing a file name and parsing it gives the mod back if and only if name and version are well formed. |
| ModFilenames.PrintsBack | src/agent/server/mods.rs:299-316 | A parsed file name prints back to itself, so a file stands for at most one mod. |
| ModFilenames.ParsesExactlyTheExpression | src/schema.rs:469-471 | The parser finds a mod exactly when the name is text, an underscore, three numbers with dots between them and `.zip`; its split is the only one. |
| ModFilenames.FilenamesDiffer | src/agent/server/mods.rs:124-149 | Different well-formed mods have different file names, so tasks never share a file. |
| ModReconciliation.CalculateModDelta | src/agent/server/mods.rs:251-271 | Install is desired minus present, delete is present minus desired. |
| ModReconciliation.ReadMods | src/agent/server/mods.rs:54-77 | Reading the directory in any order finds exactly the mods whose archives are there. |
| ModReconciliation.ModDirectory.Apply | src/agent/server/mods.rs:118-185 | Applying leaves what the delta's tasks leave, and reports success exactly when no task returned an error. |
| ModReconciliation.AnyOrderSameDirectory | src/agent/server/mods.rs:140-168 | Every completion order of the tasks leaves the same directory, whatever their endings. |
| ModReconciliation.ReadsBack | src/agent/server/mods.rs:118-185 | Whatever each task's ending, the mods read back are the desired ones less the installs that left no file plus the deletions that did not happen. |
| ModReconciliation.AppliedExactly | src/agent/server/mods.rs:118-185 | If no task fails or panics, reading back gives exactly the desired set and a second apply has an empty delta. |
| ModReconciliation.AppliedContents | src/agent/server/mods.rs:118-200 | However the tasks end, the mod list and settings are written as given, and each new archive holds what its download, or its failed download, left. |
| ModReconciliation.UnrelatedFilesUntouched | src/agent/server/mods.rs:140-160 | Files that are no mod archives, and archives that stay desired, are untouched. |
| ModReconciliation.OkIsExactWhen | src/agent/server/mods.rs:164-184 | An apply that reported success left the desired mods if and only if no task panicked. |
| ModReconciliation.PanicIsReportedAsSuccess | src/agent/server/mods.rs:164-184 | Whatever an apply of any one mod to an empty directory leaves when its install panics: no task has returned an error, which is success, and no mod is installed. |
| ModReconciliation.ReadDlcsFromModList | src/agent/server/mods.rs:273-290 | The loop yields the enabled DLCs, or an error when base is missing. |
| ModReconciliation.EnabledIsNamed | src/agent/server/mods.rs:273-290 | A DLC is read exactly when an enabled element has its name. |
| ModReconciliation.ListedExactly | src/agent/server/mods.rs:340-355 | The written list has exactly the DLCs without a version and the mods with theirs, all enabled. |
| ModReconciliation.DlcsReadBackExactlyWhen | src/agent/server/mods.rs:340-355 | Writing the mod list and reading the DLCs gives the same set if and only if every mod named like a DLC names one already in it. |
| ModReconciliation.DlcsAfterApply | src/agent/server/mods.rs:187-290 | After any apply, however its tasks ended, the DLCs read from the mod list are those written if and only if no mod names another one. |
| ModReconciliation.ModReadAsDlc | src/agent/server/mods.rs:273-290 | A mod list of the base game and a mod called "space-age" is read back as the base game and that DLC. |
| KeepAlive.CounterIsExact | src/mgmt-server/clients.rs:540-555 | Under any interleaving the counter equals the increments since the last Pong and never exceeds 3, and the task gives up only after three increments with no Pong between. |
| KeepAlive.ThreePingsExactlyWhen | src/mgmt-server/clients.rs:540-590 | At every give-up of every run, three pings went unanswered if and only if the last Pong did not arrive between a ping and its increment; otherwise it was two. |
| KeepAlive.AnAnsweredPingCanCount | src/mgmt-server/clients.rs:587-590 | A concrete interleaving gives up with only two pings unanswered. |
| KeepAlive.SilenceEndsIt | src/mgmt-server/clients.rs:540-555 | Without a Pong the task runs for exactly the steps it has left, ten at most, and then gives up. |
| KeepAlive.AnsweredNeverExits | src/mgmt-server/clients.rs:540-590 | A task that gets a Pong between any two of its steps never gives up. |

## Left out

- CompletedInstall: replaying the stopped instance's optional arguments and reading settings, mods and secrets before the start are one nondeterministic success or failure.
- ActKeeps: handlers that touch neither versions nor processes are modelled by their replies alone; what get and set handlers read and write, and validation inside them, would only add single-reply members.
- EveryScheduleEnds: the order in which tokio's locks queue their waiters is not modelled, so waiting for ever behind an endless stream of new requests is not excluded.
- LagsExactlyWhen: the capacity is a parameter; tokio rounds 100 up to the next power of two. The 20-item read-ahead of a stream only moves the point at which an event counts as given.
- EveryRunDelivers: one connection that holds; reconnecting, and losing the WebSocket, are not modelled. Time-outs appear only as a client that has been given nothing yet.
- FusedStreamIsTheTrace: event contents other than the status (messages, chunks) travel with it and are not repeated in the trace.
- KeyRoundTrip: names are byte strings; that they are UTF-8 enters only as not starting with a continuation byte.
- RouteMatchesReference: values are reals; the text form of `f64` and its bits are not modelled.
- Get: the period and the direction come already parsed, as the source's two tables do.
- ConsoleRebuildsTheLog: keys are non-empty and records stored meanwhile sort after the start, as later timestamps do; JSON and the editor widget are not modelled.
- ParsesBack: `\d` is an ASCII digit; other Unicode digits are not modelled.
- Apply: a failed write of the mod list or settings, which ends `apply` early, and an unreadable mod list are not modelled; mod names containing a path separator are treated as plain names.
- SetSavefile: I/O errors and two writers inside one write call are not modelled.
- Lines streamed by the agent carry any tags but the two topics of the protocol; classifying stdout lines is not modelled.
- Network and disk plumbing, RocksDB internals, JSON, TOML and base64 (section 4 of RFC 4648), RCON and Discord.
- OAuth, token caches, request guards; of the `Content-Range` header (section 14.4 of RFC 9110) only the start offset is used.
- The download cache, real time, player counts and server states read from stdout.
