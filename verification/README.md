# Verification of the HCNetSDK-to-HTTP bridge

This project models the hand-written protocols, parsers and encoders around the
bridge's opaque parts (the vendor SDK, sockets, FFmpeg, Windows) and proves
properties of the model with Dafny. `dafny verify dfyconfig.toml` checks it.

External calls are arbitrary: a method either receives what the system will do as
an input (`turns`, `wakes`, `sections`) or makes an arbitrary choice (`*`).
Threads are modelled at the grain of their mutex sections, atomic operations and
system calls, so a run of a transition system is any interleaving. Clocks are
plain numbers. A loop that waits is given an arbitrary number of turns. A method that
may fail says which input made it fail, or that it succeeds when nothing outside
goes wrong (`calm`).

| file | what it models |
|---|---|
| `connection_protocol.dfy`, `protocol_runs.dfy`, `protocol_statuses.dfy`, `protocol_duties.dfy`, `protocol_cleanup.dfy`, `protocol_witnesses.dfy` | acceptor, connection workers, playing sessions, cleanups and shutdown as one transition system, what holds over all its runs, what its runs must do, and which runs exist |
| `session_registry.dfy`, `session_status.dfy` | the C++ session registry (capacity, generation tokens, cancellation) and the short-lived end-of-session statuses |
| `upgrade.dfy` | the Windows upgrade transaction and its rollback |
| `video_pipeline.dfy` | one playback request: codec choice, fallbacks, resource order, response |
| `request_protocol.dfy` | the request as a worker of the connection protocol |
| `chunked_body.dfy` | the chunked response body (section 7.1 of RFC 9112) over partial socket writes |
| `byte_queue.dfy` | the media queue and the pump into FFmpeg |
| `box_splitter.dfy`, `written_boxes.dfy` | the streaming MP4 box splitter of the browser demo, and what it makes of boxes written byte by byte (section 4.2 of ISO/IEC 14496-12) |
| `command_line.dfy` | both Windows argument quoters against the `CommandLineToArgvW` rules |
| `codec_cache.dfy` | the persistent codec cache |
| `query_string.dfy` | query decoding against the application/x-www-form-urlencoded serializer (section 5.2 of the WHATWG URL Standard) |
| `diagnostic_tail.dfy` | the tail of FFmpeg's diagnostics |
| `slot_registry.dfy`, `bounded_queue.dfy` | the C# session registry and byte-bounded queue |
| `bytes.dfy`, `numerals.dfy` | shared facts about sequences and digits |

Code that updates state is written as classes and loops whose methods are proved
against specification functions; lemmas then state what those functions mean.

Seven statements are sharper than what the code or its comments suggest:

- When memory runs out for the Lease object after a session was registered, the
  session stays registered for good. Its slot is lost, after the next cleanup
  `cleaning()` never returns to 0 (`ProtocolRuns.LeakIsForever`), and that cleanup
  shuts down whichever connection has the session's old descriptor by then
  (`ProtocolWitnesses.StrangerIsDisconnected`). Descriptors are safe exactly in the
  runs in which no cleanup disconnects such a session after its socket was closed
  (`ProtocolRuns.DescriptorsAreSafe`).
- A completed rollback of an upgrade does not always give the old service back.
  `Upgrade.RollbackRestoresIff` gives the exact condition. After the install script
  was started, a service under the managed name that had been stopped is left
  running if the script started it, because the rollback stops only the native
  service and `restore` never stops anything. A failure command, reboot message or
  list of failure actions that the old service did not have, and the script set,
  stays: a NULL member of the failure actions leaves the setting alone.
- A generation token is accepted again after a multiple of 2^64 cleanups
  (`SessionRegistry.TokenFate`), since the counter is 64 bits wide.
- A session that no cleanup has come to can report `manual_cleanup`, exactly when a
  cleanup, or the late publication of a cleaned session, records one under an id
  that it shares (`ProtocolStatuses.TruthfulIff`). With distinct ids this cannot
  happen (`ProtocolStatuses.NoFalseCleanup`); with a shared id it does
  (`ProtocolWitnesses.SharedIdReportsFalsely`,
  `ProtocolWitnesses.SuccessorReportsFalsely`).
- `quote_windows_argument` loses empty arguments, and no quoting can protect a
  program path that contains a quote; a quoted one must not end in a backslash
  either (`CommandLine.BridgeLineRoundTrip`, `CommandLine.UpgradeLineRoundTrip`).
- The empty query text parses to one pair of empty strings, not to the empty map
  (`QueryString.QueryRoundTrip`).
- A pump that stops because FFmpeg's pipe broke reports a timeout of the device
  (`ByteQueue.Pump.Run`).

## Model

| member | source | states |
|---|---|---|
| ConnectionProtocol.StepKeepsInv | cpp-sdk-http-bridge-linux/src/main.cpp:2506-2577 | every step of acceptor, worker, session, cleanup and shutdown, and every way reserve can fail, keeps the invariant: descriptors are owned by one connection, a worker in handle_video has its lease and resources only there, a lease without such a worker belongs to a request that is over, one holder of the registry mutex, a cleanup on track, generation fencing |
| ConnectionProtocol.LeaseRemoved | cpp-sdk-http-bridge-linux/src/main.cpp:1956-1962 | releasing a lease, before the socket can be closed, keeps the agreement between leases and workers |
| ConnectionProtocol.CancelFences | cpp-sdk-http-bridge-linux/src/main.cpp:1937-1941 | storing a cancellation keeps every uncancelled session fenced or still ahead of the running cleanup |
| ProtocolRuns.DescriptorsAreSafe | cpp-sdk-http-bridge-linux/src/main.cpp:2518-2569 | in every run, all closes and shutdowns reach the connection they are meant for, never a closed or reused descriptor, if and only if no cleanup disconnects a leaked session whose socket has been closed |
| ProtocolRuns.OnlyCleanupsMiss | cpp-sdk-http-bridge-linux/src/main.cpp:2518-2569 | closes and the shutdowns of a stopping service are always well aimed, leaks or not |
| ProtocolRuns.WithoutLeaksAllIsSafe | cpp-sdk-http-bridge-linux/src/main.cpp:1929-1930 | if no Lease object fails to be allocated, everything is well aimed and no session is leaked |
| ProtocolRuns.LeakIsForever | cpp-sdk-http-bridge-linux/src/main.cpp:1929-1930 | a session registered without a Lease object stays registered in every continuation, and once cancelled it is counted as being cleaned for ever |
| ProtocolRuns.OrphansAreLeaked | cpp-sdk-http-bridge-linux/src/main.cpp:1929-1930 | only such a session can be registered after its socket was closed |
| ProtocolCleanup.CleanupIsAimedIff | cpp-sdk-http-bridge-linux/src/main.cpp:1933-1950 | a cleanup alone shuts down only its own sessions' sockets if and only if every uncancelled session still has its socket when it begins |
| ProtocolWitnesses.OrphanIsDisconnected | cpp-sdk-http-bridge-linux/src/main.cpp:1941-1947 | from every reachable state with an uncancelled session that lost its socket, a cleanup that begins can shut down whoever has its descriptor number |
| ProtocolWitnesses.StrangerIsDisconnected | cpp-sdk-http-bridge-linux/src/main.cpp:1929-1947 | from every idle state with room there is a run in which a lease leaks, the next connection gets its descriptor, and a cleanup shuts that connection down |
| ProtocolRuns.EachConnectionIsClosedOnce | cpp-sdk-http-bridge-linux/src/main.cpp:2540-2576 | in every run a connection has been closed exactly once if it was accepted and is not live any more, and not at all otherwise |
| ProtocolRuns.CapacityAndGeneration | cpp-sdk-http-bridge-linux/src/main.cpp:1921-1941 | in every run occupancy stays within the maximum and every uncancelled session that no running cleanup is about to cancel carries the current generation |
| ProtocolRuns.TokensAreFencedOff | cpp-sdk-http-bridge-linux/src/main.cpp:1924-1936 | a token is accepted after a run if and only if the number of cleanups in it is a multiple of 2^64; an empty token if and only if there never was one |
| ProtocolRuns.CancellationIsPermanent | cpp-sdk-http-bridge-linux/src/main.cpp:1940-1940 | in every continuation a cancelled lease stays cancelled for as long as it exists, and its connection never gets another |
| ProtocolRuns.CleanupCancelsAll | cpp-sdk-http-bridge-linux/src/main.cpp:1933-1950 | when a cleanup ends, every leased session is cancelled, whatever ran beside it |
| ProtocolRuns.CleanedSessionsAreGone | cpp-sdk-http-bridge-linux/src/main.cpp:1954-1954 | once the number of cancelled leases is 0 after a cleanup, every session the cleanup met has no lease and no device session or FFmpeg process |
| ProtocolRuns.ReasonBeforeDisconnect | cpp-sdk-http-bridge-linux/src/main.cpp:1939-1947 | in every run, each disconnection by a cleanup is preceded by the publication of its reason |
| ProtocolDuties.StopDisconnectsAll | cpp-sdk-http-bridge-linux/src/main.cpp:2518-2532 | from the moment the service starts to stop to the moment it waits for the threads, every connection that was open gets a shutdown that reaches it, whatever runs beside it |
| ProtocolDuties.CleanupDisconnectsAll | cpp-sdk-http-bridge-linux/src/main.cpp:1933-1950 | from its first step to its last, a cleanup publishes the reason of and disconnects every session that was uncancelled when it began, whatever runs beside it; the disconnection reaches that session unless the cleanup meets an orphan |
| ProtocolDuties.ServiceStops | cpp-sdk-http-bridge-linux/src/main.cpp:2518-2532 | from every state in which the acceptor waits there is a run in which the service stops |
| ProtocolDuties.WorkerLeaves | cpp-sdk-http-bridge-linux/src/main.cpp:2564-2569 | a worker whose request is over can close its socket, leave and be reaped, unless the service is just shutting sockets down |
| ProtocolDuties.AdmittedIff | cpp-sdk-http-bridge-linux/src/main.cpp:1924-1927 | after any run, a request with a token from before it is let into reserve if and only if the cleanups of the run are a multiple of 2^64 and there is room; otherwise nothing but its worker changes |
| ProtocolDuties.WorkersAreBounded | cpp-sdk-http-bridge-linux/src/main.cpp:2551-2557 | in every run the number of workers stays within the maximum |
| ProtocolDuties.ReportsItsReason | cpp-sdk-http-bridge-linux/src/main.cpp:2214-2223 | a session reports the reason and the figures it ended with, unless it was cancelled or a cleanup is on record |
| ProtocolCleanup.CleanupAlone | cpp-sdk-http-bridge-linux/src/main.cpp:1933-1950 | run without interruption, the small steps of a cleanup add up to what the registry's Clean does to leases, statuses and generation, for every order of the sessions; it disconnects no orphan exactly if it meets none uncancelled |
| ProtocolStatuses.MarkedStaysMarked | cpp-sdk-http-bridge-linux/src/main.cpp:2214-2223 | once a cleanup has marked a session, its id reports manual_cleanup in every continuation, also if its thread had read "not cancelled" before, until expiry or a new reservation of the id |
| ProtocolStatuses.StepIsTruthfulIff | cpp-sdk-http-bridge-linux/src/main.cpp:2006-2022 | a step makes no session report a cleanup that has not come to it if and only if it records none under an id that such a session occupies |
| ProtocolStatuses.TruthfulIff | cpp-sdk-http-bridge-linux/src/main.cpp:2006-2022 | the same over whole runs: nobody ever reports falsely if and only if no marking and no late publication hits a shared id |
| ProtocolStatuses.NoFalseCleanup | cpp-sdk-http-bridge-linux/src/main.cpp:2006-2010 | if registered and arriving sessions have distinct ids throughout a run, nobody ever reports falsely in it |
| ProtocolStatuses.FirstLookReportsFalselyIff | cpp-sdk-http-bridge-linux/src/main.cpp:1937-1940 | from every reachable state, the first look of a cleanup makes another uncancelled session report falsely if and only if the two share their id |
| ProtocolStatuses.LatePublicationReportsFalselyIff | cpp-sdk-http-bridge-linux/src/main.cpp:2214-2223 | from every reachable state, the late publication of a session makes another untouched one report falsely if and only if the first was cancelled and the two share their id |
| ProtocolWitnesses.SharedIdReportsFalsely | cpp-sdk-http-bridge-linux/src/main.cpp:1921-1940 | from every idle state with room there is a run in which two sessions share an id and the cleanup of one makes the other report falsely |
| ProtocolWitnesses.SuccessorReportsFalsely | cpp-sdk-http-bridge-linux/src/main.cpp:2214-2223 | and one in which the late publication of a cleaned session makes its successor under the id report falsely |
| RequestProtocol.RequestIsProtocolRun | cpp-sdk-http-bridge-linux/src/main.cpp:2191-2213 | from every state in which a worker may reserve, whatever a request handler held, moment by moment, is a run of that worker in the connection protocol, ending with its lease given back and nothing else changed but its status entry |
| SessionStatus.CleanupIsSticky | cpp-sdk-http-bridge-linux/src/main.cpp:2006-2022 | no later end replaces a recorded cleanup that has not expired |
| SessionStatus.CleanupTakes | cpp-sdk-http-bridge-linux/src/main.cpp:2006-2022 | a cleanup is recorded whatever the entry said before |
| SessionStatus.SessionStatusRegistry.Cleanup | cpp-sdk-http-bridge-linux/src/main.cpp:2056-2061 | exactly the entries of the last 600000 milliseconds are left, as they were |
| SessionStatus.SessionStatusRegistry.SetEnded | cpp-sdk-http-bridge-linux/src/main.cpp:2006-2022 | an end records reason, figures and time, keeps when the session started, leaves a recent cleanup alone, and of the other entries exactly the expired ones go |
| SessionStatus.SessionStatusRegistry.SetActive | cpp-sdk-http-bridge-linux/src/main.cpp:2001-2005 | the entry starts anew, active, without frame times; of the others exactly the expired ones go |
| SessionStatus.SessionStatusRegistry.Get | cpp-sdk-http-bridge-linux/src/main.cpp:2049-2054 | an entry is found if and only if it is there and not older than 600000 milliseconds |
| SessionStatus.SessionStatusRegistry.SetBrowserFirstFrame | cpp-sdk-http-bridge-linux/src/main.cpp:2033-2048 | the first frame time is kept, both intervals are computed from it, and no other entry changes |
| SessionRegistry.TokenFate | cpp-sdk-http-bridge-linux/src/main.cpp:1924-1936 | after n cleanups the token is accepted if and only if 2^64 divides n, the empty one if and only if n is 0 and there was none before |
| SessionRegistry.TokensDiffer | cpp-sdk-http-bridge-linux/src/main.cpp:1935-1935 | tokens of different sequence numbers differ, by injective decimal rendering |
| SessionRegistry.AcceptedTokens | cpp-sdk-http-bridge-linux/src/main.cpp:1924-1935 | a token is accepted if and only if it is empty before any cleanup, or is the epoch, a hyphen and the decimal number of cleanups; no other number is |
| SessionRegistry.EveryLiveSessionIsMarked | cpp-sdk-http-bridge-linux/src/main.cpp:1937-1940 | after a cleanup each session that was not cancelled reports manual_cleanup, whatever other sessions were marked after it |
| SessionRegistry.EachIsCleanedInOrder | cpp-sdk-http-bridge-linux/src/main.cpp:1937-1947 | in the events of a cleanup each session that was not cancelled is marked, then stored as cancelled, then disconnected |
| SessionRegistry.OnlyTheseAreCleaned | cpp-sdk-http-bridge-linux/src/main.cpp:1937-1947 | every event of a cleanup belongs to such a session, and every disconnection to the socket of one |
| SessionRegistry.CountIsCardinality | cpp-sdk-http-bridge-linux/src/main.cpp:1954-1954 | the counts of cancelled and uncancelled sessions are sizes of sets |
| SessionRegistry.SessionRegistry.Reserve | cpp-sdk-http-bridge-linux/src/main.cpp:1921-1932 | refused as stale if and only if the token is neither empty before any cleanup nor epoch-hyphen-number; refused as full if and only if it is not stale and there is no room; a request that is not admitted touches nothing; an admitted one gets a session of the current generation, or fails at one of the four allocations, at the last of which its session stays registered |
| SessionRegistry.SessionRegistry.Clean | cpp-sdk-http-bridge-linux/src/main.cpp:1933-1950 | a new generation; every session cancelled; each one that was not is marked, stored as cancelled, disconnected in this order and counted once |
| SessionRegistry.SessionRegistry.Release | cpp-sdk-http-bridge-linux/src/main.cpp:1956-1962 | exactly the given session leaves, the others keep their order |
| SessionRegistry.SessionRegistry.Cleaning | cpp-sdk-http-bridge-linux/src/main.cpp:1954-1954 | the number of cancelled sessions |
| Upgrade.RollbackRestoresIff | cpp-sdk-http-bridge-linux/src/windows-upgrade.cpp:197-208 | a completed rollback gives back the old service, field by field, each member of the failure actions by itself, and running or stopped, if and only if a condition on what it finds holds |
| Upgrade.BeforeScriptRollbackRestores | cpp-sdk-http-bridge-linux/src/windows-upgrade.cpp:302-310 | before the install script was started a completed rollback restores the service unless it had to be created again and its failure actions could not be read |
| Upgrade.AfterScriptRollbackRestores | cpp-sdk-http-bridge-linux/src/windows-upgrade.cpp:302-310 | after it, whatever the script did, a service is restored that has the native name or was running and that has failure actions, a reboot message and a failure command |
| Upgrade.OnlyTheseAreAlwaysRestored | cpp-sdk-http-bridge-linux/src/windows-upgrade.cpp:197-208 | for every other snapshot there is an effect of the script that the rollback does not undo |
| Upgrade.ForeignCommandStays | cpp-sdk-http-bridge-linux/src/windows-upgrade.cpp:205-205 | a running native service without a failure command keeps the one that the script gave it |
| Upgrade.StoppedServiceComesBackRunning | cpp-sdk-http-bridge-linux/src/windows-upgrade.cpp:305-309 | a concrete stopped service that a completed rollback leaves running |
| Upgrade.EqualFile | cpp-sdk-http-bridge-linux/src/windows-upgrade.cpp:209-213 | every read of the block loop is recorded with what it asked for and got; a fault is reported if and only if one of them fell short; equal means identical contents and no fault; without a fault, and so always when the reads can be complete, equal if and only if the contents are |
| Upgrade.TreeHolds | cpp-sdk-http-bridge-linux/src/windows-upgrade.cpp:214-221 | the staged tree holds every listed entry of the source with its content |
| Upgrade.TreeHoldsOnly | cpp-sdk-http-bridge-linux/src/windows-upgrade.cpp:214-221 | and nothing else |
| Upgrade.CopyEntry | cpp-sdk-http-bridge-linux/src/windows-upgrade.cpp:216-220 | a copy that is accepted is the entry itself, even though copying may damage it; a folder, or a file written unharmed and read completely, is accepted |
| Upgrade.Machine.CopyAll | cpp-sdk-http-bridge-linux/src/windows-upgrade.cpp:214-221 | a completed copy stages exactly the source tree; until then nothing but the staged directory changes; when all is calm it completes if and only if the staging place is free and everything is a file or folder |
| Upgrade.Machine.StopService | cpp-sdk-http-bridge-linux/src/windows-upgrade.cpp:182-190 | success means absent or stopped with an unchanged registration; the other service is untouched; when all is calm it succeeds |
| Upgrade.Machine.RemoveService | cpp-sdk-http-bridge-linux/src/windows-upgrade.cpp:191-196 | success means that the service is gone, not merely marked; failure leaves no altered registration; when all is calm it succeeds |
| Upgrade.Machine.Restore | cpp-sdk-http-bridge-linux/src/windows-upgrade.cpp:197-208 | success yields exactly the specified registration and state from what was found, unset members of the failure actions as they were found; when all is calm it succeeds if and only if no deletion is pending |
| Upgrade.Machine.Discover | cpp-sdk-http-bridge-linux/src/windows-upgrade.cpp:155-181 | a snapshot is taken if and only if exactly one service exists and it is running or stopped, and describes that service |
| Upgrade.Machine.Install | cpp-sdk-http-bridge-linux/src/windows-upgrade.cpp:293-301 | at every moment the old directory is intact at target or backup; it is moved only after its service stopped; the script starts only when a managed program's service is gone; success means the copy was installed and verified, and is certain when all is calm |
| Upgrade.Machine.Rollback | cpp-sdk-http-bridge-linux/src/windows-upgrade.cpp:302-312 | also when the rollback fails the old directory is intact at exactly one place; when it completes the target is the old directory and the service is as specified; when all is calm it completes if and only if the old service is one that it stops or has no deletion pending |
| Upgrade.Machine.Execute | cpp-sdk-http-bridge-linux/src/windows-upgrade.cpp:285-313 | for every failure point: refused changes no service and no installed file, success leaves the old tree at backup and installed the byte-identical copy, a completed rollback restores the directory, and the service if and only if the condition held when the rollback began; when all is calm the outcome is an upgrade if and only if the checks let it through |
| VideoPipeline.Request.Handle | cpp-sdk-http-bridge-linux/src/main.cpp:2191-2391 | whatever fails: at most two device sessions and three FFmpeg processes, at every moment one pump at most and only on the live session under the lease, all released in the end; the blocks after the first are the reads of the process in order up to the first that yields nothing or fails; a complete response decodes to exactly its output, an interrupted one is an incomplete prefix; copied output never starts with an hvcC; when nothing outside goes wrong the response starts, and each error has its cause among the reads and sends |
| VideoPipeline.DetectionMeans | cpp-sdk-http-bridge-linux/src/main.cpp:2151-2155 | the letters hvcC anywhere mean H.265; else the letters avcC anywhere mean H.264; else unknown |
| VideoPipeline.MediaReadyMeans | cpp-sdk-http-bridge-linux/src/main.cpp:1632-1633 | a first fragment is there exactly when the letters ftyp, moov, moof and mdat are |
| VideoPipeline.ContainedAtom | cpp-sdk-http-bridge-linux/src/main.cpp:1884-1884 | an atom that is found divides the text into what is before it, itself and the rest |
| VideoPipeline.Request.Detect | cpp-sdk-http-bridge-linux/src/main.cpp:2225-2262 | the codec comes from the cache, else from the configuration, else from a probe, and only then is an FFmpeg process started; a reused probe is a copy that may be copied |
| VideoPipeline.Request.Settle | cpp-sdk-http-bridge-linux/src/main.cpp:2263-2289 | afterwards H.264 is either being copied by the reused probe or has a queue that no process has read from |
| VideoPipeline.Request.StartPipeline | cpp-sdk-http-bridge-linux/src/main.cpp:2290-2298 | records codec, queue, mode and encoder of every start, all of them well formed, also when the pump thread cannot be created; hardware is used exactly for transcoding H.265 with a backend and unless forced otherwise; success means the prefix is all the new process produced and holds a first fragment |
| VideoPipeline.Request.FirstMedia | cpp-sdk-http-bridge-linux/src/main.cpp:2299-2324 | the fallback from copying is asked for exactly on a bridge error while copying; otherwise success means a first fragment; when nothing goes wrong it succeeds |
| VideoPipeline.Request.StartOrFallBack | cpp-sdk-http-bridge-linux/src/main.cpp:2309-2322 | there is a second start only after a hardware start failed with a bridge error, and it is in software on the same session |
| VideoPipeline.Request.FallBackFromCopy | cpp-sdk-http-bridge-linux/src/main.cpp:2325-2341 | a failed copy is replaced by one software start on a fresh session whose queue nothing has read |
| VideoPipeline.Request.CorrectMismatch | cpp-sdk-http-bridge-linux/src/main.cpp:2342-2360 | a copied stream that turns out to be H.265 is transcoded and the cache is corrected, any other is left alone; what is still copied has no hvcC |
| VideoPipeline.Request.ReadUntilReady | cpp-sdk-http-bridge-linux/src/main.cpp:1622-1638 | the result is what the process produced so far, and success means the wanted boxes are in it; when nothing goes wrong only a start of 4 MiB or more fails |
| VideoPipeline.Request.Respond | cpp-sdk-http-bridge-linux/src/main.cpp:2361-2379 | for any send behaviour the wire holds the headers and the body of the blocks read, or a proper prefix of it; the blocks are the reads in order, and the turns of the socket explain how it ended |
| VideoPipeline.Request.Release | cpp-sdk-http-bridge-linux/src/main.cpp:2200-2213 | probe, output and device session go in an order that never leaves a pump without its session, the lease last |
| VideoPipeline.FollowsTheProtocol | cpp-sdk-http-bridge-linux/src/main.cpp:2200-2213 | each change of a request's resources is a step that the connection protocol allows |
| ChunkedBody.BodyRoundTrip | cpp-sdk-http-bridge-linux/src/main.cpp:2177-2182 | decoding the chunked body gives the blocks back if and only if none of them is empty |
| ChunkedBody.EmptyBlockEndsBody | cpp-sdk-http-bridge-linux/src/main.cpp:2177-2182 | an empty block would end the body early |
| ChunkedBody.CutBody | cpp-sdk-http-bridge-linux/src/main.cpp:2177-2182 | a body cut anywhere is recognized as incomplete |
| ChunkedBody.CutIsIncomplete | cpp-sdk-http-bridge-linux/src/main.cpp:2177-2182 | what an interrupted response sent never decodes as complete |
| ChunkedBody.ChunksOnTheWire | cpp-sdk-http-bridge-linux/src/main.cpp:2177-2182 | the chunk of 26 bytes and the last chunk, letter by letter |
| ChunkedBody.Connection.WriteAll | cpp-sdk-http-bridge-linux/src/main.cpp:1251-1271 | for every sequence of partial, blocked, interrupted and failed sends a prefix is sent, and all of it exactly on success; a failure is what the last turn used says, and all turns before it end nothing |
| ChunkedBody.Connection.SendChunk | cpp-sdk-http-bridge-linux/src/main.cpp:2177-2182 | the same for a whole chunk |
| ByteQueue.ByteQueue.Push | cpp-sdk-http-bridge-linux/src/main.cpp:657-671 | verdict, backpressure count and new contents; accepted packets are popped ones and queued ones in order, the byte count is their sum within the limit, the peak its maximum, and nothing is accepted after close |
| ByteQueue.ByteQueue.Resume | cpp-sdk-http-bridge-linux/src/main.cpp:662-665 | the same for a push that waited |
| ByteQueue.ByteQueue.Pop | cpp-sdk-http-bridge-linux/src/main.cpp:672-681 | the oldest packet, or nothing exactly when the queue is empty |
| ByteQueue.HighestIsMaximum | cpp-sdk-http-bridge-linux/src/main.cpp:667-667 | the recorded peak bounds every level and was reached |
| ByteQueue.Pump.WriteInput | cpp-sdk-http-bridge-linux/src/main.cpp:1752-1767 | partial writes deliver a prefix, and everything if and only if no write breaks the pipe before the pipe has taken it all |
| ByteQueue.Pump.TurnOnce | cpp-sdk-http-bridge-linux/src/main.cpp:1582-1590 | each way a turn of the pump can end, if and only if; a packet that is there is taken |
| ByteQueue.Pump.Run | cpp-sdk-http-bridge-linux/src/main.cpp:1578-1597 | with any other threads on the queue, a pump that leaves because the queue is drained has written every accepted packet it was given; what is lost on a write failure; it leaves for want of data exactly in a turn without a packet when the time since the last one is up, goes on in every other gap, and leaves in no turn without a reason; which exits report a timeout |
| BoxSplitter.ParseLosesNothing | csharp-sdk-http-bridge/demo.html:44-44 | boxes and left-over concatenate to the input |
| BoxSplitter.ParseCutsWholeBoxes | csharp-sdk-http-bridge/demo.html:44-44 | every part cut off is one whole box, the left-over holds no further one, and it is malformed exactly when the parser fails |
| BoxSplitter.ParseIsTheOnlyCut | csharp-sdk-http-bridge/demo.html:44-44 | there is only one way to cut an input into boxes |
| BoxSplitter.ParseContinues | csharp-sdk-http-bridge/demo.html:44-44 | parsing continues from its left-over, and an error is final |
| BoxSplitter.GroupingMeansSegments | csharp-sdk-http-bridge/demo.html:44-44 | the state after any boxes is given by an independent description of segments by position |
| BoxSplitter.MediaSegmentShape | csharp-sdk-http-bridge/demo.html:44-44 | a media segment starts with styp or moof, ends at its only mdat and holds nothing but other boxes between |
| BoxSplitter.SegmentsOfStream | csharp-sdk-http-bridge/demo.html:44-44 | the splitter's output on a whole stream is the described segments |
| BoxSplitter.Player.Accept | csharp-sdk-http-bridge/demo.html:44-44 | one call does what the whole-input parser does on what was buffered and the chunk, throws exactly on a malformed box, and then hands over one segment if there is one and MSE is idle |
| BoxSplitter.Player.Drain | csharp-sdk-http-bridge/demo.html:43-43 | segments keep their order between those handed over and those pending |
| BoxSplitter.Player.Play | csharp-sdk-http-bridge/demo.html:43-55 | for every sequence of chunks and update events the segments and the error are those of the concatenated bytes; no segment is handed over while MSE is busy, and all are when it has been idle often enough |
| BoxSplitter.SameForEveryChunking | csharp-sdk-http-bridge/demo.html:43-55 | any chunking yields the same segments and error as one call on the whole stream |
| WrittenBoxes.PlayBoxes | csharp-sdk-http-bridge/demo.html:43-55 | boxes of four letters and a payload, written with big-endian 32-bit or 64-bit sizes and cut into any chunks, come out as the segments that the letters ftyp, moov, styp, moof and mdat describe, without an error and without a rest |
| WrittenBoxes.UsualStream | csharp-sdk-http-bridge/demo.html:44-44 | byte by byte: ftyp, moov, moof and mdat come out as ftyp+moov and moof+mdat |
| WrittenBoxes.ParseWritten | csharp-sdk-http-bridge/demo.html:44-44 | the written boxes are cut exactly where they were joined |
| WrittenBoxes.KindIsSpelled | csharp-sdk-http-bridge/demo.html:34-36 | the kind of a box is spelled by its bytes 4 to 7 |
| WrittenBoxes.RefusedSizes | csharp-sdk-http-bridge/demo.html:44-44 | a 32-bit size is refused if and only if it is less than 8 and not 1 |
| WrittenBoxes.RefusedWideSizes | csharp-sdk-http-bridge/demo.html:44-44 | a 64-bit size is refused if and only if its high half is not 0 or its low half is less than 16 |
| CommandLine.Quote | cpp-sdk-http-bridge-linux/src/windows-upgrade.cpp:85-92 | the upgrader's loop computes the quoted form |
| CommandLine.QuoteWindowsArgument | cpp-sdk-http-bridge-linux/src/main.cpp:133-147 | the bridge's loop computes the same form, and only where a blank or quote needs it |
| CommandLine.BuildUpgradeLine | cpp-sdk-http-bridge-linux/src/windows-upgrade.cpp:93-94 | the upgrader's loop builds the line whose reading is proved below |
| CommandLine.BuildBridgeLine | cpp-sdk-http-bridge-linux/src/main.cpp:1672-1673 | so does the bridge's loop |
| CommandLine.DocumentedRules | cpp-sdk-http-bridge-linux/src/windows-upgrade.cpp:85-92 | the reading side follows the documented rules: 2n and 2n+1 backslashes before a quote, backslashes elsewhere, space and tab |
| CommandLine.ArgumentsOfSpaced | cpp-sdk-http-bridge-linux/src/windows-upgrade.cpp:85-94 | splitting the spaced arguments gives them back, without the empty ones if those were not quoted |
| CommandLine.UpgradeLineRoundTrip | cpp-sdk-http-bridge-linux/src/windows-upgrade.cpp:93-94 | the upgrader's line is read back as written if and only if the program path has no quote and no trailing backslash |
| CommandLine.BridgeLineRoundTrip | cpp-sdk-http-bridge-linux/src/main.cpp:1672-1673 | the FFmpeg line is read back as written if and only if no argument is empty and the path is plain or needs no quotes |
| CodecCache.KeysAreIsolated | cpp-sdk-http-bridge-linux/src/main.cpp:1309-1312 | different channels have different keys |
| CodecCache.HexRoundTrip | cpp-sdk-http-bridge-linux/src/main.cpp:1313-1328 | decoding a hexadecimal key gives it back |
| CodecCache.TimeRoundTrip | cpp-sdk-http-bridge-linux/src/main.cpp:1341-1341 | so does reading a written time |
| CodecCache.LineRoundTrip | cpp-sdk-http-bridge-linux/src/main.cpp:1336-1346 | a written line loads as its entry |
| CodecCache.LineOnDisk | cpp-sdk-http-bridge-linux/src/main.cpp:1361-1361 | a line of the file, byte by byte |
| CodecCache.VideoCodecCache.Persist | cpp-sdk-http-bridge-linux/src/main.cpp:1350-1370 | in whatever order it writes, loading the file at any later time recovers exactly the entries valid then |
| CodecCache.VideoCodecCache.TryGet | cpp-sdk-http-bridge-linux/src/main.cpp:1288-1298 | the stored codec if and only if the cache is on and its entry has not expired; erasing an expired entry changes no other |
| CodecCache.RestartIsTransparent | cpp-sdk-http-bridge-linux/src/main.cpp:1329-1349 | a cache reloaded from a saved file answers every later lookup as the old one would |
| CodecCache.AnswersMean | cpp-sdk-http-bridge-linux/src/main.cpp:1288-1305 | the answers of the specification are those of the last earlier store of the key, as long as it lives |
| CodecCache.RunHistory | cpp-sdk-http-bridge-linux/src/main.cpp:1284-1305 | in any history of lookups, stores and restarts each lookup answers the codec of the last earlier store of its key if and only if the cache is on and that store has not expired; restarts make no difference |
| QueryString.UrlDecode | cpp-sdk-http-bridge-linux/src/main.cpp:514-525 | the loop computes the decoded text |
| QueryString.EscapesMean | cpp-sdk-http-bridge-linux/src/main.cpp:518-521 | escapes with hexadecimal digits of either case, in front of any text |
| QueryString.OthersMean | cpp-sdk-http-bridge-linux/src/main.cpp:518-522 | a plus sign is a blank, and a percent sign that starts no escape stays |
| QueryString.ParseQuery | cpp-sdk-http-bridge-linux/src/main.cpp:529-541 | the loop assigns the decoded pairs in order |
| QueryString.DecodeEncoded | cpp-sdk-http-bridge-linux/src/main.cpp:514-525 | decoding undoes the serializer's encoding of any bytes |
| QueryString.QueryRoundTrip | csharp-sdk-http-bridge/demo.html:37-41 | parsing a serialized list gives its meaning if and only if the list is not empty |
| QueryString.QueryOfDistinctPairs | csharp-sdk-http-bridge/demo.html:37-41 | with distinct keys the result is exactly the listed map |
| DiagnosticTail.LinesContinue | cpp-sdk-http-bridge-linux/src/main.cpp:1866-1869 | splitting into lines resumes from the unfinished line |
| DiagnosticTail.LinesLoseNothing | cpp-sdk-http-bridge-linux/src/main.cpp:1868-1871 | with the line breaks put back, each a CR or an LF, completed lines and unfinished rest are the input |
| DiagnosticTail.LinesHaveNoBreak | cpp-sdk-http-bridge-linux/src/main.cpp:1868-1871 | neither a completed line nor the rest holds a CR or LF |
| DiagnosticTail.ReportMeans | cpp-sdk-http-bridge-linux/src/main.cpp:1868-1875 | read as lines again, the report is the non-empty lines it was made of, each of them completed |
| DiagnosticTail.Reader.Feed | cpp-sdk-http-bridge-linux/src/main.cpp:1864-1880 | after every read the tail is the last 8192 bytes of all completed non-empty lines |
| DiagnosticTail.Reader.ReadAll | cpp-sdk-http-bridge-linux/src/main.cpp:1841-1881 | the same for every cut of the whole output into reads: the tail is the suffix of the report of length min(length, 8192) |
| SlotRegistry.Registry.Reserve | csharp-sdk-http-bridge/src/HikSdkHttpBridge/Sessions/SessionRegistry.cs:14-20 | which refusal happens exactly when, and that a refused request gives its slot back |
| SlotRegistry.Reservation.Dispose | csharp-sdk-http-bridge/src/HikSdkHttpBridge/Sessions/SessionRegistry.cs:24-31 | the first call frees key and slot, a repeated one nothing |
| SlotRegistry.SlotsAreConserved | csharp-sdk-http-bridge/src/HikSdkHttpBridge/Sessions/SessionRegistry.cs:14-31 | in every interleaving free slots, registered ids and operations in flight add up to the maximum, a release never overfills the semaphore, a key has at most one live reservation |
| SlotRegistry.LiveThroughRun | csharp-sdk-http-bridge/src/HikSdkHttpBridge/Sessions/SessionRegistry.cs:24-31 | a reservation keeps its key through every run in which it is not disposed itself |
| SlotRegistry.DisposedStaysDisposed | csharp-sdk-http-bridge/src/HikSdkHttpBridge/Sessions/SessionRegistry.cs:31-31 | disposing again changes nothing, whoever holds the id by then |
| SlotRegistry.FreeKeyIsReserved | csharp-sdk-http-bridge/src/HikSdkHttpBridge/Sessions/SessionRegistry.cs:14-20 | undisturbed, a request for a free key with a slot left gets a live reservation and takes one slot |
| SlotRegistry.TakenKeyIsRefused | csharp-sdk-http-bridge/src/HikSdkHttpBridge/Sessions/SessionRegistry.cs:14-20 | undisturbed, a request for a taken key, or without a slot, leaves everything as it was |
| SlotRegistry.LiveReservationIsFreed | csharp-sdk-http-bridge/src/HikSdkHttpBridge/Sessions/SessionRegistry.cs:24-31 | undisturbed, disposing a live reservation frees its key and its slot |
| BoundedQueue.RemainingIsExact | csharp-sdk-http-bridge/src/HikSdkHttpBridge/Media/ByteBoundedQueue.cs:26-31 | with wrapping ticks the recomputed time is timeout minus elapsed, for every start tick, if and only if that fits 32 bits |
| BoundedQueue.ByteBoundedQueue.TryEnqueue | csharp-sdk-http-bridge/src/HikSdkHttpBridge/Media/ByteBoundedQueue.cs:21-40 | with any other threads, order and bytes are conserved, exactly one item is added on success and none otherwise, nothing enters after completion, and no wakeup extends the allowed wait; an item that fits is taken at once, and a refusal means an impossible size, completion, a wait that ran out, or a full queue when the time is up |
| BoundedQueue.ByteBoundedQueue.Dequeue | csharp-sdk-http-bridge/src/HikSdkHttpBridge/Media/ByteBoundedQueue.cs:42-58 | items leave in the order they entered, one exactly when one is returned, and no wakeup extends the wait; an item that is there is returned at once, and nothing is returned only after a wait that ran out, or on an empty queue that is completed or when the time is up |

## Left out

- ProtocolStatuses.NoFalseCleanup: needs distinct ids, because the C++ registry does not enforce them; the exact condition is that of TruthfulIff.
- Upgrade.AfterScriptRollbackRestores: covers the services that the rollback restores whatever the script did; the exact condition for all others is RollbackRestoresIff.
- CodecCache.RunHistory: assumes a clock that does not run backwards and successful writes, and starts from a fresh installation, because a hand-edited file may hold the same key twice.
- ConnectionWorkers and the interleaving of registry, statuses and sockets are a transition system on values rather than classes, because their properties are about all interleavings; the registry and status classes are given beside it.
- A cleanup in the registry class reads the clock once; the transition system lets time pass between sessions.
- Device login, channel resolution, SDK callbacks, FFmpeg itself, process and handle creation, and hardware detection are arbitrary outcomes.
- Which of several end reasons of a device session is reported first is not modelled: the code does not guarantee it.
- Real time: nothing is claimed about how long an SDK call, a cleanup or a wait takes.
- HTTP routing, request parsing beyond the query, JSON bodies, response headers, logging, log retention and configuration loading.
- Chunk extensions and trailer fields, which the bridge never sends, are not accepted by the decoder.
- The contents of the new installation's verification (health and version over HTTP, port ownership, program inspection) are an arbitrary verdict on top of the modelled service state.
- windows-service.cmd is not part of this model: it may do anything to both services and to the files of the new directory, but is taken not to touch other directories.
- Files that the old service itself still writes before it has stopped are not counted as damage to the old tree; read faults of a file stream are taken to set its bad bit.
- A query for a service's failure actions is taken to report a member that is not set as NULL, and the queries for its other extended settings to succeed.
- UpgradeLock, the registry export, reparse-point and path checks before the transaction, and scheduled tasks.
- The retry keys with a random suffix in the C# registry are ordinary distinct keys here, and keys are compared after case folding.
- Environment variables inside a service command line, NUL characters in arguments, and the fixed command line for cmd.exe.
- Text-mode line ends of the cache file on Windows, and memory exhaustion inside the registries other than in `reserve`: a cleanup or a status update that runs out of memory part way is not modelled.
- Every input byte reaches a segment: not true of the splitter, which drops boxes outside a fragment; the segments are described exactly instead.
