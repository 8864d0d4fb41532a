# Verified model of the monitoring agent

A Dafny model of the agent's own code: plugin threads gather records into pooled
packets, a storage thread posts the packets that are ready, a scheduler pings and
cancels plugin threads, plugins register and report going up or down, and the
configuration and the plugins' identities are read from files.

The concurrent parts are transition systems whose runs are arbitrary interleavings;
the parts that change buffers, fields and lists in place are classes and methods
proved against specification functions, about which the theorems are stated.

| file | part of the agent |
|---|---|
| `PacketPool.dfy`, `PoolRuns.dfy` | the pool, one machine instruction at a time, and its invariants |
| `PoolTheorems.dfy`, `PoolList.dfy`, `PoolLoss.dfy`, `PoolGrowth.dfy` | ownership, conservation, locks; the list; lost packets; the size of the pool |
| `PoolPass.dfy`, `PoolCalls.dfy`, `PoolFlow.dfy` | what a storage pass, `get_packet`, a gather and a post achieve, and all together |
| `Json.dfy`, `Decimal.dfy`, `PacketTypes.dfy`, `Util.dfy` | JSON texts, numerals, packet states, buffer sizes |
| `Gatherers.dfy`, `Packets.dfy`, `Gathering.dfy`, `BufferBound.dfy` | the packet buffer from its claim to its hand-over, any number of times |
| `Delivery.dfy` | pool and buffers together: what is posted |
| `PluginTexts.dfy`, `Plugins.dfy` | REGISTER and ALERT packets; phases of a plugin, retries, `mysql_gather` |
| `Routines.dfy` | ping protocol, due times, cancellation and restart |
| `Storage.dfy` | storage pass and back-off |
| `Sparser.dfy`, `Grammar.dfy`, `Identity.dfy` | configuration parser, the language it accepts, identities under `res/` |
| `OsPlugin.dfy`, `TrailingSpace.dfy` | tables of the OS plugin, the vendored trailing-space scan |

## Where the code does less than its surroundings promise

- **Pushes are not serialised.** `get_packet` locks the `spin` of a head it read earlier, and
  recycling clears `spin`. `LostIffOvertaken` shows that a published packet drops out of the list
  exactly when a push stores over a head it did not link to; `LosslessIffOnePlugin` shows that this
  can be ruled out exactly for at most one plugin, and constructs the losing run for two or more;
  `ReadyReachableIffOnePlugin` carries that run on until committed records sit in a READY packet that
  storage cannot reach. What is on the list is delivered (`PassDelivers`).
- **The pool can grow needlessly.** A packet can become DONE behind the cursor of a scan that then
  allocates (`InterruptedCanWaste`). `OptimalIffNoWaste` is the exact condition, and an uninterrupted
  `get_packet` meets it (`GrowthIsOptimal`).
- **A stale pointer.** Between the store of READY or DONE and the clearing of `working` two plugins
  can point to the same packet (`WorkingCanBeShared`); one of them is then always about to clear its
  pointer and no longer writes (`SharedWorkingIsStale`).
- **Due times are read without the lock.** A due time read while the task runs is the old one, so a
  task can start twice at the same instant (`EarlyCheckRushesTask`). A ping is bound to keep the tick
  exactly if the due time has passed while `ping_me` is held (`TimelyIffDueUnderLock`).
- **A start that times out.** After `routine_start` has returned -1 a ping can obtain the mutex and still
  be lost (`PingCanBeLost`); after 0 it cannot (`PingOutcome`).
- **Restoring is single-use.** Files are removed once read, so a second start before a plugin has
  registered again finds nothing (`SecondStartFindsNothing`).
- **Two plugins with one tid.** `res/<tid>` is overwritten by the later one; `IdentitySurvives` says
  exactly who regains a tid.
- **Result codes combined with `&`.** The interface lets sections report ENODATA and EPLUGUP, which
  combine to ENONE without any data (`MixedCodes`); no section of the shipped plugins reports EPLUGUP.
  `CombinedOutcome` is the exact condition.
- **Unknown gather codes** are neither committed nor rolled back; `Collect` says what text they leave.
- `packet_expired` is documented as one minute; the code closes a packet after 7 whole seconds
  (`ExpiredAfter7s`). The README of the repository describes a one-line-per-plugin configuration; the
  parser reads `<`…`>` blocks, and that is what is modelled.

## Model

| member | source | states |
|---|---|---|
| `PoolTheorems.ExclusiveOwnership` | src/storage.c:53-79 | in every interleaving a packet is held by exactly one thread while EMPTY, BEGIN or WROTE and by nobody while READY or DONE |
| `PoolTheorems.SharedWorkingIsStale` | src/plugin.c:206-215 | two equal `working` pointers imply that one thread is about to clear its own |
| `PoolLoss.WorkingCanBeShared` | src/plugin.c:206-215 | with two or more plugins a run reaches a state with two equal `working` pointers |
| `PoolTheorems.StateCycle` | src/plugin.c:161-220 | the only state changes are those of the cycle, each by the holder, by the one claimer, or by storage after an accepted post; a packet dropped without posting has no records |
| `PoolTheorems.SenderLock` | src/sender.c:58-73 | at most one thread is between taking and releasing a type's lock, the lock is then taken, and the lock storage releases is the one it took |
| `PoolTheorems.Conservation` | src/storage.c:81-114 | a record is committed iff it is accepted or waits in a WROTE or READY packet; never both, never in two packets, never accepted twice |
| `PoolTheorems.LeavesByAcceptance` | src/storage.c:86-100 | a waiting record stops waiting only by a post that returned 0, together with all records of its packet |
| `PoolRuns.Run` | src/storage.c:53-114 | every reachable state satisfies the pool's invariant: links, ownership, sender locks, accounting and the ledger |
| `PoolList.Chain` | src/storage.c:54 | following `next` terminates, visits published packets of strictly decreasing rank, at most as many as were published |
| `PoolList.Acyclic` | src/storage.c:65-78 | in every interleaving the list has no cycle, the head never returns to null, published links never change |
| `PoolList.CursorDescends` | src/storage.c:84-104 | each move of a plugin's or storage's cursor goes to a packet published strictly earlier |
| `PoolList.LostIffOvertaken` | src/storage.c:72-76 | all published packets stay reachable throughout a run iff every push stores over the head it linked to |
| `PoolLoss.LosslessIffOnePlugin` | src/storage.c:53-79 | no run loses a packet iff there is at most one plugin |
| `PoolLoss.SeveralCanLose` | src/storage.c:55-61 | for any two or more plugins a run in which a published packet becomes unreachable |
| `PoolLoss.ReadyReachableIffOnePlugin` | src/storage.c:84-86 | in every interleaving every READY packet is on the list storage follows, iff there is at most one plugin |
| `PoolTheorems.NoSpinLeftSet` | src/storage.c:72-76 | in every interleaving a set spin belongs to storage inside `packet_fetch` or to a thread inside the push, which will clear it |
| `PoolPass.PassSoFar` | src/storage.c:84-100 | in every interleaving, at every moment of a storage pass: each packet that was READY on the list when the pass began has its records accepted, or is READY still and ahead of the cursor |
| `PoolPass.PassDelivers` | src/storage.c:84-113 | in every interleaving a pass that comes to the end of the list has had every record accepted that was in a READY packet on it when it began; it ends earlier only at a refused post, with the undelivered packets READY from that one on |
| `PoolPass.PassAlone` | src/storage.c:81-114 | left alone, with no lock in its way, a pass ends; it stops exactly at the first READY packet refused, those before are DONE and their records accepted in list order, nothing else changes |
| `PoolCalls.GetPacketAlone` | src/storage.c:53-79 | instruction by instruction, an undisturbed `get_packet` hands out the first DONE packet of the list, reset, or a new one in front of the head, and changes nothing else |
| `PoolCalls.GatherAlone` | src/plugin.c:161-220 | an undisturbed gather commits its record to the packet held, hands an expired one over iff it has records, drops it otherwise, and clears `working` iff it expired |
| `PoolCalls.PostAlone` | src/sender.c:64-70 | an undisturbed post holds the lock of its type while it sends and gives it back |
| `PoolFlow.RecordIsDelivered` | src/plugin.c:161-220 | from every reachable state with no lock taken, for any plugin between two packets, a run in which its next record is committed, handed over and accepted |
| `PoolFlow.DeliveryHappens` | src/storage.c:81-114 | for any number of plugins a run from the start in which a given plugin's first record is accepted |
| `PoolGrowth.OptimalIffNoWaste` | src/storage.c:53-79 | in every interleaving the number of packets allocated is throughout the largest number not DONE at once, iff none is allocated while one is DONE |
| `PoolGrowth.GrowthIsOptimal` | src/storage.c:53-79 | in every run whose calls of `get_packet` are not interrupted, the number of packets allocated is the largest number not DONE at once |
| `PoolGrowth.InterruptedCanWaste` | src/storage.c:54-65 | with two or more plugins a run allocates a packet although one has become DONE behind the cursor |
| `Delivery.PostsAreFaithful` | src/storage.c:86-100 | in every interleaving each accepted payload is the JSON document of exactly the records its acceptance moved into the log, all of one plugin and under its tid |
| `Packets.PacketBuffer.Append` | inc/packet.h:16-17 | the text stored is truncated to the buffer, the size is not; the text is intact and terminated if it fits |
| `Packets.PacketBuffer.Reclaim` | src/storage.c:55-61 | only a DONE packet is claimed; its fields are reset and its bytes left as they were |
| `Packets.PacketBuffer.Rollback` | inc/packet.h:119-123 | the text is again the text up to the rollback point, terminated |
| `Packets.PacketBuffer.Gather` | inc/packet.h:133-147 | success appends one member of the JSON object, separated by a comma iff one precedes; failure leaves the text as it was |
| `Packets.PacketBuffer.CallParts` | src/plugins/os.c:50-56 | sections run one after the other append the comma-join of those that succeeded |
| `Packets.PacketBuffer.PatchNumber` | src/plugin.c:83-84 | exactly twenty characters at the rollback point are replaced, the comma behind them is restored |
| `Gatherers.CombinedOutcome` | src/plugins/os.c:50-56 | the combined code is ENONE iff a section reported ENONE, or one ENODATA and one EPLUGUP |
| `Gatherers.MembersIffSome` | src/plugins/os.c:50-56 | something was gathered iff some section reported ENONE |
| `Gatherers.MixedCodes` | src/plugins/mysql.c:132-136 | two codes that combine to ENONE with nothing gathered |
| `Gatherers.OrderOfEvaluation` | src/plugins/os.c:50-56 | every order of evaluating the operands gives the same code and the same members |
| `Gathering.ExpiredAfter7s` | src/packet.c:43-45 | a packet is expired iff 7000 ms have passed since it was started |
| `Gathering.OpenPacket` | src/plugin.c:169-172 | whatever bytes a claimed packet holds, its text is then the header, terminated |
| `Gathering.Collect` | src/plugin.c:169-215 | after any of the four codes the buffer holds header and comma-join of exactly the committed records, terminated, closed by `]}` iff READY; any other code leaves a stamp without a record |
| `Gathering.Transact` | src/plugin.c:178-204 | one transaction adds a whole record or nothing |
| `Gathering.ReadyIsDocument` | src/plugin.c:206-211 | the text of a READY packet is the rendering of the JSON object with license, tid and the array of records |
| `BufferBound.FillCommitted` | src/plugin.c:161-220 | a packet's records are those of the gathers that returned ENONE, in order |
| `BufferBound.FillExactly` | src/plugin.c:174-215 | date and state after any gathers: dated by the first that gathered (else the last), closed iff 7 s have passed since, READY or WROTE iff one gathered |
| `BufferBound.GathersBound` | src/plugin.c:174-176 | with starts d ms apart an open packet has seen at most ceil(7000/d) gathers since the first that gave it a record, by whose start it is dated |
| `BufferBound.NeverTruncated` | inc/packet.h:14-17 | if header + (ceil(7000/d)+1)(record+1) + 2 is below PKTSZ, every gather a packet sees fits |
| `BufferBound.FillPacket` | src/plugin.c:161-220 | from claim to hand-over, fresh or recycled, no append is truncated; READY means the payload is the document of the committed records, DONE means there were none |
| `BufferBound.LiveOn` | src/storage.c:53-63 | a packet recycled any number of times, by plugins with different tids, posts life by life exactly the document of that life's records |
| `Plugins.AlertsExact` | src/plugin.c:137-159 | in every run the alerts accepted, plus the one pending if any, are the EPLUGUP and EPLUGDOWN codes of the gathers in order, once each; a pending packet fits phase and tid |
| `Plugins.AcceptedWasSent` | src/plugin.c:68-151 | a registered plugin's tid was shown to the server, and every accepted alert was sent under it |
| `Plugins.TidIsFixed` | src/plugin.c:68-159 | once registered a plugin stays registered under the same tid in every continuation |
| `Plugins.FirstRegistration` | src/plugin.c:51-85 | nothing is sent before the plugin is prepared; the first packet registers the tid restored for it or, without one, a new one |
| `Plugins.RetriesRegistration` | src/plugin.c:73-134 | over any number of refusals every post shows the tid of the moment, which changes exactly on code 302; the accepted one is kept |
| `Plugins.RetriesAlert` | src/plugin.c:137-159 | over any number of refusals the same alert is sent again; once accepted, all that was reported is accepted and the plugin gathers |
| `PluginTexts.RegisterIsDocument` | src/plugin.c:79-81 | a REGISTER packet is the JSON object of license, aid, tid in twenty columns and the agent's and target's strings, `target_ip` only for a remote target |
| `PluginTexts.AlertIsDocument` | src/plugin.c:141 | an ALERT packet is the JSON object of license, tid and status |
| `Plugins.MysqlReports` | src/plugins/mysql.c:117-130 | the connection counts as off exactly after a report that it went down, and reports never repeat "down" |
| `Plugins.MysqlReportsExactly` | src/plugins/mysql.c:87-130 | in every run each gather reports "down" iff its ping fails and the last report was not "down", "up" iff it succeeds on another connection than the last live one; no other task reports |
| `Plugins.DownsAreSeparated` | src/plugins/mysql.c:117-130 | two accepted "down" alerts have an "up" between them |
| `Plugins.PatchedText` | src/plugin.c:79-84 | overprinting the twenty columns equals rendering the whole packet with the new tid |
| `Plugins.Plugin.RegrTask` | src/plugin.c:68-135 | whatever tids retries brought, each post's payload is the packet rendered from scratch with the current tid, and the number its twenty columns show is that tid |
| `Plugins.Plugin.AlertTask` | src/plugin.c:137-151 | each post's payload is the pending alert's; the packet is dropped and the phase left iff the post is accepted |
| `Plugins.Plugin.PrepTask` | src/plugin.c:51-66 | a failed preparation changes nothing, a successful one goes on to register |
| `Decimal.Columns20` | src/plugin.c:81-84 | every 64-bit number prints in exactly twenty columns, spaces and then a numeral that reads back as that number |
| `Routines.PingOutcome` | src/routine.c:51-59 | after a start that returned 0 a ping that obtains the mutex leaves the thread woken; one made while the task runs is rejected and changes nothing |
| `Routines.PingCanBeLost` | src/routine.c:61-77 | after a start that returned -1 a run in which a ping obtains the mutex and wakes nobody |
| `Routines.PingLeadsToRun` | src/routine.c:96-115 | after a start that returned 0, between a ping that obtained the mutex and the thread's next wait the task is run, unless the thread is cancelled |
| `Routines.StartsAreTickApart` | src/scheduler.c:49-51 | runs behind a due time read while the thread was parked start at least a tick after the previous run |
| `Routines.EarlyCheckRushesTask` | src/scheduler.c:49-51 | for every tick a run that starts the task twice at the same instant |
| `Routines.TimelyIffDueUnderLock` | src/routine.c:51-59 | the next run is a tick or more after the last in every continuation iff the due time has passed when the mutex is held |
| `Routines.NeverCancelledInPost` | src/scheduler.c:51-54 | whenever the scheduler cancels, after any number of restarts and failed starts, the plugin thread is not in `post` nor about to enter it |
| `Routines.FailedPingRestarts` | src/scheduler.c:51-54 | a failed ping leads to exactly one restart if the plugin is in its gather phase, else to none |
| `Routines.LatePongRestarts` | src/routine.c:45-59 | so does a signal not answered in time; one answered in time leads to none |
| `Routines.HungGatherRecovers` | src/routine.c:79-94 | from every reachable state with a gather overdue and the scheduler coming by, a run cancels the thread once and has a new one gathering |
| `Routines.TaskRunIsRun` | src/routine.c:109-111 | the thread's steps through a task end with the task that the plugin's phases prescribe, for every plugin state and answer |
| `Storage.StorageRoutine.StorageMain` | src/storage.c:81-114 | a pass delivers the READY packets before the first failure in list order, marks that packet's attempt and response, leaves later ones alone; the delay becomes 1 after deliveries only, 2 after deliveries and a failure, else on a failure 2, 4, 0, 1 after 1, 2, 4, 0; the tick stays 21 |
| `Storage.PassDelay` | src/storage.c:88-97 | the delay after a pass, computed post by post, depends only on the delay before, on whether it delivered and on whether it failed |
| `Storage.StorageRoutine.GetPacket` | src/storage.c:53-79 | the first DONE packet is recycled; the pool grows only if there is none |
| `Storage.BackoffCycle` | src/storage.c:88-97 | after n failed posts in a row the 3-bit delay is 2^(n mod 4) mod 8 |
| `Sparser.Sparse` | src/sparser.c:51-150 | the line loop with its skipping computes the parse of the whole text, errors and overflows included |
| `Sparser.SkipBlock` | src/sparser.c:13-20 | the lines of the text are lines that do not start with `>`, then one that does, then the lines of what is left; or none does and nothing is left |
| `Sparser.LinesExactly` | src/sparser.c:51 | the lines put together are the text; each has at most 127 characters and a newline only at its end, and all but the last are full or end in one |
| `Sparser.TokenExactly` | src/sparser.c:53 | the word of a line is its first run of non-blank characters |
| `Grammar.AcceptedIffDerivable` | src/sparser.c:51-150 | for every text: it is accepted with given plugins iff its lines, fillers aside, are blocks of the grammar, the last perhaps unfinished, that ask for exactly these, at most five |
| `Grammar.RejectedAt` | src/sparser.c:59-145 | a text fails at the first line that may not follow, whatever comes after, with -1 unless the line lacked its word or overran a buffer |
| `Sparser.RoundTrip` | src/sparser.c:51-150 | a printed configuration, with comments and blank lines anywhere, parses to exactly the blocks that are on, found and loadable, in order, with their values |
| `Sparser.AcceptedIsSound` | src/sparser.c:51-150 | whatever the text, accepted plugins were found, loaded, at most five, with at most ten non-empty values each |
| `Sparser.FillersIgnored` | src/sparser.c:56-58 | comments and blank lines change nothing in any state of the parser |
| `Decimal.TidRoundTrip` | src/agent.c:90-92 | a file name reads back as the tid, for every 64-bit tid |
| `Identity.RecordRoundTrip` | src/plugin.c:124-130 | type and module read back as written |
| `Identity.CutRecordIsRefused` | src/agent.c:63-84 | a record cut short anywhere is refused |
| `Identity.RestoreAll` | src/agent.c:50-101 | the nested loops compute the restoration of the plugin table from the directory; the files that could be read are removed |
| `Identity.UnreadableStay` | src/agent.c:63-97 | exactly the files that could not be read stay in the directory |
| `Identity.SecondStartFindsNothing` | src/agent.c:97 | restoring from what is left of the directory changes no plugin |
| `Identity.IdentitySurvives` | src/agent.c:50-101 | whatever the order of the directory, the registrations and the table, a plugin that had registered regains its tid iff nobody registered later under the same tid; one that had not is left alone |
| `Identity.DistinctKeys` | src/plugins/mysql.c:75-85 | configured plugins that differ in type, or in host, user, password or port of their database, are told apart by the records of whichever registered |
| `Identity.SameIffSameTarget` | src/plugins/mysql.c:75-85 | two mysql modules match iff both have the module's size, every difference in host, user or password lies behind a NUL common to both, and the four bytes of the port are equal |
| `Identity.WatchersRegainTheirTids` | src/agent.c:87-95 | with the shipped comparisons, plugins that watch different targets each regain their own tid unless displaced |
| `Identity.PortTellsApart` | src/plugins/mysql.c:82 | two mysql plugins that differ in the port each regain their own tid, whichever registered first |
| `Identity.ConnectionStateIgnored` | src/plugins/mysql.c:75-85 | what changes in a module while the agent runs does not affect the match |
| `OsPlugin.GatherNetwork` | src/plugins/os.c:315-364 | every array has one entry per interface in the same order, the totals are the column sums mod 2^64 |
| `OsPlugin.NetworkRoundTrip` | src/plugins/os.c:341-361 | every interface reads back, field by field and by column name, from the entries of its row |
| `OsPlugin.GatherProc` | src/plugins/os.c:191-271 | any subset of non-empty sections is a correctly separated member list, each with one entry per row in every column; ENONE iff there is one |
| `OsPlugin.ProcessRoundTrip` | src/plugins/os.c:211-266 | every process reads back from the list, its name and share from the tables of the top ten |
| `TrailingSpace.SkipTrailingSpace` | inc/mysql/m_string.h:266-290 | for every byte string, address and byte order, with words of 4 or 8 bytes, the scan ends after the last non-space byte, reading only aligned words inside the string |
| `TrailingSpace.WordIsSpaces` | inc/mysql/m_string.h:283-284 | a word equals SPACE_INT iff all its bytes are spaces, in either byte order |

## Left out

- BufferBound.GathersBound: takes the distance d of two gathers as given; `Routines` says when the scheduler keeps it.
- Routines.NeverCancelledInPost: a cancelled thread is gone at once; what a thread restarted in mid-gather finds in its packet is not modelled.
- Sparser.RoundTrip: plugin libraries and their load functions are parameters; reading errors other than the end of the file are not modelled.
- Identity.IdentitySurvives: files with a type of 128 bytes or more, which overrun a fixed buffer, do not occur.
- OsPlugin.GatherProc: takes the columns of a table as a list, where the source spells out one statement per column.
- Plugins.MysqlReports: the sub-gatherers' text and codes are parameters; only ENONE and ENODATA come from them.
- Packets.PacketBuffer.Append: what happens to memory once the size has passed the end of the buffer is not modelled.
- Storage.StorageRoutine.GetPacket: one call at a time on a sequence of slots; interleavings are the subject of the pool modules.
- Fair scheduling: that a pass and the calls of a plugin thread end is shown for a thread that nobody interrupts.
- Spurious wake-ups, and waiting on a condition variable without holding its mutex in `routine_sync`: assumed harmless.
- Allocation failure, and more devices, processes or interfaces than the fixed arrays hold.
- `popen` and `fscanf` probing, libcurl, libmysqlclient and `dlopen`: their results are inputs.
- Escaping inside strings (license, host, process names): opaque fragments.
- CPU, disk and memory sections of the OS plugin and the MySQL sub-gatherers: they add only more of the same rendering.
- `src/unsent.c` (its calls are commented out), `src/daemon.c`, `src/metadata.c`, `src/util.c`: process set-up; the clock is a parameter.
- Vendored headers other than `skip_trailing_space`, and the generated documentation.
