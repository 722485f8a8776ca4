# Verified models of the NIC driver, the TCP accelerator and the chat server

This project models three programs of the repository and proves what they promise.

**edunic** (`linux_nic_lab/driver`). A network driver and its emulated device share two descriptor rings.
`edunic_start_xmit` fills transmit slots, the emulated DMA engine passes them and loops each frame into the receive
ring, and the NAPI poll reclaims, harvests and refills. `Edunic.dfy` is the whole system as a state machine: every agent
has a program counter, and every step makes one access to what another agent may touch at that moment (slots that an
agent owns are accessed at once), in any interleaving, for any ring size of at least 2. Unwrapped counters stand beside
the wrapped indices and registers, and a ledger of skbs raises `fault` on any misuse of an skb or of its DMA mapping.
`EdunicInvariant.dfy`, `EdunicMemory.dfy` and `EdunicKeeps.dfy` hold the invariant and its proof, one lemma for each
access. The results are in `EdunicTheorems.dfy` (ownership), `EdunicFlow.dfy` and `EdunicAccepted.dfy` (frames, counters,
skbs), `EdunicCauses.dfy` (interrupt causes and the link), `EdunicProgress.dfy` (wakeups, doorbells, completions),
`EdunicSettles.dfy` (every schedule comes to rest), `EdunicLate.dfy` (the interrupt handler that comes too late),
`EdunicQueue.dfy` (stopping the queue), `EdunicStarving.dfy` (when frames can still be received; all three with runs put
together from `EdunicScripts.dfy`) and `EdunicLifecycle.dfy` (probe, remove, teardown).
`EdunicDriver.dfy` is the driver as it runs: a class over real descriptor arrays with the loops of the C code. Between any
two accesses its method `Others` lets the other agents take any number of steps; `EdunicRely.dfy` says what a thread can
rely on meanwhile, and `EdunicRounds.dfy` what one access of each loop does.

**The relay** (`tcp_accelerator/tcp_accelerator.c`). One connection with two forwarding buffers, partial reads and writes,
half-close and computed epoll interest. `Relay.dfy` is the state machine over batches of events, `RelayTheorems.dfy` and
`RelayCalls.dfy` (what every recv and send contributes) have the results, `RelayBuffers.dfy` the classes over byte arrays with
in-place compaction.

**The chat server** (`chat/server.c`). Users, clients in four modes, lines over byte streams, a message log and a users
file. `ChatText.dfy` (decimal numbers, C strings, lines of a file), `ChatUsers.dfy` (table and file), `ChatLog.dfy` (log,
history, conversation list) and `Chat.dfy` (sessions) are the model; `ChatTheorems.dfy`, `ChatFraming.dfy`, `ChatRuns.dfy`
and `ChatSessions.dfy` (what each line and event does) have the results; `ChatQueries.dfy` and `ChatServer.dfy` are the loops
and tables as they run.

`Ring.dfy`, `Memory.dfy` and `Octets.dfy` are shared. `dafny verify dfyconfig.toml` checks everything.

## What the proofs found

- The emulated device calls the interrupt handler directly and never looks at the interrupt mask. So the handler does run
  while NAPI is scheduled and the causes are masked, which `linux_nic_lab/driver/nic_irq.c:78-81` calls impossible: from
  every state at rest two frames bring it about (`EdunicLate.LateHandler`). `EdunicLate.FindsScheduled` says exactly when
  it happens. NAPI's MISSED bit is what saves the completion: without it the same steps leave all agents at rest with a
  completed frame that nobody reclaims (`EdunicLate.MissedSaves`).
- `linux_nic_lab/driver/nic_tx.c:180-183` counts on the queue being stopped whenever there is no room. One race breaks that:
  a poll that saw room may wake the queue after xmit has filled the ring again. `EdunicQueue.ShutExactly` shows that no
  other step does, `EdunicQueue.RestartsFull` that this one happens, and `EdunicQueue.QueueAfterCall` that the next call of
  xmit stops the queue again.
- A failed receive refill is never made up for. Some run hands up another frame if and only if failures have cost fewer than
  all n-1 buffers (`EdunicStarving.ReceivesExactly`), and from every reachable state, that of a driver with all its buffers
  posted included, some run costs all of them (`EdunicStarving.CanStarve`, `EdunicStarving.ComesUpAndStarves`).
- `edunic_remove` is described as the reverse of acquisition (`linux_nic_lab/driver/nic_pci.c:260-262`), but it frees the
  net device after the mapping and the regions; nothing is leaked (`EdunicLifecycle.RemoveDevice`).
- RDHUP closes a side of the relay without reading what the socket still holds. In a run that finishes, a peer gets the
  whole stream if and only if no event reports RDHUP for an open side and leaves bytes unread (`RelayTheorems.WholeStream`;
  for the one event that decides, `RelayTheorems.ClosingEvent`). It happens with every stream of more than 65536 bytes that
  is there, with its end, at the first recv (`RelayTheorems.RdhupTruncates`).
- A relayed connection can finish without SHUT_WR having been issued in one direction (`RelayTheorems.FinishWithoutFin`);
  `RelayTheorems.FinPassedOn` says exactly when it is issued.
- Some way of cutting a chat client's bytes into chunks of at most 1024 throws bytes away if and only if they make a line
  that is not ended within 3072 bytes and that 1024 more bytes follow (`ChatRuns.LostExactly`). Otherwise chunking is
  irrelevant (`ChatRuns.ChunkingIrrelevant`, `ChatRuns.WaitingIsHarmless`), and lines of at most 3071 bytes are always safe
  (`ChatRuns.ShortIsKept`); `ChatRuns.ChunkingMatters` is a stream for which it is not.

## Assumptions

Steps are sequentially consistent; barriers and cache maintenance are not modelled. `napi_schedule_prep` and
`napi_complete_done` have the kernel's SCHED and MISSED contract, reading ICR clears it, `queue_work` of an item that is
queued does nothing, and the workqueue runs one item at a time. Outcomes of allocations, DMA mappings, `recv`, `send` and
`epoll_ctl` are inputs. In the edunic machine the other agents may already run while probe posts its buffers, which
admits more runs than the driver has; the class keeps them out. Its properties are meant between open and stop. A char of
the chat server stands for one byte. Half-close is that of section 3.6 of RFC 9293.

## Model

| member | source | states |
|---|---|---|
| Ring.NextIsMasked | linux_nic_lab/driver/nic_tx.c:245 | for 256 slots the successor of an index is the masked sum |
| Ring.UnusedCounts | linux_nic_lab/driver/nic_tx.c:34-46 | the free-slot count computed from wrapped indices is n-1 minus the slots in use |
| Ring.SlotsDiffer | linux_nic_lab/driver/nic_tx.c:36-42 | counters fewer than n apart never share an index |
| EdunicKeeps.StepKeeps | linux_nic_lab/README.md:475-486 | every step of every agent keeps the invariant over rings, skbs, histories, counters, interrupts, queue and doorbell |
| EdunicKeeps.Always | linux_nic_lab/README.md:475-486 | the invariant holds after every interleaving, for every ring size |
| EdunicKeeps.BusyPost | linux_nic_lab/driver/nic_hw.c:285-291 | the slot at the engine's head holds the next frame in order and describes it, whatever TDH says |
| EdunicKeeps.IntrKeeps | linux_nic_lab/driver/nic_irq.c:60-91 | each access of the interrupt handler keeps NAPI scheduled for one reason and no completion stranded |
| EdunicKeeps.FinishIrq | linux_nic_lab/driver/nic_irq.c:119-138 | completing NAPI, or promising to poll again, strands nothing |
| EdunicKeeps.HarvestSlot | linux_nic_lab/driver/nic_rx.c:176-205 | DD at the harvest position means a received frame whose record and length are right |
| EdunicTheorems.TxPartition | linux_nic_lab/driver/nic_tx.c:214-250 | in every reachable state each transmit index has one place between next_to_clean and the next lap, counters are ordered, and the slot has the one content of its zone |
| EdunicTheorems.RxPartition | linux_nic_lab/driver/nic_rx.c:97-157 | the receive ring is three consecutive zones: filled with DD, posted empty, not posted |
| EdunicTheorems.EmptyMeansEmpty | linux_nic_lab/driver/nic_rx.c:307-318 | the device's test RDH == RDT means exactly that no published buffer is left |
| EdunicTheorems.OnlyOwnersWrite | linux_nic_lab/README.md:475-486 | no step writes a descriptor or record that its agent does not own, so a refill never overwrites what the device or the harvest still owns |
| EdunicAccepted.AcceptedInOrder | linux_nic_lab/driver/nic_tx.c:205-245 | the frames posted are, unchanged and in order, frames that xmit was called with |
| EdunicFlow.InOrder | linux_nic_lab/driver/nic_hw.c:282-337 | the stack gets an order-preserving subsequence of the frames posted, byte for byte if a frame fits a buffer; looped frames not yet delivered sit in the completed receive buffers |
| EdunicFlow.Accounted | linux_nic_lab/driver/nic_hw.c:291-337 | every frame passed is exactly one of delivered, waiting, dropped and counted, lost with its copy, or skipped for a zero address or length |
| EdunicFlow.RxCapacity | linux_nic_lab/driver/nic_rx.c:166-279 | outstanding receive slots never exceed n-1 and fall short of it by exactly what failed refills cost |
| EdunicFlow.FailureCosts | linux_nic_lab/driver/nic_rx.c:110-127 | a failed allocation costs the rest of its batch for good |
| EdunicFlow.NothingShort | linux_nic_lab/driver/nic_rx.c:104-154 | while allocations succeed nothing is missing |
| EdunicFlow.StarvedForever | linux_nic_lab/driver/nic_rx.c:275-276 | once failed refills have cost n-1 buffers no run delivers another frame |
| EdunicStarving.ReceivesExactly | linux_nic_lab/driver/nic_rx.c:104-154 | some run hands up another frame if and only if failed refills have cost fewer than n-1 buffers |
| EdunicStarving.CanStarve | linux_nic_lab/driver/nic_rx.c:110-127 | from every reachable state some run costs all n-1 buffers |
| EdunicStarving.ComesUpAndStarves | linux_nic_lab/driver/nic_pci.c:186-197 | also from the state in which probe has posted all n-1 |
| EdunicFlow.TxBooksBalance | linux_nic_lab/driver/nic_tx.c:310-316 | frames and bytes posted are tx_packets and tx_bytes plus what lies between next_to_clean and next_to_use |
| EdunicFlow.NeverMisused | linux_nic_lab/driver/nic_tx.c:296-305 | no skb is ever missing, freed twice, unmapped twice or with other values than it was mapped with, or accessed beyond its end |
| EdunicFlow.MappedExactly | linux_nic_lab/driver/nic_rx.c:122-131 | an skb is mapped exactly while it lies in one slot of one ring or is in an agent's hands |
| EdunicQueue.QueueAfterCall | linux_nic_lab/driver/nic_tx.c:62-76 | a call of xmit that no poll disturbs: on a full ring the skb goes back and the queue is stopped, the frame that takes the last slot leaves it stopped, and any other leaves it as it was |
| EdunicQueue.ShutExactly | linux_nic_lab/driver/nic_tx.c:180-183 | a full ring keeps its queue stopped, or xmit about to stop it, in every step but a wakeup that the poll decided on while there was room |
| EdunicQueue.FullMeansStopped | linux_nic_lab/driver/nic_tx.c:180-183 | so it does throughout every run without such a wakeup |
| EdunicQueue.RestartsFull | linux_nic_lab/driver/nic_tx.c:48-60 | from every state at rest a run with such a wakeup ends with the ring full, xmit idle and the queue running |
| EdunicCauses.CausesExactly | linux_nic_lab/driver/nic_irq.c:54-72 | each interrupt cause is raised by one access and stays until a handler reads ICR; the carrier changes only then |
| EdunicCauses.LinkComesUp | linux_nic_lab/driver/nic_irq.c:65-72 | once the link timer has fired and its call of the handler has ended, the carrier is on |
| EdunicProgress.NoLostWakeup | linux_nic_lab/driver/nic_tx.c:48-83 | when neither side is mid-sequence, a stopped queue means zero unused slots |
| EdunicProgress.NeverOverfilled | linux_nic_lab/driver/nic_tx.c:178-184 | xmit fills a slot only while one is unused |
| EdunicProgress.NoLostDoorbell | linux_nic_lab/driver/nic_hw.c:357-360 | frames announced beyond the current or last run have a run queued |
| EdunicProgress.LagIsHarmless | linux_nic_lab/driver/nic_hw.c:282-340 | TDH may lag, but each run starts at the first frame not passed, so none is skipped or repeated |
| EdunicProgress.RunCovers | linux_nic_lab/driver/nic_hw.c:285-337 | what is left of a run is the masked distance from head to the snapshot of TDT |
| EdunicProgress.ScheduledOnce | linux_nic_lab/driver/nic_irq.c:83-90 | NAPI is scheduled exactly when it is listed, being polled or claimed by one handler, never two of these; a closed mask is going to be opened |
| EdunicProgress.NothingStranded | linux_nic_lab/driver/nic_irq.c:104-139 | a completed slot not yet harvested has NAPI scheduled or a handler call on its way that schedules it |
| EdunicLate.FindsScheduled | linux_nic_lab/driver/nic_irq.c:74-90 | the handler finds NAPI scheduled, sets MISSED and ends, exactly when NAPI is listed, being polled or claimed by the other handler, and otherwise claims it |
| EdunicLate.LateHandler | linux_nic_lab/driver/nic_irq.c:75-83 | from every state at rest a run leads to a handler at napi_schedule_prep while NAPI is scheduled, masked and past its look at the rings |
| EdunicLate.MissedSaves | linux_nic_lab/driver/nic_irq.c:83-90 | and from there the same steps end with NAPI listed again, or, without MISSED, with all agents at rest and a completion left behind |
| EdunicProgress.PollEndsClean | linux_nic_lab/driver/nic_rx.c:176-183 | a poll under budget that leaves anything completed behind is followed by another |
| EdunicProgress.RestMeansDone | linux_nic_lab/driver/nic_irq.c:15-24 | when all agents are idle, every frame was passed and consumed, every looped frame delivered, the queue runs, interrupts are unmasked and the counters balance |
| EdunicSettles.StepLowers | linux_nic_lab/driver/nic_hw.c:285-337 | every step of every agent lowers one lexicographic rank, unless it is fed new work |
| EdunicSettles.AlwaysSettles | linux_nic_lab/driver/nic_irq.c:104-139 | whatever the scheduler does, the agents come to rest after finitely many steps |
| EdunicRely.OtherStep | linux_nic_lab/driver/nic_tx.c:163-166 | what each thread can rely on while the others take a step |
| EdunicDriver.DescRing.constructor | linux_nic_lab/driver/nic_tx.c:85-123 | a new ring is empty, with indices and registers at 0 |
| EdunicDriver.Adapter.constructor | linux_nic_lab/driver/nic_hw.c:147-164 | both rings set up and programmed |
| EdunicDriver.Adapter.Others | linux_nic_lab/driver/nic_tx.c:163-166 | any steps of other threads keep the machine reachable and what the thread relies on |
| EdunicDriver.Adapter.StopTxQueue | linux_nic_lab/driver/nic_tx.c:68 | one access after which the queue is stopped |
| EdunicDriver.Adapter.MaybeStopTx | linux_nic_lab/driver/nic_tx.c:62-83 | with room nothing happens; without, the queue is stopped before the second look, which decides whether the frame goes on or back |
| EdunicDriver.Adapter.StartXmit | linux_nic_lab/driver/nic_tx.c:168-260 | the frame is given back after the queue was stopped, lost to a failed mapping and counted, or posted unchanged |
| EdunicDriver.Adapter.CleanTxIrq | linux_nic_lab/driver/nic_tx.c:269-329 | everything complete at the call is reclaimed, in fewer rounds than slots, and booked |
| EdunicDriver.Adapter.CleanRxIrq | linux_nic_lab/driver/nic_rx.c:166-279 | hands up at most the budget, and below the budget all that had arrived; the frames handed up are the next looped ones; as many buffers are replaced but for failures |
| EdunicDriver.Adapter.AllocRxBuffers | linux_nic_lab/driver/nic_rx.c:97-157 | posts up to the count with one doorbell; what is not posted stays missing |
| EdunicDriver.Adapter.DeliverRxFrame | linux_nic_lab/driver/nic_rx.c:299-342 | the frame, cut to a buffer, joins the received frames or is dropped and counted, the latter only without a published buffer |
| EdunicDriver.Adapter.FindBuffer | linux_nic_lab/driver/nic_rx.c:307-318 | the frame is dropped exactly on the branch taken, and only without a published buffer |
| EdunicDriver.Adapter.PassFrame | linux_nic_lab/driver/nic_hw.c:286-337 | one frame gets one fate and is completed |
| EdunicDriver.Adapter.TxWorker | linux_nic_lab/driver/nic_hw.c:274-344 | passes in order every frame announced at the call and none beyond its snapshot of TDT |
| EdunicDriver.Adapter.KickTx | linux_nic_lab/driver/nic_hw.c:357-360 | queues the work item |
| EdunicDriver.Adapter.ReadIcr | linux_nic_lab/driver/nic_irq.c:61-74 | one access that clears the causes, passes on the link and says whether RX or TX was among them |
| EdunicDriver.Adapter.SchedulePrep | linux_nic_lab/driver/nic_irq.c:83 | one access that claims NAPI exactly if it was not scheduled, and else marks it missed |
| EdunicDriver.Adapter.RunIntr | linux_nic_lab/driver/nic_irq.c:47-94 | the handler goes on exactly if ICR named RX or TX at the call, claims NAPI exactly if at napi_schedule_prep nobody else has it, and leaves the run's results alone |
| EdunicDriver.Adapter.EndPoll | linux_nic_lab/driver/nic_irq.c:122-134 | NAPI is completed, and a mask write owed, exactly below the budget and without MISSED; otherwise it is listed again |
| EdunicDriver.Adapter.UnmaskIrq | linux_nic_lab/driver/nic_irq.c:135-136 | the owed write opens the mask |
| EdunicDriver.Adapter.PollOnce | linux_nic_lab/driver/nic_irq.c:104-139 | what was transmitted at the call is reclaimed, and below the budget what was received is delivered; then NAPI is completed and this call's write opens the mask, or NAPI is listed again |
| EdunicDriver.Adapter.PostInitial | linux_nic_lab/driver/nic_pci.c:186-197 | probe posts up to n-1 buffers |
| EdunicLifecycle.FreeRingFrees | linux_nic_lab/driver/nic_rx.c:64-77 | freeing a ring frees exactly the skbs in it, each unmapped as it was mapped |
| EdunicLifecycle.TornDown | linux_nic_lab/driver/nic_pci.c:280-303 | after any run, freeing both rings leaves every skb released and none mapped |
| EdunicLifecycle.FreeTxResources | linux_nic_lab/driver/nic_tx.c:125-158 | the loop frees the transmit ring |
| EdunicLifecycle.FreeRxResources | linux_nic_lab/driver/nic_rx.c:54-87 | the loop frees the receive ring |
| EdunicLifecycle.SetupRing | linux_nic_lab/driver/nic_rx.c:28-52 | descriptors and records, or neither |
| EdunicLifecycle.Register | linux_nic_lab/driver/nic_pci.c:199-240 | emulation, NAPI and interface, or nothing of it |
| EdunicLifecycle.ProbeRings | linux_nic_lab/driver/nic_pci.c:172-244 | rings, buffers, emulation, NAPI and interface, or nothing of it and no skb left |
| EdunicLifecycle.ProbeDevice | linux_nic_lab/driver/nic_pci.c:93-254 | all resources with at least one buffer posted, or everything given back in reverse order and no skb left; the former exactly if the kernel refuses nothing and grants a buffer |
| EdunicLifecycle.RemoveDevice | linux_nic_lab/driver/nic_pci.c:264-304 | everything is given back and no skb is left, though not in reverse order |
| RelayTheorems.ReceiveOk | tcp_accelerator/tcp_accelerator.c:355-436 | receiving keeps received == sent + pending within 65536 bytes |
| RelayTheorems.FlushOk | tcp_accelerator/tcp_accelerator.c:445-509 | sending any part keeps it too |
| RelayTheorems.BatchKeeps | tcp_accelerator/tcp_accelerator.c:1242-1361 | a batch in either order, with stale events, keeps the invariant |
| RelayTheorems.Always | tcp_accelerator/tcp_accelerator.c:1217-1362 | the invariant holds after every run of batches |
| RelayTheorems.Conservation | tcp_accelerator/tcp_accelerator.c:177-212 | received is what was sent followed by what is buffered, and a finished connection has forwarded everything |
| RelayTheorems.ArmedExactly | tcp_accelerator/tcp_accelerator.c:268-324 | IN is armed exactly while a side is open and its buffer not full, OUT exactly while data is pending, RDHUP always |
| RelayCalls.SendTakes | tcp_accelerator/tcp_accelerator.c:461-486 | after a send that took n bytes the buffer holds exactly the others |
| RelayCalls.SendTakesNothing | tcp_accelerator/tcp_accelerator.c:489-508 | any other send leaves the buffer alone |
| RelayCalls.RecvGives | tcp_accelerator/tcp_accelerator.c:364-408 | recv appends what it returned, as far as there is room |
| RelayCalls.EventMoves | tcp_accelerator/tcp_accelerator.c:830-873 | every event reads what recv hands over and sends what send takes, in full and once |
| RelayCalls.BreaksExactly | tcp_accelerator/tcp_accelerator.c:830-918 | exactly which failures make the relay give a connection up |
| RelayCalls.EndToEnd | tcp_accelerator/tcp_accelerator.c:1217-1362 | over any run, what recv handed over is what send took followed by what is buffered, and the other socket was given exactly what send took |
| RelayTheorems.NeverStuck | tcp_accelerator/tcp_accelerator.c:260-346 | an unfinished connection waits for some data event |
| RelayTheorems.NothingAfterFin | tcp_accelerator/tcp_accelerator.c:896-906 | after SHUT_WR nothing is read or sent in that direction for ever, and SHUT_WR is not repeated |
| RelayTheorems.FinPassedOn | tcp_accelerator/tcp_accelerator.c:886-906 | exactly which event issues SHUT_WR |
| RelayTheorems.WorkBounded | tcp_accelerator/tcp_accelerator.c:355-509 | each successful receive, send or end of stream lowers 2*unread + pending + open sides |
| RelayTheorems.AtMostTwicePerByte | tcp_accelerator/tcp_accelerator.c:1217-1362 | a run has at most two productive calls of recv and send a byte and one end of stream a side |
| RelayTheorems.ServedMeansProgress | tcp_accelerator/tcp_accelerator.c:838-873 | every armed event that the kernel serves makes progress |
| RelayTheorems.ServedFinishes | tcp_accelerator/tcp_accelerator.c:1217-1362 | a run without failures in which every batch has an armed data event that the kernel serves finishes within 2*(A+B)+2 batches |
| RelayTheorems.ClosingEvent | tcp_accelerator/tcp_accelerator.c:838-889 | for an event that closes a side, of either endpoint: the rest of the stream gets through in every run that finishes if and only if the event leaves nothing unread, and it leaves something only by RDHUP |
| RelayTheorems.WholeStream | tcp_accelerator/tcp_accelerator.c:886-889 | in a run that finishes each peer gets the other's whole stream if and only if no event reports RDHUP for an open side and leaves bytes unread |
| RelayTheorems.RdhupTruncates | tcp_accelerator/tcp_accelerator.c:886-906 | for every stream of more than 65536 bytes a run that finishes with the rest of it unread |
| RelayTheorems.FinishWithoutFin | tcp_accelerator/tcp_accelerator.c:1024-1032 | a run that finishes without SHUT_WR towards the server |
| RelayBuffers.IoBuffer.Empty | tcp_accelerator/tcp_accelerator.c:156-160 | no pending bytes |
| RelayBuffers.IoBuffer.Pending | tcp_accelerator/tcp_accelerator.c:163-167 | the number of pending bytes |
| RelayBuffers.IoBuffer.Room | tcp_accelerator/tcp_accelerator.c:170-174 | the room behind them |
| RelayBuffers.IoBuffer.ResetIfEmpty | tcp_accelerator/tcp_accelerator.c:177-185 | an empty buffer starts at 0 again |
| RelayBuffers.IoBuffer.Compact | tcp_accelerator/tcp_accelerator.c:188-212 | the overlapping move keeps the pending bytes |
| RelayBuffers.IoBuffer.ReceiveInto | tcp_accelerator/tcp_accelerator.c:355-436 | compacts when full, appends what recv returned |
| RelayBuffers.IoBuffer.FlushTo | tcp_accelerator/tcp_accelerator.c:445-509 | drops what send took |
| RelayBuffers.Connection.constructor | tcp_accelerator/tcp_accelerator.c:736-810 | a new connection |
| RelayBuffers.Connection.UpdateConnectionEvents | tcp_accelerator/tcp_accelerator.c:260-346 | arms what the state asks for |
| RelayBuffers.Connection.ProcessClientEvent | tcp_accelerator/tcp_accelerator.c:830-918 | the client's handler |
| RelayBuffers.Connection.ProcessServerEvent | tcp_accelerator/tcp_accelerator.c:927-1015 | the server's handler |
| RelayBuffers.Connection.ConnectionFinished | tcp_accelerator/tcp_accelerator.c:1024-1032 | both sides closed and both buffers empty |
| RelayBuffers.Connection.HandleEvent | tcp_accelerator/tcp_accelerator.c:1314-1360 | one event, then the test for the end |
| RelayBuffers.Connection.Serve | tcp_accelerator/tcp_accelerator.c:1217-1362 | all batches, with the invariant throughout |
| ChatText.Sanitize | chat/server.c:485-507 | the result is free of bars, line breaks and zero bytes, and a clean string is left alone |
| ChatText.ReadShown | chat/server.c:232-239 | printed decimal numbers are read back |
| ChatText.OneMoreLine | chat/server.c:590-596 | a line appended to a complete file is read back as one more line |
| ChatUsers.FindId | chat/server.c:160-170 | the first user with the id, or -1 |
| ChatUsers.FindName | chat/server.c:173-190 | the first user with the name, or -1 |
| ChatUsers.MaxId | chat/server.c:193-205 | the largest id, at least 0 |
| ChatUsers.ReadUserLine | chat/server.c:303-317 | a saved user is read back as it was |
| ChatUsers.ReadSaved | chat/server.c:218-351 | a saved table is read back entry by entry |
| ChatText.SanitizedAt | chat/server.c:485-507 | up to the end of the line every character stays but bars, which become slashes |
| ChatText.LinesCover | chat/server.c:290-301 | the pieces fgets returns are the file, cut only behind line breaks and where the buffer is full |
| ChatUsers.LoadsAny | chat/server.c:260-398 | from any file the server starts with its administrator and otherwise the entries of the file; it does not exactly if the table is full without that name |
| ChatUsers.FileFormat | chat/server.c:232-239 | a line of the users file and the numbers in it, by example |
| ChatUsers.OldLineRead | chat/server.c:319-350 | a line of the older format is an active user |
| ChatUsers.RestartLossless | chat/server.c:355-397 | load_users gives back the saved table exactly if the administrator is in it and marked; otherwise it puts that right |
| ChatLog.AppendedIsRead | chat/server.c:510-552 | an appended message is read back as one more record, cut at 1023 bytes |
| ChatLog.LogFormat | chat/server.c:540-547 | a line of the log, by example |
| ChatLog.NumbersOnly | chat/server.c:606-617 | a line with three numbers is a message without text |
| ChatLog.ExchangedExactly | chat/server.c:619-635 | the history of two users is those messages, and only those, that one has sent to the other, in the order of the log |
| ChatLog.StrangersUnseen | chat/server.c:619-635 | a message between any other two changes nothing for them |
| ChatLog.NewestShown | chat/server.c:619-651 | both parties are shown the same last ten messages, ending with the one just sent |
| ChatLog.SlideKeeps | chat/server.c:637-651 | the sliding window holds the last ten |
| ChatLog.TallyRight | chat/server.c:778-829 | each counterpart once, with its latest time, and none left out unless the table is full |
| ChatLog.OuterRight | chat/server.c:838-871 | the exchange sort permutes and orders by time |
| ChatLog.ConversationsRight | chat/server.c:754-871 | the conversation list of any log |
| ChatLog.ConversationsSpelled | chat/server.c:754-871 | who is listed has exchanged a message with the user, beside the time of the latest, once, latest first; only a full table leaves anybody out |
| Chat.FindClient | chat/server.c:407-423 | the first client logged in as the user, or -1 |
| Chat.FindFree | chat/server.c:426-436 | the first free slot, or -1 |
| ChatTheorems.LoginOk | chat/server.c:1091-1258 | login keeps the session invariant and returns 0 exactly when it disconnected its caller |
| ChatTheorems.MenuOk | chat/server.c:1267-1405 | so does the menu |
| ChatTheorems.TalkOk | chat/server.c:1414-1563 | so does a chat |
| ChatTheorems.AdminOk | chat/server.c:1572-1738 | so does the admin page |
| ChatTheorems.RemoveKeeps | chat/server.c:1659-1683 | disconnecting the first client found disconnects everyone logged in to the removed account |
| ChatTheorems.NotOneself | chat/server.c:1635-1646 | an administrator never removes themselves |
| ChatTheorems.ProcessLineOk | chat/server.c:1747-1788 | every line keeps the invariant |
| ChatFraming.SplitMore | chat/server.c:2240-2286 | later bytes are split as if they followed the unfinished line |
| ChatFraming.TailFits | chat/server.c:2208-2224 | behind the tail of a stream a chunk overflows only if it makes the stream long; otherwise the lines are those of the longer stream |
| ChatFraming.ShortLines | chat/server.c:2208-2224 | a stream with lines of at most 3071 bytes is not long |
| ChatFraming.DrainOk | chat/server.c:2240-2297 | the loop leaves no complete line in the buffer, or the client is gone, and touches nobody else other than by disconnecting |
| ChatFraming.FeedOk | chat/server.c:2205-2297 | a chunk keeps all invariants |
| ChatFraming.Always | chat/server.c:1948-2299 | the invariants hold after every sequence of connections, chunks and hangups |
| ChatRuns.Sessions | chat/server.c:1091-1258 | distinct users, active administrators, nobody logged in twice or to a removed account, modes that agree with who is logged in |
| ChatRuns.ZeroMeansGone | chat/server.c:1747-1788 | process_line returns 0 exactly when it disconnected its own caller |
| ChatRuns.RemovalComplete | chat/server.c:1663-1683 | removing an account leaves nobody logged in to it and everybody else as they were |
| ChatRuns.AlwaysRestartable | chat/server.c:260-398 | at every moment a restart would read the users file back as the table there is |
| ChatRuns.FramedExactly | chat/server.c:2198-2297 | the lines processed are the newline split of the stream, the buffer its tail |
| ChatRuns.DrainTwice | chat/server.c:2240-2297 | draining twice with bytes added between is adding them first |
| ChatRuns.LineExtends | chat/server.c:2288-2293 | processing a line does not depend on the bytes behind it, nor on those any other client has sent |
| ChatRuns.LostExactly | chat/server.c:2208-2224 | some division into chunks of at most 1024 takes the overflow branch if and only if a line is not ended within 3072 bytes and 1024 more follow, before the client is disconnected |
| ChatRuns.ChunkingIrrelevant | chat/server.c:2140-2297 | unless that is so, any two ways of cutting the same bytes leave the whole server in the same state |
| ChatRuns.ShortIsKept | chat/server.c:2208-2224 | it is never so with lines of at most 3071 bytes |
| ChatRuns.WaitingIsHarmless | chat/server.c:2140-2297 | when the unfinished beginning of a line arrives makes no difference, whatever events of others come before the rest |
| ChatRuns.ChunkingMatters | chat/server.c:2208-2224 | a stream for which one division loses a line that another processes |
| ChatRuns.MessageLogged | chat/server.c:1446-1493 | a chat line to an active partner is one more record and nothing else touches the log |
| ChatRuns.FirstStart | chat/server.c:355-397 | without files the server starts with the one administrator |
| ChatSessions.LoginKnown | chat/server.c:1131-1258 | an active account that nobody uses: its name lets the client in, with its conversations listed |
| ChatSessions.LoginUnknown | chat/server.c:1179-1258 | an unknown name is registered with an id above all others, saved, and let in |
| ChatSessions.LoginRefused | chat/server.c:1131-1193 | a removed account, one in use, or a full table: the client is disconnected and nothing else changes |
| ChatSessions.LoginIgnored | chat/server.c:1099-1123 | an empty or overlong name changes nothing |
| ChatSessions.MenuQuits | chat/server.c:1275-1287 | q disconnects |
| ChatSessions.MenuRefreshes | chat/server.c:1289-1296 | r lists the conversations as they are now |
| ChatSessions.MenuToAdmin | chat/server.c:1298-1326 | a leads administrators, and nobody else, to the admin page |
| ChatSessions.MenuOpens | chat/server.c:1328-1405 | every other line opens a chat with the registered other user it names, or does nothing |
| ChatSessions.TalkQuits | chat/server.c:1422-1434 | q leads back to the menu |
| ChatSessions.TalkSends | chat/server.c:1436-1493 | every other line is one more record if it is not empty and the partner is active, and changes nothing else |
| ChatSessions.AdminQuits | chat/server.c:1580-1590 | q leads back to the menu |
| ChatSessions.AdminRemoves | chat/server.c:1633-1696 | d marks an account as removed, in table and file, and disconnects whoever uses it and nobody else |
| ChatSessions.AdminRestores | chat/server.c:1701-1729 | r restores it |
| ChatSessions.AdminIgnores | chat/server.c:1592-1738 | every other line does nothing |
| ChatSessions.Accepted | chat/server.c:2007-2046 | a connection gets the first free slot, not logged in |
| ChatSessions.TurnedAway | chat/server.c:2007-2020 | with none free nothing changes |
| ChatSessions.HungUp | chat/server.c:2150-2196 | a hangup frees the slot and only that |
| ChatSessions.NobodyThere | chat/server.c:2112-2133 | bytes for a slot that is free go nowhere |
| ChatSessions.Overflowed | chat/server.c:2208-2224 | too long a line loses what the buffer held and the chunk, and nothing else |
| ChatQueries.FindUserIndexById | chat/server.c:160-170 | the loop finds the first match |
| ChatQueries.FindUserIndexByName | chat/server.c:173-190 | the loop finds the first match |
| ChatQueries.GetMaxUserId | chat/server.c:193-205 | the loop finds the maximum |
| ChatQueries.FindClientByUserId | chat/server.c:407-423 | the loop finds the first match |
| ChatQueries.FindFreeClientSlot | chat/server.c:426-436 | the loop finds the first free slot |
| ChatQueries.PrintUsers | chat/server.c:230-240 | the loop prints the table |
| ChatQueries.SanitizeMessage | chat/server.c:485-507 | in place, the string becomes its sanitized form |
| ChatQueries.CopyString | chat/server.c:528-532 | strncpy: the string as far as there is room, zero bytes behind it |
| ChatQueries.CleanCopy | chat/server.c:526-538 | the copied and cleaned text is the stored text |
| ChatQueries.LastMessages | chat/server.c:581-652 | the window ends as the last ten messages that one of the two has sent to the other |
| ChatQueries.CountRecord | chat/server.c:778-829 | one record in the two parallel arrays |
| ChatQueries.SortContacts | chat/server.c:838-871 | the exchange sort, in lockstep on both arrays |
| ChatQueries.ConversationList | chat/server.c:735-871 | gathers and sorts the contacts |
| ChatQueries.LineBuffer.Add | chat/server.c:2208-2234 | appends a chunk, or loses it with what was there |
| ChatQueries.LineBuffer.NextLine | chat/server.c:2244-2286 | cuts off the first line and moves the rest to the front |
| ChatQueries.LineBuffer.Receive | chat/server.c:2205-2297 | all complete lines, leaving the tail, or those up to the line that disconnects the client, leaving nothing |
| ChatServer.ChatServer.Load | chat/server.c:260-398 | reads the users file, forces the administrator, saves |
| ChatServer.ChatServer.Save | chat/server.c:218-257 | the file is the printed table |
| ChatServer.ChatServer.DisconnectClient | chat/server.c:439-472 | zeroes an active slot |
| ChatServer.ChatServer.ShowConversationList | chat/server.c:728-871 | renumbers the client's contacts |
| ChatServer.ChatServer.OpenChatWith | chat/server.c:970-1007 | chat mode with a registered partner other than oneself, or nothing |
| ChatServer.ChatServer.AppendMessage | chat/server.c:510-552 | whoever reads the log afterwards finds its old records and behind them the message, copied, cut and cleaned |
| ChatServer.ChatServer.LoginLine | chat/server.c:1091-1258 | process_login |
| ChatServer.ChatServer.MenuLine | chat/server.c:1267-1405 | process_menu |
| ChatServer.ChatServer.ChatLine | chat/server.c:1414-1493 | process_chat |
| ChatServer.ChatServer.AdminLine | chat/server.c:1572-1738 | process_admin |
| ChatServer.ChatServer.LineFrom | chat/server.c:1747-1788 | process_line |
| ChatServer.ChatServer.DrainLines | chat/server.c:2240-2297 | the loop over complete lines, until the client is gone |
| ChatServer.ChatServer.ReceiveChunk | chat/server.c:2205-2297 | one chunk |
| ChatServer.ChatServer.HandleEvent | chat/server.c:1983-2298 | one event |
| ChatServer.ChatServer.Serve | chat/server.c:1948-2299 | any sequence of events, with the invariants throughout |

## Left out

- edunic: weak memory, DMA cache maintenance, real MMIO, IRQ vectors, ethtool, MTU and MAC callbacks, logging.
- edunic: open and stop while a poll or the link timer is running; what is proved is meant between open and stop, and teardown assumes that the kernel has got every thread out of the driver.
- edunic: the link timer has no method of its own; its interrupts are steps of the machine, among those of `Others`.
- edunic: ring storage is part of the adapter's constructor, so that `ProbeRings` and `SetupRing` account for its allocation as resources rather than as memory.
- edunic: `eth_type_trans`, checksum flags and GRO; what the stack is handed are the bytes of the frame.
- EdunicDriver.Adapter.RunIntr: says what it finds and decides, not how ICR, the mask and NAPI stand when it returns, because other threads may already have acted on them; the machine's results do.
- EdunicLifecycle.ProbeDevice: the names, operations and MAC address set on the way are not modelled.
- Relay: accept, connect, socket options and the life of the connection object across a batch; one live connection, and after its destruction no event of it.
- Relay: EPOLLERR and EPOLLHUP are one flag, as the code treats them alike.
- RelayTheorems.ServedFinishes: that every batch has a data event to offer is up to the peers; that one is armed is `RelayTheorems.NeverStuck`.
- Chat: sockets, prompts, the display of lists and of times, and notifications to the recipient.
- Chat: file input and output that fails, `int` overflow of ids and of parsed numbers; tables start with ids to spare.
- Chat: users files with duplicate ids or names, or with administrators that are not active, are read by `Load` but are outside the session results.
- Chat: all lines of one chunk get the same time.
- ChatRuns.ChunkingIrrelevant: is about chunks with no event of another client between them; for those `ChatRuns.WaitingIsHarmless` covers unfinished lines, and `ChatRuns.FramedExactly` says which lines are processed.
- ChatServer.ChatServer.ReceiveChunk: keeps a client's buffer as a string of its slot; the array with its moves is `ChatQueries.LineBuffer`.
- ChatServer.ChatServer.ChatLine: does not model what the recipient's screen shows.
- `net_device/simple_netdev.c` and `chat/server_group.c` repeat these ideas in a simpler form; `netfilter`, `ebpf`, `packet_capture`, `kernel_network`, `epoll_server`, `udp`, `tcp`, `linux_nic_lab/userspace` and `chat/client.c` are thin layers over library or kernel calls.
