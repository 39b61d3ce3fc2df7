# AudioX, modelled and verified

AudioX turns a small Linux board into an audio workstation: a routing graph of inputs, effects and
outputs runs block by block on one audio thread, while other threads edit the graph, load effects,
trigger sounds and keep Bluetooth streams going. Around it are protocols that have to survive power
cuts, bad radio peers and bytes from anywhere. This project models those parts and proves what they
are for. Each module stands for one of them:

- **The graph engine.** `RoutingCompile` eliminates the mixer node, `GraphSort` orders the processing
  nodes and indexes the routes, `GraphMixer` runs one block on buffers that are shared by pointer and
  copied on write, `IdleDemand` computes what any sink still needs, `AudioGraph` says what signals a
  graph denotes, and `GraphEngine` holds the runtime graph and joins it all: from a saved graph to the
  samples at each sink.
- **Threads.** `TripleBuffer` (both snapshot mailboxes), `PcmRing`, `OutputRing` and `InputRing` (the
  Bluetooth PCM rings), `PluginReclaim` (freeing plugin hosts), `SoundSlots` (the soundboard's slots
  and voices) and `PluginHost` (the audio side of the sandboxed plugin's mailbox).
- **Power cuts and files.** `RestoreTransaction` (a staged backup), `BootRecovery` (trial boots of an
  update) and `ConfigCache` (the caches of parsed configuration files).
- **Radio and bytes.** `AvdtpLink` (Bluetooth AVDTP signalling), `SdpServer` (service discovery),
  `MidiStream`, `UpdateArchive`, `PluginPackage`, `Checksums`, `ByteFormat`, `DnsName` and `MdnsReply`
  (the multicast DNS responder).
- **Observers.** `AdaptiveBuffer` (the period that follows underruns) and `LogTail` (the log reader). `Basics`
  holds what several modules share.

Where the program updates an object in place, the module has a class with those fields, and its
methods say what the new state is. Where two threads share it, there is also a state machine whose
steps are the single loads, slot accesses and stores, and a theorem over every schedule of them; the
class then shows that an operation is a run of those steps. Ghost fields record the traffic and are
never looked at by a step. Memory is sequentially consistent, samples and rates are reals, and
lengths and counters that wrap in the program wrap in the model where that can matter.

## What turned out to be false

These are properties one would expect; each is refuted by a concrete run, and the exact condition
under which it holds is proved beside it, for every run.

- *A cache hit returns what parsing would return.* Not if a file was absent when its stamp was taken,
  appeared, was parsed, and vanished before the second stamp (`ConfigCache.CrossedHitIsWrong`), nor if
  it could not be opened when it was parsed (`ConfigCache.FailedOpenIsServed`). In every schedule a hit
  is right about a file if and only if its entry is neither crossed nor blind in these ways; a crossed
  one is only served to a call that found no file, and a blind one only after a failed open
  (`ConfigCache.EveryInterleaving`), so whoever finds the file there and gets content can rely on it
  (`ConfigCache.ThereIsRight`). Right means: what was there at some moment of the call. It is what was
  there at the call's own stat if the stamp had settled by then; before that a rewrite within the
  rounding of the time stamps can come in between (`ConfigCache.HitAfterRewrite`).
- *A pending or finished confirmation leaves the last confirmed boot set as the backup.* The comment
  at `include/boot_recovery.hpp:280` says so, but a power cut between removing the trial and
  removing the backup leaves the older backup, which the next update keeps
  (`BootRecovery.ConfirmCutKeepsStaleBackup`). The next update's backup is the confirmed boot set if
  and only if the confirmation removed the old backup, or there was none, or it was the same
  (`BootRecovery.BackupIsConfirmedSet`).
- *A pending trial has a backup to go back to.* Not if the trial cannot be removed while the backup
  can, at a confirmation (`BootRecovery.StuckTrialLosesBackup`) or at the end of a revert
  (`BootRecovery.RevertLosesBackup`). Over every sequence of preparations, installations, starts and
  confirmations a trial is without its backup if and only if such a step has stranded it and none has
  mended that since (`BootRecovery.OrphanedRunIff`).
- *A backup is dropped only when it has been restored.* A backup whose directory cannot be opened or
  read through is taken for a shorter one and dropped all the same
  (`BootRecovery.UnreadableBackupIsDropped`). A revert that removes anything has restored the whole
  backup if and only if every file its listing did not show was as in the backup already
  (`BootRecovery.RemovalRestoresIff`), so always where the listing works.
- *An update that nobody confirms gets three boots at most.* A trial file that cannot be read is taken
  for none, and the image boots uncounted (`BootRecovery.UnreadIsUncounted`); `BootRecovery.GrantedIff`
  says exactly when, and `BootRecovery.TrialEnds` bounds the counted ones.
- *A plugin's answer to an old block is never played.* After a block of another size the answer to the
  block before that one is played (`PluginHost.OddBlockPlaysOldAnswer`). An answer that is played
  belongs to the block just before if and only if that one had the prepared size
  (`PluginHost.AnswersBlockBefore`), so always where block sizes are constant (`PluginHost.ConstantSize`).
- *A triggered sound plays the clip that was looked up.* The bank is unlocked between finding a slot
  and reserving it (`src/audio/setup.cpp:237-295`), and a reload in between may put another clip there,
  which then plays (`SoundSlots.AnotherClipPlays`), or none (`SoundSlots.GoneBeforeReserved`). What
  plays has the name that was asked for if and only if the slot still held it when it was reserved,
  which is so if the slot was in use all the time or was found and reserved under one lock
  (`SoundSlots.PlaysWhatWasFound`).
- *An output whose audio slot is active has been started.* A speaker may send START for the source
  endpoint before the output is up; then the slot runs and nobody sends what it collects
  (`AvdtpLink.PlaysBeforeUp`). `AvdtpLink.StartLeavesActive` says from which states a START does that,
  and `AvdtpLink.OnlyStartPlaysEarly` that nothing else does.

One more expectation is corrected without being false in effect: names with pointer loops are not
stopped by the rule that pointers point backwards, because labels read after a pointer move forwards
again; what stops them is the limit on the name's length (`DnsName.LoopRefused`).

## Model

| member | source | states |
|---|---|---|
| RoutingCompile.ExpansionPreservesSums | include/audio/routing_compile.hpp:10-42 | Eliminating the mixer keeps, for every input other than the mixer's own and whatever the outputs carry, the sum that reaches it: direct edges plus, per exit of the mixer, the unit-gain sum of what enters that mixer channel. |
| RoutingCompile.SavedGraph.ExpandRoutingHelper | include/audio/routing_compile.hpp:10-42 | The edge table afterwards is the longest prefix of the expansion that fits; the returned number of skipped edges is exactly what did not fit, and it is zero exactly if nothing is lost. |
| GraphSort.SortProcessNodes | src/audio/processing.cpp:2168-2217 | The result is a topological order of all processing nodes if and only if no cycle runs through them; with a cycle the list is untouched, and a list that is in order already keeps its order. |
| GraphSort.OrderExcludesCycle | src/audio/processing.cpp:2168-2217 | A graph with a topological order has no cyclic walk of any length. |
| GraphSort.StuckMeansCyclic | src/audio/processing.cpp:2185-2211 | If every node of a nonempty set is fed from within the set, there is a cycle: a sort that finds no ready node has found a cyclic graph. |
| GraphSort.BuildProcessRouteIndex | src/audio/processing.cpp:1926-1966 | Each node's slice of the index is exactly the list of the routes that leave it, in their original order. |
| GraphMixer.RoutedAdds | src/audio/processing.cpp:1659-1705 | Routing through shared pointers never overwrites a buffer that any other input or finished output still reads; the routed input gains exactly the route's gain-weighted term. |
| GraphMixer.ProcessedKeepsInv | src/audio/processing.cpp:1710-1785 | Processing a node changes no other input and no finished output, and gives the node's outputs the effect of its inputs. |
| GraphMixer.BlockSolves | src/audio/processing.cpp:2369-2401 | One block over a topological order ends with signals that satisfy the graph's equations: every input is the gain-weighted sum of the outputs routed to it, every output the effect of its node's inputs, blocked nodes excepted. |
| GraphMixer.SolutionUnique | src/audio/processing.cpp:2369-2401 | The equations of an acyclic graph have one solution, so the block computes what the graph denotes and nothing else. |
| GraphMixer.RunBlockKeepsSilence | src/audio/processing.cpp:1592-1620 | Whatever the graph, cyclic ones included, no block writes the shared silent buffer that cleared inputs point to. |
| IdleDemand.BuildIdleDemand | src/audio/processing.cpp:2228-2261 | Terminates; an output channel is demanded if and only if a chain of routes with nonzero gain through unblocked nodes leads from it to a sink, cycles included, and an input exactly if such a chain starts behind it. |
| IdleDemand.ClosedCoversChain | src/audio/processing.cpp:2228-2261 | Every set closed under demand propagation contains all demanded channels: the fixed point is the least one. |
| IdleDemand.UndemandedInaudible | src/audio/processing.cpp:2228-2301 | As long as the controls stay the same, two runs over any number of blocks that differ only in what undemanded source channels render have the same samples at every sink input in every block, even if effects remember every input they have been processed with, in any order of the nodes and with cycles. |
| GraphEngine.SavedBlockSolves | src/audio/processing.cpp:2152-2166 | Compiling, expanding and running preserve meaning: a block of the compiled graph solves the saved graph, with the mixer read as a unit-gain sum. |
| GraphEngine.RunSavedGraph | src/audio/processing.cpp:2040-2226 | From any saved graph, through expansion, classification, compilation, sorting, indexing and one block on a live runtime graph: if the expansion fits, no mixer feeds a mixer and the processing nodes form no cycle, every input of every named thing holds, sample by sample, the sum over the saved edges of signal times gain, and every output is what its thing makes of that: what was rendered for an input from outside, the effect of the input for an enabled effect, the input itself for a disabled one, an unhosted plugin or any other thing, and silence for a muting effect, the mixer and the channels beyond. |
| GraphEngine.SolvedPlays | src/audio/processing.cpp:1568-1590 | What the engine computes with its own node kinds is what the things, effects, gains and saved edges denote: classification loses no effect and no source. |
| GraphEngine.ExpandedMixerFree | include/audio/routing_compile.hpp:10-42 | Unless a mixer feeds a mixer, the expanded graph does not mention the mixer at all. |
| GraphEngine.RuntimeGraph.CompileRoutes | src/audio/processing.cpp:2152-2166 | The two route tables are the compiled edges that leave sources and processing nodes, in order, those whose ends do not exist left out. |
| GraphEngine.RuntimeGraph.SortNodes | src/audio/processing.cpp:2168-2217 | The order is topological for the whole graph if and only if it is acyclic; otherwise the node list is as it was. |
| GraphEngine.RuntimeGraph.RouteCompiledEdge | src/audio/processing.cpp:1659-1705 | Aliasing on the first contribution, copying on the second, adding from then on: the buffers and pointers become what the specification of one route says. |
| GraphEngine.RuntimeGraph.ProcessNode | src/audio/processing.cpp:1710-1785 | The node's outputs and storage become what the specification of processing says, and nothing else changes. |
| GraphEngine.RuntimeGraph.ProcessGraphBlock | src/audio/processing.cpp:2359-2401 | The whole block, with routes found through the index, is the block that `BlockSolves` is about. |
| TripleBuffer.EveryInterleaving | include/audio/context.hpp:58-79 | In every interleaving of the producer's word-by-word writes and exchanges with the consumer's, the three indices are a permutation of 0 to 2, every result is a whole published snapshot, results follow the publishing order, and a new one is the latest published at its exchange. |
| TripleBuffer.NoTornRead | include/audio/context.hpp:58-79 | While the consumer reads, no step of the producer changes the slot it reads or which slot that is. |
| TripleBuffer.Mailbox.Publish | include/audio/context.hpp:64-67 | Publishing is a run of the machine's steps and adds the snapshot to the published ones. |
| TripleBuffer.Mailbox.Consume | include/audio/device_health.hpp:33-37 | A call is a run of the machine's steps, word by word; it succeeds exactly if something new is there or the current snapshot was asked for, and then gives the last one published and records it as a result. |
| PcmRing.AcceptedFits | include/audio/bluetooth_stream.hpp:59-63 | The free space computed from wrapped 32-bit indices never admits more than the ring has room for. |
| PcmRing.SlotsHold | include/audio/bluetooth_stream.hpp:134-136 | The two neighbouring slots that a read touches still hold the frames that were pushed there, as long as they are recent enough. |
| OutputRing.EveryInterleaving | include/audio/bluetooth_stream.hpp:189-293 | In every interleaving of pushes, packets, rate changes and activations, across any number of index wraps: each output frame blends the two pushed frames around its position, and positions only move forward. |
| OutputRing.PacketsJoin | include/audio/bluetooth_stream.hpp:263-293 | Consecutive packets continue on one line: the position after a packet is the one before plus frames times ratio. |
| OutputRing.WholePositionsUnmodified | include/audio/bluetooth_stream.hpp:276-288 | A frame taken at a whole position reaches the encoder unmodified, clamping and truncation included. |
| OutputRing.Stream.Push | include/audio/bluetooth_stream.hpp:189-211 | Accepts exactly what the frames that are still queued leave free, nothing while inactive, and the pushed stream grows by exactly those frames, in order. |
| OutputRing.Stream.Resample | include/audio/bluetooth_stream.hpp:263-293 | Gives a full packet exactly when enough is queued; frame k is the limited and truncated blend of the two pushed frames around the place where the last packet ended plus k times the ratio, left from left and right from right, and the next packet goes on behind it. These are the outputs that the every-interleaving theorem speaks of. |
| OutputRing.Stream.SetActive | include/audio/bluetooth_stream.hpp:220-233 | Drops everything queued, takes the slot on or off and starts over at ratio one, without losing the record of what was played. |
| InputRing.EveryInterleaving | include/audio/bluetooth_stream.hpp:41-164 | In every interleaving of pushes of at most 2048 frames, starts, stops and renders, across index wraps and backward moves of the read index: every frame read is the one pushed at that place, never one being overwritten, never one from before the generation being played, and within a generation each sample is taken strictly behind the one before. |
| InputRing.Stream.Push | include/audio/bluetooth_stream.hpp:56-74 | Accepts exactly what the frames that are still to be played leave free, and the pushed stream grows by exactly those frames. |
| InputRing.Stream.Start | include/audio/bluetooth_stream.hpp:41-46 | Begins a generation at the next frame to be pushed; nothing pushed or played before is touched. |
| InputRing.Stream.AdoptGeneration | include/audio/bluetooth_stream.hpp:85-96 | A new generation moves the read index to where it began, backwards or forwards, and unprimes; without one nothing changes. |
| InputRing.Stream.Render | include/audio/bluetooth_stream.hpp:84-164 | Sample k is the blend of the two pushed frames around the beginning plus k times the ratio, in the proportion of what lies between. The beginning is where the last render stopped, where a new generation starts, or the target behind a sender that is far ahead; a full render leaves the next one to go on at beginning plus count times ratio; an unprimed one waits for the target; and it runs dry exactly when the next frame is missing, unprimed and at the end of what was pushed. |
| InputRing.TargetFill | include/audio/bluetooth_stream.hpp:76-81 | Playback begins at 120 ms of audio, rounded down, and at least 512 frames, which leaves room for two of the largest pushes. |
| PluginReclaim.KeptSafe | src/audio/plugins.cpp:57-85 | Freeing what the announced counter has reached, compared in wrapped 32-bit arithmetic, takes nothing that a cache labelled since then can hold. |
| PluginReclaim.ReachedTooSoon | src/audio/plugins.cpp:76-80 | Within one turn of the counter, the wrapped comparison takes a later edit for announced if and only if it is more than 2^31 edits ahead. |
| PluginReclaim.Registry.PollPlugins | src/audio/plugins.cpp:57-85 | Frees exactly the retired hosts whose edit the audio thread has announced, or all of them when it is not running; each host stays in exactly one of live, retired and freed. |
| PluginReclaim.Registry.UsePlugin | src/audio/processing.cpp:2268-2301 | After any sequence of edits, polls, refreshes and rebuilds, the host a node calls during a block has not been freed: it is live or retired. |
| PluginReclaim.Registry.RetirePlugin | src/audio/plugins.cpp:46-56 | The host moves to the retired list with the counter value that the edit is about to have; no host is lost or duplicated. |
| PluginReclaim.Registry.SetEffect | src/audio/setup.cpp:819-847 | A changed effect retires its old host and counts one edit; all invariants of the registry are kept. |
| PluginReclaim.Registry.LoadEffects | src/config/scenes.cpp:424-432 | Replacing all effects at once retires every host there was. |
| PluginReclaim.Registry.DeleteEffect | src/audio/setup.cpp:1006-1019 | Deleting succeeds exactly for a known effect, and its host is retired, not freed. |
| PluginReclaim.Registry.RefreshNode | src/audio/processing.cpp:2268-2301 | A cache entry is refreshed unless its label says nothing has changed since; then it is what the table holds anyway. |
| SoundSlots.Soundboard.Find | src/audio/setup.cpp:198-214 | Finds the first loaded slot of that name, or none. |
| SoundSlots.Soundboard.Reserve | src/audio/setup.cpp:237-295 | The slot's count goes up by one; counts equal reserved, queued and playing uses before and after, for every slot; what is reserved is what was found unless a reload has met the slot unused since. |
| SoundSlots.Soundboard.FindAndReserve | src/audio/setup.cpp:258-270 | Found and reserved under one lock, the slot holds the clip that was asked for. |
| SoundSlots.Soundboard.Enqueue | src/audio/setup.cpp:216-235 | Queues the event, or gives the reference back exactly when the queue is full; counts stay balanced. |
| SoundSlots.Soundboard.ReloadFile | src/audio/setup.cpp:396-482 | Choosing and clearing a slot for a file leaves every slot in use as it is. |
| SoundSlots.Soundboard.EndReload | src/audio/setup.cpp:396-482 | Clears exactly the clips that the directory no longer has and that nothing uses. |
| SoundSlots.Soundboard.ReloadBank | src/audio/setup.cpp:396-482 | A whole reload gives the bank that loading the directory's files one after the other and then sweeping it gives. |
| SoundSlots.Soundboard.VoicePlaysAsked | src/audio/setup.cpp:237-295 | A voice plays the clip its slot held when it was reserved; its name is the one asked for if and only if it was then. |
| SoundSlots.PlaysWhatWasFound | src/audio/setup.cpp:237-295 | Over every history of the bank: what plays has the name asked for if and only if the slot held it at the reservation, which holds if the slot was in use since it was found, or if it was found and reserved at once. |
| SoundSlots.ReloadIsBankStep | src/audio/setup.cpp:396-482 | Every step of a reload leaves slots in use alone, so such histories are what reloads make. |
| SoundSlots.GoneBeforeReserved | src/audio/setup.cpp:237-295 | After one reload the slot that was found is empty, after another it holds the other file's clip. |
| SoundSlots.AnotherClipPlays | src/audio/setup.cpp:237-295 | The history found, emptied, refilled, reserved, started is one of the bank, and in the end the reserved slot holds a playable clip that does not have the name that was looked up. |
| SoundSlots.Soundboard.StopVoice | src/audio/processing.cpp:1261-1280 | Ends the voice, gives back its one reference, and unsets the held voice if it was it; stopping a silent voice changes nothing. |
| SoundSlots.Soundboard.DrainEvent | src/audio/processing.cpp:1291-1304 | A discarded event gives back its reference and no other. |
| SoundSlots.Soundboard.PickVoiceForStart | src/audio/processing.cpp:1306-1347 | A silent voice if there is one, else the oldest that may be taken; a held voice is spared unless the new sound is held itself. |
| SoundSlots.Soundboard.ConsumeEvent | src/audio/processing.cpp:1349-1422 | An event becomes a voice exactly if its clip is loaded and has frames, a rate and one or two channels; the voice plays what the slot held when it was reserved, from its beginning, at the pitch asked for; it takes a silent voice or the oldest that may be taken, its reference becomes the voice's, and no voice changes but that one and a held one that a new hold replaces. |
| SoundSlots.Soundboard.RenderFrame | src/audio/processing.cpp:1864-1901 | The sample blends the two frames around the voice's place, which lie inside the clip, by where it is between them; the voice moves on by its step and nothing else of it changes, or it ends and gives its reference back exactly when it is past the last frame; no other voice changes. |
| SoundSlots.Soundboard.PlayOut | src/audio/processing.cpp:1864-1901 | A voice played to its end gives the clip's samples in order at its pace, each blended at its place, and ends with exactly the first frame that would lie past the clip. |
| SoundSlots.Soundboard.RenderSample | src/audio/processing.cpp:1864-1912 | One frame of the soundboard is the sum of all playing voices, limited to 0.98, and each of them moves one step. |
| SoundSlots.AtOwnPace | src/audio/processing.cpp:1894-1901 | At the output's rate and natural pitch a clip plays frame by frame, each once and in order, and the voice ends after exactly as many frames as the clip has. |
| SoundSlots.PaceIs | src/audio/processing_fx.cpp:10-30 | A voice moves by its rate over the rate of the output, times its pitch, which is kept between an eighth and eight and is one if it is not positive. |
| SoundSlots.QueuedFrame | src/audio/setup.cpp:216-235 | Filling the next queue entry changes the number of queued uses of no slot, across wrap-around of the queue. |
| PluginHost.Host.CheckResponse | src/audio/plugin_host.cpp:133-158 | The worker's output is used exactly if it answers the request in flight, was not given up and carries the current generation; against a worker that writes anything at any time between request and response. |
| PluginHost.Host.PlayBlock | src/audio/plugin_host.cpp:159-172 | One step of the machine below: the answer, or the block before with non-finite samples zeroed, or silence. |
| PluginHost.EveryRun | src/audio/plugin_host.cpp:129-186 | In every run of blocks of any size, resets and worker steps, everything played is right for its place: an answer to the latest block of the prepared size in this generation with only odd ones after it, or the block just before, or silence, and silence only if there is no block to play. |
| PluginHost.AnswersBlockBefore | src/audio/plugin_host.cpp:129-186 | An answer that is played belongs to the block just before if and only if that one had the prepared size. |
| PluginHost.ConstantSize | src/audio/plugin_host.cpp:129-186 | Where all blocks have the prepared size, every one played is the answer to the block just before, or that block, or silence after a start or reset. |
| PluginHost.FaultIsFinal | src/audio/plugin_host.cpp:133-158 | After a fault no answer is ever played again, whatever happens. |
| PluginHost.ProcessingPlays | src/audio/plugin_host.cpp:129-186 | What a whole block plays, in each of the three cases, and that it hands the new block over whenever the worker is ready. |
| PluginHost.EchoedAnswerPlays | src/audio/plugin_host.cpp:129-186 | However often the host has been reset: what a worker answers in time, giving back the generation it was given, is exactly what is played for the next block. |
| PluginHost.LateIsFault | src/audio/plugin_host.cpp:152-157 | A worker that does not answer is given up after 32 blocks, and not before. |
| PluginHost.Host.Process | src/audio/plugin_host.cpp:129-186 | A whole block is that run of steps: it plays the answer, the block before or silence, each exactly in its case, and hands the new block over. |
| PluginHost.Host.ProcessAfterFault | src/audio/plugin_host.cpp:129-186 | After a fault the host is a pure delay of one block for every sequence of blocks. |
| PluginHost.OddBlockPlaysOldAnswer | src/audio/plugin_host.cpp:139-172 | A run of the machine in which a block of another size in between makes the answer to an older block audible. |
| RestoreTransaction.NothingLost | src/config/backup.cpp:507-545 | While a transaction is pending, the old content of each root is in its place or saved, and the new content is in its place or staged. |
| RestoreTransaction.Disk.Stage | src/config/backup.cpp:418-505 | The restore is published exactly if none is pending, the backup has the required roots and the power lasts for every root and the publishing rename; it is cut only when the power has run out before that, refused otherwise, and until the last rename nothing has changed. |
| RestoreTransaction.Disk.ApplyRoot | src/config/backup.cpp:523-539 | One root's two renames may be cut between; what is left can be resumed, and neither interrupted-restore error occurs. |
| RestoreTransaction.Disk.ApplyPending | src/config/backup.cpp:507-545 | However often it was cut before: no error is reachable, a cut leaves a transaction that resumes, and completion leaves every root exactly as the backup has it, absent ones included. |
| RestoreTransaction.Disk.Boots | src/config/backup.cpp:507-545 | Over any number of boots, each cut after any number of operations: the result is the old state in transition or exactly the backup, nothing changes if nothing is pending, and the first boot with enough power completes it and leaves no remains. |
| RestoreTransaction.Disk.Restore | src/config/backup.cpp:418-545 | A restore from staging to its end: accepted exactly for a complete backup and enough power; then one boot with enough power among any cut ones leaves exactly the backup's roots; otherwise every root stays as it was. |
| BootRecovery.Device.PrepareUpdate | include/boot_recovery.hpp:281-349 | The operations one by one, under any failures and cuts, are the preparation that the next row speaks of. |
| BootRecovery.PrepareLeaves | include/boot_recovery.hpp:281-349 | On success a trial without attempts and a complete backup exist; a complete backup found is kept, otherwise the backup is the present boot set; failures and cuts leave the trial as it was. |
| BootRecovery.Device.BeginBoot | include/boot_recovery.hpp:351-397 | Beginning a boot does what the next row says, operation by operation. |
| BootRecovery.GrantedIff | include/boot_recovery.hpp:351-397 | A boot is granted exactly if a trial is pending and read, is below the limit, its new count is written and the power stays on, and the count is then one higher; it is reverted exactly if it is read and the limit is reached, the count is unreadable or cannot be written; and it passes for one without a trial exactly if there is none or its file cannot be read. |
| BootRecovery.Device.ListBackup | include/boot_recovery.hpp:72-95 | Lists the directory entry by entry, the configuration last; where opening or reading fails the names so far are the listing. |
| BootRecovery.ListsAllIff | include/boot_recovery.hpp:72-95 | The listing shows the whole backup if and only if opening the directory and reading each entry works. |
| BootRecovery.Device.RevertBoot | include/boot_recovery.hpp:428-527 | Listing, restoring and then removing trial and backup, operation by operation. |
| BootRecovery.RevertLeaves | include/boot_recovery.hpp:428-527 | If anything is removed, what the listing showed was restored and nothing else changed; if a file fails, trial and backup stay for the next boot; at any cut each file is either old or restored. |
| BootRecovery.RemovalRestoresIff | include/boot_recovery.hpp:428-527 | A revert that removes trial or backup has restored the whole backup if and only if each file its listing did not show was as in the backup already; in any case if the listing works. |
| BootRecovery.SmoothRevert | include/boot_recovery.hpp:428-527 | Without trouble a revert restores every backed-up file and removes trial and backup. |
| BootRecovery.UpdateUndone | include/boot_recovery.hpp:46-54 | Whatever an installation writes after the preparation: a revert that lists the whole backup and removes trial or backup gives back each of the two archives, the command line, the configuration and the running kernel that were there before, and changes nothing else. |
| BootRecovery.ConfigurationLast | include/boot_recovery.hpp:72-95 | Wherever the power is cut while nothing fails: once the configuration that selects the kernel has changed, everything else is restored. |
| BootRecovery.Device.Confirm | include/boot_recovery.hpp:529-545 | A confirmation removes trial, events and backup, operation by operation. |
| BootRecovery.DropLeaves | include/boot_recovery.hpp:529-545 | For any failures and cuts: the trial is gone exactly if its removal worked, the backup exactly if the power held until its removal and that worked. |
| BootRecovery.BackupIsConfirmedSet | include/boot_recovery.hpp:279-349 | After a confirmation with any failures and cuts, the next update's backup is the confirmed boot set if and only if the confirmation removed the backup, or there was none, or it was that set. |
| BootRecovery.OrphanedIff | include/boot_recovery.hpp:529-545 | A confirmation leaves a trial without a backup if and only if removing the trial fails, the power holds until the backup's removal, and that works. |
| BootRecovery.BootOrphansIff | include/boot_recovery.hpp:351-527 | A start does so if and only if it reverts, the restoring part ends well, and of the removals after it the trial's fails and the backup's works. |
| BootRecovery.StepOrphansIff | include/boot_recovery.hpp:279-545 | For every operation, exactly when it leaves a trial without a backup, and when it mends that; preparing and installing never strand one. |
| BootRecovery.OrphanedRunIff | include/boot_recovery.hpp:279-545 | Over every sequence of preparations, installations, starts and confirmations, with any failures and cuts: a pending trial has no backup if and only if some step has stranded it and none has mended that since. |
| BootRecovery.Device.RunTrial | include/boot_recovery.hpp:351-527 | Any number of boots with any cuts and failures are the boots that the next rows speak of. |
| BootRecovery.TrialRestores | include/boot_recovery.hpp:351-527 | Over any number of boots, each file is as it was or as in the backup; once trial or backup is gone the whole backup has been restored if and only if every file that the dropping boot had not listed is as in the backup. |
| BootRecovery.NothingMissed | include/boot_recovery.hpp:351-527 | If no boot's listing fails, there is no such file. |
| BootRecovery.TrialEnds | include/boot_recovery.hpp:351-527 | No more boots are granted than the counter leaves, and as soon as more of them than that have met no trouble the trial has ended. |
| BootRecovery.UsedUpThenRestored | include/boot_recovery.hpp:351-527 | Once the attempts are used up, after any failed restores, the first boot without trouble ends the trial, restores the backup unless that is gone already, and is not granted. |
| BootRecovery.SmoothTrial | include/boot_recovery.hpp:351-527 | Without trouble exactly the attempts that are left are granted, and the trial ends restored at the boot after them and not before. |
| BootRecovery.ConfirmCutKeepsStaleBackup | include/boot_recovery.hpp:529-545 | Prepare, install, confirm with a power cut, prepare: the second update's backup is the first one's boot set. |
| BootRecovery.StuckTrialLosesBackup | include/boot_recovery.hpp:529-545 | Prepare, and confirm when the trial file cannot be removed: a trial remains pending without a backup. |
| BootRecovery.RevertLosesBackup | include/boot_recovery.hpp:428-527 | The same after a revert, with no confirmation anywhere. |
| BootRecovery.UnreadableBackupIsDropped | include/boot_recovery.hpp:428-527 | Prepare, install, three boots, and a fourth at which the backup's directory cannot be opened: trial and backup are gone and the boot files are the update's. |
| BootRecovery.UnreadIsUncounted | include/boot_recovery.hpp:359-363 | As long as the trial file cannot be read, any number of boots change nothing and count nothing. |
| ConfigCache.EveryInterleaving | src/config/basic.cpp:302-359 | For any number of readers, files, outside writers, failing opens and clock ticks in any order, with stamps rounded down by up to 2 seconds: a hit gives a file's content from some time during the call, and nothing where its stat found nothing, if and only if the entry is neither crossed nor blind; a crossed one is only served where the stat found nothing, a blind one comes from a failed open; where the stamp had settled at the stat, right means what was there at the stat; and with no failed open and nothing crossed, one walk over the files in order, at moments of the call that never go back, would have found all of the data. |
| ConfigCache.ServedTogether | src/config/midi_map.cpp:1346-1397 | Why: the moments of that walk are those of the parses, or those of the call's own stats. |
| ConfigCache.ThereIsRight | src/config/basic.cpp:302-359 | In every schedule, content that a hit gives for a file found at the call's stat was there during the call. |
| ConfigCache.HitAfterRewrite | src/config/basic.cpp:316-359 | A run in which a hit gives what was there during the call but not at its stat, because the file was rewritten within the rounding of its stamp. |
| ConfigCache.ChangeUnsettles | src/config/basic.cpp:316-331 | A change after a stamp has settled always shows as a different stamp. |
| ConfigCache.ConfigStore.ReadConfigFile | src/config/basic.cpp:338-359 | A call that nothing disturbs is a run of the steps; a hit leaves the cache alone and returns what is in the files if and only if the entry is plain; otherwise what is in each file that is there and opens is returned, and cached exactly if every stamp is at least three whole seconds old and every needed file was found. |
| ConfigCache.CrossedHitIsWrong | src/config/midi_map.cpp:1346-1397 | A run in which a hit returns the content of a file that does not exist and did not exist during the call. |
| ConfigCache.FailedOpenIsServed | src/config/basic.cpp:347-357 | A run in which a file that never changes cannot be opened once, and the next call is served nothing for it. |
| AvdtpLink.Bluetooth.HandleCommand | src/bluetooth/context.cpp:1571-1801 | A remote command is accepted exactly in the states of the acceptor's table; an accepted command leaves exactly the link it asks for, the other stream included, and a rejected one changes nothing at all. |
| AvdtpLink.Bluetooth.StartOrSuspend | src/bluetooth/context.cpp:1571-1801 | START and SUSPEND with several endpoints change all of them, the output's audio slot included, or none. |
| AvdtpLink.Bluetooth.HandleResponse | src/bluetooth/context.cpp:1803-1822 | The answer is taken by the stream whose command was outstanding, and then at most the one command that is next is sent; the other links are untouched. |
| AvdtpLink.Bluetooth.HandleOutputResponse | src/bluetooth/context.cpp:1874-2032 | What each answer does to the output: only an accepted START puts it up, with its peer and active; a refused SUSPEND is remembered, and any other refusal releases the stream. |
| AvdtpLink.Bluetooth.HandleInputResponse | src/bluetooth/context.cpp:2034-2106 | What each answer does to the input: while the remote device drives it, answers to this device's own set-up change nothing; a refusal otherwise releases it. |
| AvdtpLink.Bluetooth.SendCommand | src/bluetooth/context.cpp:1438-1466 | A command is sent exactly if the link can send and none is outstanding; it is then outstanding, to be written on if the socket was full, and only a failed write closes the link. |
| AvdtpLink.Bluetooth.CloseOutputStream | src/bluetooth/context.cpp:2535-2576 | The link goes with its output exactly when no input needs it; otherwise the input is untouched. |
| AvdtpLink.Bluetooth.AllocateLink | src/bluetooth/context.cpp:593-603 | Takes an unused link and never gives one address two links. |
| AvdtpLink.Bluetooth.AcceptChannel | src/bluetooth/context.cpp:1242-1331 | An incoming channel goes to the link the device has, as signalling or media, or else takes an unused link; no other device's link is touched. |
| AvdtpLink.Bluetooth.BeginConnect | src/bluetooth/context.cpp:1333-1396 | A device that has a link gets no second one; the call succeeds exactly if it has one, or the socket does not refuse and a link is unused, which is then taken; no other device's link is touched. |
| AvdtpLink.Bluetooth.DriveLink | src/bluetooth/context.cpp:1487-1519 | Sends the one command that is next: DISCOVER when its time has come and it is needed, else GET_CAPABILITIES of a wanted output that is not up and not being set up, which is then marked, else that of a wanted input that nobody has set up, in its time. It leaves the link alone exactly if none of these is due. |
| AvdtpLink.DrivenIff | src/bluetooth/context.cpp:1487-1519 | A link stands still if and only if no command is due; one that is due is outstanding afterwards unless the link broke over the write; never are two due at once. |
| AvdtpLink.OutputComesUp | src/bluetooth/context.cpp:1824-2032 | From an outstanding DISCOVER, five answers of a device that lists a sink and agrees lead to an output that is configured, open, up and playing, with the media channel there at once or later, as long as no write breaks. |
| AvdtpLink.InputComesUp | src/bluetooth/context.cpp:2034-2106 | An input that this device sets up is configured, opened and playing with its first packet, under the same conditions. |
| AvdtpLink.Bluetooth.PumpOutputAudio | src/bluetooth/context.cpp:2378-2498 | Works only on an output that is up: asks to suspend a playing one that has been silent, and a paused one with enough to play to start, if no command is in the way; gives it up exactly if its queue overruns or a packet cannot be made or sent; and leaves every other link as it is. |
| AvdtpLink.Bluetooth.ServiceTimers | src/bluetooth/context.cpp:1521-1539 | A late connection or a late answer closes the link; otherwise the command that is next is sent, if one is. |
| AvdtpLink.EventsByConsent | src/bluetooth/context.cpp:1571-1822 | Whatever the event: nothing is configured, opened, put up or streaming on a link that was not before, unless the remote device asked for it, sent media for it, or accepted the very command that was outstanding for it; and an output plays without being up only by a START that names it. |
| AvdtpLink.RunByConsent | src/bluetooth/context.cpp:794-935 | The same for every step of every run on all links: an event on one link, an incoming channel or a call puts nothing up on any other. |
| AvdtpLink.StartLeavesActive | src/bluetooth/context.cpp:1721-1728 | An accepted START leaves the audio slot active without the output being up if and only if the output is not up and the START names it, or the slot was active before. |
| AvdtpLink.OnlyStartPlaysEarly | src/bluetooth/context.cpp:1721-1728 | In every run a slot is active without its output being up exactly while the output plays early, and that begins only with a START that names an output that is not up. |
| AvdtpLink.PlaysBeforeUp | src/bluetooth/context.cpp:1721-1728 | A run into that state: called, discovered, configured, opened, and started by the remote device. |
| AvdtpLink.Bluetooth.Step | src/bluetooth/context.cpp:794-935 | Every event has the effect that `RunByConsent` speaks of, on the one link it concerns and its audio slot; all other links and slots stay as they are. |
| AvdtpLink.Bluetooth.Run | src/bluetooth/context.cpp:794-935 | For every sequence of commands, responses, socket events, hang-ups and timeouts on all links, each event has its effect and nothing else happens; and at every moment streaming implies open implies configured in each direction, media implies open, the output slot has a peer exactly when the output is up and is active while it streams, the input slot has one exactly when the input streams, a command is outstanding only where its answer may be acted on, and no two used links share an address. |
| MidiStream.RoundTrip | include/midi/usb.hpp:13-75 | Print any list of channel, system-common and SysEx messages, with or without running status, insert real-time bytes anywhere, and feed the bytes: exactly those messages come out, plus the real-time bytes in order. |
| MidiStream.PrintedParses | include/midi/usb.hpp:13-75 | From any state that a message with its status byte can follow, feeding what was printed emits exactly the messages; a SysEx comes in chunks that make it up. |
| MidiStream.RealtimeTransparent | include/midi/usb.hpp:22-25 | For arbitrary bytes: real-time bytes pass through in order and change neither the state nor what else is emitted. |
| MidiStream.SysExChunks | include/midi/usb.hpp:26-51 | A SysEx of any length is emitted in chunks of 1024 bytes and a rest that concatenate to it. |
| MidiStream.Stream.Feed | include/midi/usb.hpp:21-74 | The in-place parser, whose buffer is never overrun, does what the specification says for every byte in every state. |
| MidiStream.Stream.FeedAll | include/midi/usb.hpp:13-75 | The same for whole streams, so the round trip holds of the buffer-based parser. |
| Checksums.CrcIsTableCrc | include/update_archive.hpp:230-240 | The bit-by-bit loop computes the table-driven checksum of section 8 of RFC 1952 for all data. |
| Checksums.CrcContinues | include/update_archive.hpp:230-240 | A checksum carried over pieces is the checksum of the whole. |
| ByteFormat.PutGet | include/update_archive.hpp:242-272 | Little-endian reading and writing undo each other, for any number of bytes. |
| UpdateArchive.ParseArchive | include/update_archive.hpp:316-407 | The one-pass parser succeeds exactly for the accepted archives, and then each known type's range holds its payload and its checksum. |
| UpdateArchive.CheckEntryCrc | include/update_archive.hpp:295-314 | The check in blocks compares with the checksum of the whole payload. |
| UpdateArchive.AcceptedEncodes | include/update_archive.hpp:316-407 | Every accepted archive is the encoding of one acceptable entry list. |
| UpdateArchive.EncodedAccepted | include/update_archive.hpp:316-407 | The encoding of an entry list is accepted if and only if the list is acceptable. |
| UpdateArchive.ArchiveReordered | include/update_archive.hpp:316-407 | The entries of an accepted archive in any other order make an accepted archive with the same payload per known type. |
| UpdateArchive.ArchiveExtended | include/update_archive.hpp:350-395 | An unknown entry that no reader has to understand, with a correct checksum, may be inserted at any boundary within the count limit: still accepted, same payloads. |
| PluginPackage.ParsePackage | src/audio/plugin_package.cpp:460-504 | The parser's result, accepted or refused, is that of the specification for all bytes. |
| PluginPackage.ParsedIffArchive | src/audio/plugin_package.cpp:460-532 | Bytes parse to an entry list if and only if the list is acceptable and the bytes are its archive. |
| PluginPackage.RebuiltIsSame | src/audio/plugin_package.cpp:506-532 | Building the entries of an accepted package gives its exact bytes. |
| PluginPackage.BuildPackage | src/audio/plugin_package.cpp:506-532 | Building succeeds exactly for acceptable lists and gives their archive. |
| PluginPackage.ManifestFits | src/audio/plugin_package.cpp:551-558 | The manifest of any installable package is within the size that reading it back allows. |
| PluginPackage.ReadInstalled | src/audio/plugin_package.cpp:248-295 | Reading an installed directory succeeds exactly if some package's installation leaves this directory behind, and gives that package's archive. |
| PluginPackage.InstalledRoundTrip | src/audio/plugin_package.cpp:534-573 | The directory that installing an accepted package leaves is one that reading back accepts, and its archive is the package. |
| PluginPackage.ReadBack | src/audio/plugin_package.cpp:248-295 | Reading that directory back gives the package's exact bytes. |
| PluginPackage.Crc32Fits | src/audio/plugin_package.cpp:63-70 | The checksum of the package format meets what the package theorems ask of a checksum. |
| DnsName.ReadName | src/http/mdns.cpp:152-200 | Terminates on every packet, by remaining name length and then position, and gives the name that following labels and pointers gives, or refuses. |
| DnsName.WrittenIsRead | src/http/mdns.cpp:69-86 | Reading undoes writing for every name that can be sent, at any place in any packet. |
| DnsName.LoopRefused | src/http/mdns.cpp:168-175 | A label whose pointer leads back to it satisfies the backward rule at every step and is refused all the same. |
| MdnsReply.EncodedDecodes | src/http/mdns.cpp:267-302 | Every message decodes to itself, with as many records as its header counts and nothing after them. |
| MdnsReply.ReplyHasBoth | src/http/mdns.cpp:255-302 | Every reply has the address record once and the record denying all others once, counted over answers and additional records; what was asked for is among the answers. |
| MdnsReply.ReplySays | src/http/mdns.cpp:109-150 | A reply is authoritative and says nothing but the host's address, its denial of all other types and its name for the reverse name, with the lifetimes and classes of either kind of query. |
| MdnsReply.MatchesIff | src/http/mdns.cpp:226-251 | A question is answered if and only if, in the internet class or any, it names the host, or its reverse name for a pointer or for anything, capital letters being no different. |
| MdnsReply.ReplyDecodes | src/http/mdns.cpp:202-315 | Whatever the query, the reply decodes to the message it stands for. |
| MdnsReply.Scan | src/http/mdns.cpp:212-251 | The questions kept are exactly those for this host up to the first that cannot be read, and the flags say what they ask for. |
| MdnsReply.BuildReply | src/http/mdns.cpp:202-315 | There is a reply exactly if the query is plain, something in it is answered and the buffer is large enough; the buffer then holds the encoded message byte by byte; it may go to the asker alone exactly in the legacy way or if no answered question wanted it multicast. |
| MdnsReply.Writer.Name | src/http/mdns.cpp:69-86 | Appends the name's encoding if it fits and every label has 1 to 63 bytes, and fails for good otherwise. |
| MdnsReply.WriteCounted | src/http/mdns.cpp:117-129 | A length filled in afterwards is the length of what was written behind it. |
| SdpServer.ClientLearns | src/bluetooth/a2dp.cpp:366-500 | A client that follows the continuation state, asking for any amount each time, ends up with exactly the attributes it asked for, of exactly the records it asked for, in order. |
| SdpServer.PartsJoin | src/bluetooth/a2dp.cpp:462-499 | From any offset, the parts fetched by continuation concatenate to the rest of the full answer, in boundedly many requests. |
| SdpServer.BuildSdpResponse | src/bluetooth/a2dp.cpp:366-500 | The reply to any request, errors and missing replies included, is the specified one; no buffer it is put together in is ever too small. |
| SdpServer.RepliesFramed | src/bluetooth/a2dp.cpp:266-284 | Every reply stays inside the buffer, repeats the request's transaction, carries its own length and is an error or of the answering kind. |
| SdpServer.RefusalsSay | src/bluetooth/a2dp.cpp:366-400 | A request of the wrong length, of an unknown kind or for a record that does not exist is answered with the error that says so. |
| SdpServer.AnswerRead | src/bluetooth/a2dp.cpp:232-264 | The full answer reads back as the chosen attributes of each record. |
| SdpServer.ElementFirst | src/bluetooth/a2dp.cpp:114-145 | A data element is read the same whatever bytes follow it. |
| SdpServer.SequenceRead | src/bluetooth/a2dp.cpp:232-240 | What is wrapped as a sequence, with a short or long header, is found in it again. |
| SdpServer.MatchPattern | src/bluetooth/a2dp.cpp:149-191 | Reports malformed patterns exactly, and for the others whether the record has every identifier, long forms included. |
| SdpServer.LongUuids | src/bluetooth/a2dp.cpp:149-170 | A 128-bit identifier on the Bluetooth base means its first four bytes, and any other matches no record. |
| SdpServer.ParseAttributeList | src/bluetooth/a2dp.cpp:198-221 | The loop gives exactly the ranges that the list spells out, or refuses. |
| SdpServer.RangesRead | src/bluetooth/a2dp.cpp:198-221 | Single attributes and ranges are read back as they are written. |
| SdpServer.AppendAttributeList | src/bluetooth/a2dp.cpp:243-264 | The chosen attributes are appended in order exactly if body and output have room. |
| AdaptiveBuffer.Controller.RecordXrun | include/audio/health.hpp:125-156 | The level rises exactly at the fifth counted underrun within half a minute, outside grace times and below the top; a rise that undoes a step down within ten minutes lengthens the next wait, at most three times. |
| AdaptiveBuffer.Controller.Tick | include/audio/health.hpp:158-181 | The level falls exactly when the needed quiet time has passed since the last counted underrun or change, longer after a burst or failed steps down. |
| AdaptiveBuffer.Controller.BufferChanged | include/audio/health.hpp:97-101 | After a reopened device no change is possible for 10 seconds and counting starts over; all invariants over the whole history are kept. |
| AdaptiveBuffer.RingIsRecent | include/audio/health.hpp:129-134 | The ring of five times is full of recent ones exactly if the last five underruns are recent. |
| AdaptiveBuffer.ChangesApart | include/audio/health.hpp:125-181 | Any two changes of a run are 10 seconds apart per change between them, and the level has moved at most that often. |
| AdaptiveBuffer.LevelsGrow | include/audio/health.hpp:106-123 | Each level up to the top has a strictly longer period, and exactly from the top on it is the longest allowed. |
| AdaptiveBuffer.TargetPeriodFrames | include/audio/health.hpp:106-112 | The doubling loop gives the base times a power of two, capped, without overflowing. |
| AdaptiveBuffer.MaxLevel | include/audio/health.hpp:114-123 | Counts the doublings up to the cap. |
| LogTail.ReadTail | src/http/logs.cpp:136-195 | The chunked backward scan gives exactly the newest rows of the file's lines that pass the filter, up to the limit and within the byte budget, a line cut off at the start excluded; when more is reported is stated exactly. |
| LogTail.LinesJoin | src/http/logs.cpp:145-186 | The lines the specification speaks of, joined by newlines, are the file. |
| LogTail.LinesStand | src/http/logs.cpp:145-186 | Each line stands in the file at its offset and has no newline in it. |
| LogTail.FurtherBack | src/http/logs.cpp:167-186 | Rows found further back only come after those found already, so stopping early loses nothing newer. |
| LogTail.PrintRows | src/http/logs.cpp:211-228 | As many of the newest rows as fit, in file order, ended by a zero inside the buffer; one row more would not fit. |

## Left out

- Mixer-to-mixer edges are excluded by a condition of `RunSavedGraph`; the expansion itself is modelled for all edges.
- GraphEngine.RuntimeGraph.ProcessNode: the shortcut that skips silent channels and plugins that mix two channels are not modelled.
- GraphEngine.RuntimeGraph.ProcessGraphBlock: the branch that a sleeping graph takes is not modelled; what makes it inaudible is `IdleDemand.UndemandedInaudible`.
- The effects are arbitrary functions of one channel's block. Plugins that mix channels, the shortcut that skips silent channels and gains that change within a block are not modelled.
- Tables indexed by node and channel are total functions where the program has fixed arrays, so clearing them is one assignment.
- GraphMixer.BlockSolves: the value of an input of a blocked node is left open, because nothing ever reads it.
- IdleDemand.UndemandedInaudible: assumes effects that work channel by channel; a stereo plugin can carry an undemanded channel into a demanded one. When the controls change the analysis is made anew, and what was undemanded until then may be heard from then on.
- The threads' single steps in `TripleBuffer`, `OutputRing`, `InputRing` and `ConfigCache` are functions on values, because a method cannot be interrupted halfway; the classes beside them run the same steps undisturbed.
- The rate controllers are any ratio (0.995 to 1.005 towards headphones, below 2 from sources); float rounding, the fade-out after running dry and the statistics counters of the rings are not modelled.
- InputRing.EveryInterleaving: assumes pushes of at most 2048 frames, which is what the safety margin allows and far more than one decoded packet has, rates up to 48 kHz, and a generation counter that does not wrap.
- InputRing.Stream.Push: takes at most 2048 frames at a time, the bound on which the safety margin of the reader rests.
- InputRing.Stream.Render: the fade-out after running dry and the rate controller are not modelled.
- PluginReclaim.Registry.SetEffect: assumes fewer than 2^31 edits that the audio thread has not announced; beyond that the wrapped comparison is wrong, as `ReachedTooSoon` says.
- PluginReclaim.Registry.LoadEffects: assumes the same.
- PluginReclaim.Registry.DeleteEffect: assumes the same.
- Sound triggers number fewer than 2^32 over a run, because the queue indices are compared without wrap-around.
- PluginHost.EveryRun: the generation counter does not wrap; the metering fields and the parameters are not modelled.
- RestoreTransaction.Disk.Stage: reading and checking the backup archive and building the directory are one preparation; nothing else is assumed to write the roots while a restore is applied at boot.
- SoundSlots.Soundboard.ReloadBank: the bank stays locked and the counts stay as they are during a reload; a reload whose directory cannot be opened does nothing and is left out.
- BootRecovery.Device.RevertBoot: removing a flat directory is one step, whether a backup or a listed file is there is always answered rightly, and the report and event files are not modelled. A backup holds the five boot files it is made of, so the listing's limit of eight names is never reached.
- Configuration files are parsed by an arbitrary function of their content, and migration from the old single file is not modelled. A call whose own stat fails leaves the cache alone and is left out. The wall clock never goes back.
- AvdtpLink.Bluetooth.HandleCommand: payload checks of codec configurations are one flag, and transaction numbers, fragmentation, AVRCP and the audio codec are not modelled.
- AvdtpLink.Bluetooth.PumpOutputAudio: measured silence, the fill of the queue and what the codec and the media socket say are parameters.
- PluginPackage.ParsedIffArchive: metadata, ELF and asset-name checks are arbitrary predicates; that a package's identifier is its directory's name is not modelled.
- The update archive's metadata, kernel names and board checks are not modelled, and payloads are given as bytes instead of file ranges.
- MdnsReply.BuildReply: the host name and its reverse name are names that can be written; formatting the reverse name, announcing and sending are not modelled.
- SdpServer.BuildSdpResponse: the request and its reply are values; the reply's bytes are put together before they are copied out.
- LogTail.ReadTail: the file does not change while it is read; the filter is an arbitrary predicate, and row identifiers and JSON are not modelled.
- AdaptiveBuffer.Controller.RecordXrun: the device's own period is fixed, the clock is monotonic, and the ring index does not wrap within one setup of the device.
- The script sound event ring and the device capture ring are simpler rings of the same kind.
- ALSA, sockets, HCI and L2CAP calls, mounting, Lua, the web interface and JSON are not part of this model.
