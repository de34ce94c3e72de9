# keysharp-input, modelled in Dafny

keysharp-input is a broker that grabs keyboards and mice, forwards their events to virtual
outputs and mixes in synthesized input. Every keyboard source and every synthesis owner
share one virtual keyboard, the sink, which must hold a key exactly while someone holds it.
The broker keeps its bookkeeping twice: ENQUEUED is the state once admitted output drains,
and is what queries report; APPLIED is the state actually written.

## How it is built

The state machine of the broker is given as functions on values, so that one theorem can
speak about every run, and again as classes that update arrays and fields in place, each
method proved to leave the state its function describes.

| files | content |
|---|---|
| Codes, Claims, Forwarding, Synthesis | key codes; claims as a map from owner to key set; sources and the sink; synthesized input |
| SinkInvariant, SynthInvariant | what each operation keeps of the sink, its history and the synthesis bits |
| Pointwise, Holders, Effects | what operations do to every source's key sets and every owner's holds, key by key, and to the devices, event by event |
| Outputs, OutputRuns, PointerMotion | what the clones, the absolute device and the pointer were told, in one operation and over whole runs |
| Broker, BrokerInvariant | the whole broker as a state machine with a queue, and what every step keeps |
| ViewModel, TwoViews, Sweeping, SafeInputs, Coupling, Draining, Joining, CoupledRuns | what a queued action means, and the two views over whole FIFO runs |
| Refusals, Divergence | the inputs that survive refused writes, and the runs in which the two views part |
| Targets, KeyGains, Displacement | stale targets; what may bring a source a key; displaced keys |
| KeyBits, ClaimTable, Forwarder, Synthesizer, Daemon | the in-place key bitmaps, claim table, forwarding table and synthesis, and the daemon that takes the steps of a run on them |
| Scheduler, HookStream, RefLifetime | callback turns, the call stack in its array, and reference lifetimes |
| GrabBoundary, TrackedDevice | grabs, ungrabs and releases owed |
| Wire, Framing, ClientQueues, Codecs, DeviceCodec, Paging | the client stream, its queues, the wire formats and listings |
| Splitting, SplitRefusals, Fragments, UnicodeEntry, TypedText | compound mouse inputs, with and without refused writes and cut into fragments; text input, and what is read of it off the sink |

Key sets are sets of codes; KeyBits relates the byte bitmaps to them. A descriptor's
failures are a budget of writes it still accepts: a failure latches, so every pattern of
failures is some budget. The trace records accepted events without SYN reports, and for an
event on the sink whether anyone wanted its key at that moment. What the kernel, the peer,
the daemon's queue and other threads do is a parameter or a step of a run.

Assumptions, as the reader builds its packets and the daemon numbers its events: a packet
has at most two events of which only the last is a key; it goes to an output its source
has, and a keyboard's keyboard keys never go to its clone (for the clones' own keys also that
nothing else goes to the sink, src/platform/linux_devices.c:2170-2180); target serials do not wrap; event
ids of callbacks are unique; the virtual-key table names codes the bitmaps cover; the owner
of a synthesized batch names no target or one that was issued.

## Where the code and its comments differ

- src/platform/linux_synth.c:261-262 says that after a failure both views stay in step. They
  do for keyboard inputs and for single steps, and not for compound mouse inputs, which
  return before their remaining buttons. `Refusals.InStepExactlyWhenSafe` gives the exact
  inputs, and `Refusals.UnsafeInputsPart` a run of the broker for every other input.
- The same return makes a compound input and its expansion differ when writes are refused.
  `SplitRefusals.SplitsAlikeExactlyWhenSafe` says for which inputs, and
  `SplitRefusals.ClickSplitsApart` shows it on one click.
- Fragments of one input are queued separately (src/daemon/hook_lanes.inc:744-757), and a
  press goes to the absolute device only after a move in the same batch.
  `Fragments.FragmentsAlikeExactlyWhen` says which inputs keep their meaning when cut up.
- A sink attached while sources hold keys starts with nothing down
  (src/platform/linux_forward.c:633-649), so it misses those keys until their holders change.
  `BrokerInvariant.SinkHoldsWhatIsWanted` names them and states equality from an attach
  without held keys.
- Releasing a key and restoring it is not always the identity: a hold the source no longer
  has does not come back, and one displaced earlier does.
  `Displacement.ReleaseThenRestore` gives the exact condition.
- A key-up ends the holds derived from its key, and one of code 0 those derived from any key
  of its source, because a filter field of 0 matches anything
  (src/platform/linux_synth.c:71-78, 1206-1214). `Holders.KeyUpsEndHolds` says so exactly.
- Queries report the admitted view as what the written one will be. Besides compound inputs
  that are refused, a full claim table, an end or close that overtakes a full queue, a clone
  that refuses writes and a batch without a sink make the two differ for good. `Divergence`
  has a run for each.

## Model

| member | source | states |
|---|---|---|
| BrokerInvariant.SinkHoldsWhatIsWanted | src/platform/linux_forward.c:135-237 | in every reachable state, with any writes refused and any queue overflow: every wanted key that was not held by a source when the sink was attached is down; while the sink accepts writes nothing unwanted is down; and from an attach without held keys the sink holds exactly the wanted keys, the events written since then alternate press and release, repeat only keys that are down, release a modifier or lock only when nobody wants it, and replay to exactly the sink's keys |
| BrokerInvariant.SynthesisBitsAgreeWithClaims | src/platform/linux_synth.c:1137-1252 | in every reachable state the sink's synthesis bit of a key is set iff some applied claim holds the key and it is not on the absolute device, and a button on the absolute device is tracked and claimed |
| BrokerInvariant.StepKept | src/daemon/hook_lanes.inc:917-972 | every step (opening, admitting, ending, closing, applying, querying, idling, collecting), queued or overtaking a full queue, keeps the sink, claim, target and queue invariants |
| SinkInvariant.WriteKeeps | src/platform/linux_forward.c:473-549 | whatever branch a packet takes, the sink still holds what is wanted and the written history stays well formed |
| SinkInvariant.ShiftKeyKeeps | src/platform/linux_forward.c:582-614 | displacing or restoring a key on every source keeps the sink agreement and the history |
| SinkInvariant.EndGrabAtKeeps | src/platform/linux_forward.c:226-261 | ending a grab in either view keeps the sink agreement and the history |
| SinkInvariant.AttachKeeps | src/platform/linux_forward.c:633-649 | an attached sink has no key down, and the keys wanted at that moment are exactly the ones it may be missing |
| SinkInvariant.TapKeeps | src/platform/linux_forward.c:185-197 | a tap, pressed from up or released from down, keeps the sink agreement and the history for keys that are no modifier or lock |
| SynthInvariant.SendBatchKeeps | src/platform/linux_synth.c:1349-1396 | a written batch keeps the sink agreement and the agreement of the synthesis bits with the claims, whatever is refused and however full the claims are |
| SynthInvariant.SendCodepointKeeps | src/platform/linux_synth.c:419-465 | Unicode entry leaves the claims, the absolute-device holds and the synthesis bits as they were, even when it is cut short |
| SynthInvariant.ReleaseGenericKeeps | src/platform/linux_synth.c:1224-1232 | releasing everything synthetic leaves no claim, no absolute-device hold and no synthesis bit |
| CoupledRuns.ViewsAgreeWhenDrained | src/platform/linux_synth.c:56-63 | in every state of every FIFO run, on any devices, mirroring what is still queued onto the written view (every source's output, source and displaced keys, and every claim) gives the admitted view without the claims of ended grabs; so with an empty queue the two are equal. In a FIFO run clones accept writes, nothing overtakes the queue, and a batch finds a sink and either is safe, so that the sink and the pointer may refuse anything, or finds working devices and room for its owner |
| CoupledRuns.QueriesMatchTheSink | src/platform/linux_forward.c:624-631 | once the queue of a FIFO run is empty, on a sink attached without held keys, every keyboard key the queries report (admitted synthesis holds or the admitted output of a named source) is down on the sink, and while the sink has not failed every keyboard key that is down is reported |
| CoupledRuns.StepCoupled | src/daemon/hook_lanes.inc:917-972 | every FIFO step keeps the coupling of the two views, including sources that join or leave while output is queued |
| Divergence.FullTableParts | src/platform/linux_synth.c:112-130 | a run on working devices with 1024 owners, after which a compound input of one more leaves the drained views different |
| Divergence.EndOvertakes | src/platform/linux_forward.c:376-389 | a run in which the end of a grab overtakes a queued press, and the drained views differ |
| Divergence.CloseOvertakes | src/platform/linux_forward.c:404-428 | a run in which a close overtakes a queued press that was admitted as a restore, and the drained views differ |
| Divergence.RefusingCloneParts | src/platform/linux_forward.c:473-549 | a run in which a clone refuses a press and its release, and the drained views differ |
| Divergence.NoSinkParts | src/platform/linux_synth.c:1349-1396 | a run without a sink in which a batch is admitted and not played, and the drained views differ |
| Coupling.AdmittedView | src/daemon/hook_lanes.inc:196-250 | admission changes the admitted view exactly as the action means |
| Draining.WrittenView | src/daemon/hook_lanes.inc:931-968 | applying an action changes the written view exactly as the action means, and nothing admitted, although it takes the branching path through the sink and the clones and although the sink may refuse what it is given |
| TwoViews.WrittenPacketView | src/platform/linux_forward.c:473-549 | whichever of write's branches a packet takes, the source's written output becomes what note_keys records for it |
| TwoViews.NotedView | src/platform/linux_forward.c:551-580 | recording a packet changes the named source's keys in one view only |
| TwoViews.SentAllView | src/platform/linux_synth.c:1349-1396 | a written batch changes sources and claims as its admission did, while writes are accepted and the owner has room |
| TwoViews.NoteInputsView | src/platform/linux_synth.c:332-365 | an admitted batch changes sources and claims as its inputs mean, and leaves the written view alone |
| TwoViews.KeyedView | src/platform/linux_synth.c:182-202 | a key transition changes the sources and claims of the view it is made in as its meaning says, which is the same for both views, and leaves the other view alone |
| Holders.TransitionHolds | src/platform/linux_synth.c:182-202 | a key transition changes nobody's hold of another key; a press that gives nothing back adds its owner's hold and fails only without room among 1024 claims; a release takes the key from its owner, or from all when its owner does not hold it |
| Holders.KeyUpsEndHolds | src/platform/linux_synth.c:1199-1222 | after a packet an owner holds a key iff it did before and no key-up of the packet is of the key the owner was derived from, or is one no hook held back of the held key itself |
| Holders.ConnectionTakesItsHolds | src/daemon/client_lifecycle.inc:2-11 | a connection that goes, or one hook of it, takes exactly its own holds along |
| Holders.HookTakesItsHolds | src/daemon/grab_leases.inc:782-797 | a kind of hook that nobody has any more takes exactly the holds made by it |
| Effects.KeysAreRecorded | src/platform/linux_forward.c:551-570 | recording a packet changes, of the one source it names, exactly the key it ends with, and a release forgets the key as displaced |
| Effects.KeysAreShifted | src/platform/linux_forward.c:582-614 | a shift changes exactly the two codes of its key on live sources: out of the output and into the displaced keys while the source holds it, or back |
| Effects.SlotsComeBack | src/platform/linux_forward.c:391-428 | a source closed with nothing queued before it leaves its slot free |
| Effects.RecreatedDevicesStartOver | src/platform/linux_synth.c:851-862 | recreated devices hold nothing, have nothing down and keep no remainder |
| Effects.OwnersLiveWithTheirGrab | src/platform/linux_synth.c:81-84 | an owner that names a grab lives exactly while its slot is that grab's, is not retiring and has a working clone |
| Effects.DeadOwnersOnlyRelease | src/platform/linux_synth.c:86-95 | a batch of a dead owner gives nobody a hold and still ends the owner's holds of what it lets go of |
| Effects.ButtonsAreHeldAsFlagged | src/platform/linux_synth.c:332-365 | after an input its owner holds exactly the buttons its flags do not release and either press or held before |
| Effects.InputsNameTheirKey | src/platform/linux_synth.c:871-899 | scan code, numeric enter and virtual key name the key in that order, and the extended scan codes are those of set 1, both ways |
| Effects.PressesRetype | src/platform/linux_synth.c:310-321 | a press of a key that is down, by an owner that does not hold it, first writes its release and press, unless it is a modifier or lock |
| Effects.PressesHold | src/platform/linux_synth.c:310-321 | a press that gives nothing back leaves the key down on the sink and its owner with exactly that hold more |
| Effects.ClicksLandOnTheMove | src/platform/linux_synth.c:1234-1347 | a press with an absolute move writes the move and then the press, all on the absolute device |
| Effects.ClicksGoToTheSink | src/platform/linux_synth.c:1234-1347 | a press with a relative move writes the move on the pointer and then the press on the sink |
| Outputs.ReportsReachTheClone | src/platform/linux_forward.c:521-527 | a report for a clone that accepts it is written there, every event in order, unless it releases what is not held downstream |
| Outputs.KeystrokesReachTheSink | src/platform/linux_forward.c:473-549 | what a keyboard's packet writes on a steady sink: a press retypes a key that is down unless it is a modifier or lock, a repeat passes while the key is down, a release when nobody else wants the key |
| OutputRuns.ClonesHoldWhatTheyWereTold | src/platform/linux_forward.c:135-237 | in every reachable state, for every source whose clone has not failed, replaying the clone's key events since the source was opened gives exactly the keys the source holds off the sink, and none once the clone is retiring |
| OutputRuns.AbsoluteDeviceHoldsWhatItWasTold | src/platform/linux_synth.c:1137-1169 | in every reachable state in which no pointer write failed, replaying the absolute device's key events since it was created gives exactly the buttons held there |
| PointerMotion.PointerGoesWhereAsked | src/platform/linux_synth.c:1265-1318 | folding the events any batch writes moves the pointer and turns the wheels as its inputs ask, whatever the sink refuses, and on each wheel 120 times the detents plus the change of the remainder is the sum of the turns |
| PointerMotion.RemaindersAreSmall | src/platform/linux_wheel.h:7-12 | a turned wheel keeps less than a detent, on the side it was turned to |
| Sweeping.SweepFirst | src/platform/linux_synth.c:171-178 | sweeping the claims of ended grabs before an action or after it leaves the same claims |
| Joining.DrainedJoins | src/platform/linux_forward.c:292-351 | a source that opens while output is queued may as well have opened after the queue drained |
| Draining.HeadIsClosing | src/platform/linux_forward.c:391-428 | a close at the head of the queue finds the slot it was admitted for still open in the written view and still closing |
| SafeInputs.SafeBatchesStayInStep | src/platform/linux_synth.c:1375-1392 | a batch of safe inputs leaves the written view what admission recorded even if every write is refused, and however full the claims are |
| Refusals.InStepExactlyWhenSafe | src/platform/linux_synth.c:261-271 | after every FIFO run, whatever its devices refuse, a mouse input leaves the drained views equal iff it names no button, or names one and writes no motion or wheel step before it |
| Refusals.UnsafeInputsPart | src/platform/linux_synth.c:1255-1347 | every other mouse input has a run of the broker, on devices that refuse their writes, that ends with an empty queue and different views |
| Refusals.EmissionParts | src/platform/linux_synth.c:1265-1347 | on every machine whose devices refuse writes and on which somebody holds certain buttons, any input with a move or wheel step before a button loses what admission recorded of its buttons |
| Refusals.SecondButtonParts | src/platform/linux_synth.c:1322-1331 | on such machines any input that starts with two buttons loses the second with the first |
| Targets.StaleTargetsStayDead | src/platform/linux_forward.c:473-493 | from any reachable state in which a target is dead in a view, however the run continues, its packets change no key set in that view and write nothing, even after its slot is reused |
| Targets.IssuesAfresh | src/platform/linux_forward.c:80-93 | no target is issued twice, and no step forgets or changes what was issued |
| Targets.WrittenTargetOnlyGrows | src/platform/linux_forward.c:376-389 | while a slot stays open its written target never moves back, whatever order the ends of its grabs arrive in |
| Targets.EndKills | src/platform/linux_forward.c:362-374 | ending a grab makes its target dead for admission at once |
| Targets.CloseKills | src/platform/linux_forward.c:391-402 | closing a source makes its target dead for admission at once |
| Targets.ApplyEndKills | src/platform/linux_forward.c:376-389 | written output that passes the end of a grab leaves the old target dead |
| Targets.ApplyCloseKills | src/platform/linux_forward.c:404-428 | written output that passes a close leaves the target dead |
| KeyGains.StepGains | src/platform/linux_forward.c:551-604 | in every step from a reachable state a source gains a physical key in a view only by a report that it is pressed, and a key held or displaced downstream only by the replay of a press |
| Displacement.OnlyHeldKeysAreDisplaced | src/platform/linux_forward.c:551-604 | in every reachable state the displaced keys of a source are among the keys it holds, in both views |
| Displacement.ReleaseThenRestore | src/platform/linux_forward.c:582-614 | releasing a key and restoring it returns every source's output exactly iff each live source that held the key or its button alias downstream still holds it, and no other had one displaced |
| Displacement.ReleaseThenRestoreSink | src/platform/linux_forward.c:582-614 | and then a working sink attached without held keys holds what it held before |
| Displacement.RestoresOnlyHeldKeys | src/platform/linux_forward.c:582-614 | in every reachable state, in either view, a restore gives a source only keys the source holds |
| Displacement.LetGoIsFinal | src/platform/linux_forward.c:551-570 | from any reachable state in which a source does not hold a key in a view, however the run goes on without a report that it presses the key, the source neither holds nor has displaced it and no restore gives it the key |
| Displacement.EndedGrabIsFinal | src/platform/linux_forward.c:250-261 | after any reachable end of a grab in a view, however the run goes on without the replay of a press, a key the source did not hold downstream at the end, though it may have been displaced, is neither held nor displaced for it and no restore gives it back |
| ClaimTables.ClaimTable.HoldKey | src/platform/linux_synth.c:112-130 | adds exactly the owner's hold of the key, and fails only when the owner has no claim and the table is full; counts and support stay exact |
| ClaimTables.ClaimTable.DropHold | src/platform/linux_synth.c:132-137 | removes exactly one hold, and the claim by swap-removal when it was its last |
| ClaimTables.ClaimTable.ReleaseKey | src/platform/linux_synth.c:139-146 | ends every hold of a key, skipping no claim although swap-removal reorders the array, and stops early once nobody holds it |
| ClaimTables.ClaimTable.RemoveClaim | src/platform/linux_synth.c:148-159 | removes exactly one owner's claim and reports exactly its keys that nobody holds then |
| ClaimTables.ClaimTable.DropClaims | src/platform/linux_synth.c:161-169 | removes exactly the chosen owners' claims, leaves the others alone, and reports exactly the keys left with no holder |
| ClaimTables.ClaimTable.DropOwners | src/platform/linux_synth.c:1188-1197 | removes exactly the claims a filter matches |
| ClaimTables.ClaimTable.FindClaim | src/platform/linux_synth.c:97-102 | finds the owner's claim iff it has one |
| ClaimTables.ClaimTable.IsHeld | src/platform/linux_synth.c:1161 | the bit of the support bitmap says whether any owner holds the key |
| ClaimTables.ClaimTable.CountsFit | src/platform/linux_synth.c:53 | a sixteen-bit holder count never wraps |
| ClaimTables.RemoveConsistent | src/platform/linux_synth.c:148-159 | swap-removal keeps owners distinct, the counts equal to the number of claims with each key, and the support equal to the keys with a count |
| Forwarders.Forwarder.WriteToSinkDevice | src/platform/linux_forward.c:135-157 | a write reaches the sink or latches its failure, and a refused write still records its presses |
| Forwarders.Forwarder.ReconcileKey | src/platform/linux_forward.c:199-215 | writes one event iff what the sink holds differs from what is wanted |
| Forwarders.Forwarder.ReleaseSlot | src/platform/linux_forward.c:226-237 | releases, in code order, every hold of a source outside the kept set |
| Forwarders.Forwarder.EndGrabOf | src/platform/linux_forward.c:362-374 | admission's end of a grab: the slot gets a fresh target and keeps only the holds its source has, which are returned |
| Forwarders.Forwarder.ApplyEndGrabOf | src/platform/linux_forward.c:376-389 | written output's end of a grab, ignored if the slot has moved on |
| Forwarders.Forwarder.OpenSlot | src/platform/linux_forward.c:292-351 | the first free slot gets a fresh target, which is returned, or 0 iff none is free |
| Forwarders.Forwarder.CloseOf | src/platform/linux_forward.c:391-402 | admission's close empties the admitted keys and marks the slot closing |
| Forwarders.Forwarder.ApplyCloseOf | src/platform/linux_forward.c:404-428 | written output's close releases what the source holds, then frees or retires the slot |
| Forwarders.Forwarder.ShiftEverywhere | src/platform/linux_forward.c:582-604 | moves a key and its alias between held and displaced on every live source, and says whether any changed |
| Forwarders.Forwarder.ReleaseEverything | src/platform/linux_forward.c:616-622 | releases every live source's holds |
| Forwarders.Forwarder.WritePacket | src/platform/linux_forward.c:473-549 | the branching write of a packet to the sink or the clone |
| Forwarders.Forwarder.NotePacketKeys | src/platform/linux_forward.c:551-570 | the simple record of a packet's key transitions |
| Forwarders.Forwarder.SetSinkKey | src/platform/linux_forward.c:661-671 | sets synthesis's hold of a key and reconciles the sink |
| Forwarders.Forwarder.ClearSynthKeys | src/platform/linux_forward.c:695-705 | ends synthesis's holds lowest key first |
| Pointwise.NothingShifts | src/platform/linux_forward.c:582-604 | a shift that finds the key nowhere changes nothing and writes nothing |
| Synthesizers.Synthesizer.HoldOrRelease | src/platform/linux_synth.c:182-202 | one key transition on the in-place table and sources, for either view |
| Synthesizers.Synthesizer.NoteEnqueuedSynth | src/platform/linux_synth.c:332-365 | the admission loop over a batch, after sweeping ended grabs |
| Synthesizers.Synthesizer.SendInput | src/platform/linux_synth.c:1349-1396 | the writing loop over a batch |
| Synthesizers.Synthesizer.SendMouseInput | src/platform/linux_synth.c:1255-1347 | motion, wheels, then buttons, stopping at the first refusal |
| Synthesizers.Synthesizer.RouteMouseButton | src/platform/linux_synth.c:1234-1252 | routes a button: the absolute device gets a press that makes it held once the batch has moved absolutely, and the sink gets the rest |
| Synthesizers.Synthesizer.UpdateGenericKey | src/platform/linux_synth.c:1155-1169 | brings the device that holds a key in line with its claims |
| Synthesizers.Synthesizer.SendKey | src/platform/linux_synth.c:310-321 | a key transition with its repress |
| Synthesizers.Synthesizer.SendCodePoint | src/platform/linux_synth.c:419-465 | the entry chord, the digits and the space, as far as the sink accepts them |
| Synthesizers.Synthesizer.PhysicalRelease | src/platform/linux_synth.c:1199-1222 | drops what `Holders.KeyUpsEndHolds` says a packet ends, and updates exactly the keys left with no holder |
| Synthesizers.Synthesizer.MaintainOutput | src/platform/linux_synth.c:1178-1186 | releases the holds of grabs that ended |
| Synthesizers.Synthesizer.ReleaseAllGeneric | src/platform/linux_synth.c:1224-1232 | ends every synthetic hold on both devices |
| Daemons.Daemon.Take | src/daemon/hook_lanes.inc:917-972 | any step of the broker, taken on the in-place tables and the queue, leaves them standing for the next state of the state machine |
| Daemons.Serve | src/daemon/hook_lanes.inc:917-972 | after any run on the objects themselves the in-place sink holds what is wanted of it, and its synthesis bits are the bits of its claim table's support bitmap outside the absolute device |
| KeyBits.SetKeyBit | src/platform/linux_key_bits.h:17-21 | setting a bit in place adds or removes exactly one code of the set the bitmap stands for |
| KeyBits.TestBit | src/platform/linux_key_bits.h:12-15 | the shift and mask of a byte say whether the code is in that set |
| KeyBits.AnyKeyBit | src/platform/linux_key_bits.h:35-40 | says whether the set is empty |
| KeyBits.ListBits | src/platform/linux_forward.c:231-235 | the clear-lowest-bit loop visits exactly the set bits, in ascending order |
| KeyBits.ClearLowest | src/platform/linux_forward.c:233 | masking a byte with itself minus one clears exactly the bit its trailing zeros name |
| Scheduler.CallbacksNestProperly | src/connection_ref.c:296-340 | in every reachable state the stack is at most 64 deep, frames stand in the order their turns were granted, only the bottom one can be ordinary, and every frame below the top pumps or had its pump closed |
| Scheduler.NoWakeUpIsLost | src/connection_ref.c:164-179 | in every reachable state, with timeouts, spurious wake-ups and invalidation racing: a blocked waiter cannot enter, a blocked end_pump has descendants to wait for, and once an invalidation has broadcast nobody is blocked |
| Scheduler.NobodyWaitsInVain | src/connection_ref.c:281-340 | in every reachable state nobody is blocked whose turn has come: below depth 64, no earlier waiter of its class, an ordinary one with no recursive one waiting, alone or recursive under a frame that pumps |
| Scheduler.TurnsAreGranted | src/connection_ref.c:296-362 | a waiter that looks is put on top of the stack iff its turn has come, and else only blocks |
| Scheduler.ArrivalsAreGranted | src/connection_ref.c:255-362 | the same for one that arrives |
| Scheduler.FramesComeAndGo | src/connection_ref.c:364-460 | in every step a frame is on the stack iff it was and did not complete, or was granted; and it pumps iff it did and neither ended that nor completed, or began to as the top frame |
| Scheduler.WaitersComeAndGo | src/connection_ref.c:255-362 | in every step a waiter waits iff it did or arrives, and neither gives up nor is granted its turn |
| Scheduler.EndPumpWaits | src/connection_ref.c:427-452 | end_pump of a pumping frame blocks iff the frame has descendants, and else finds it on top |
| Scheduler.EndPumpComesBack | src/connection_ref.c:440-452 | a blocked end_pump that looks goes on waiting iff its frame is still there below another |
| Scheduler.TurnsAreFair | src/connection_ref.c:255-312 | in every run the turns of each class are granted in order of arrival |
| Scheduler.OrdinaryTurnsYield | src/connection_ref.c:281-312 | an ordinary turn is granted only at depth 0 and only while no recursive one waits |
| Scheduler.EnterWakesNobody | src/connection_ref.c:344-350 | a turn that enters makes no other waiter eligible, so it need not broadcast |
| Scheduler.ArrivalWakesNobody | src/connection_ref.c:255-266 | a waiter that arrives makes no other waiter eligible |
| Scheduler.EndPumpMeansUnwound | src/connection_ref.c:448-452 | end_pump returns true only when its frame is on top and every turn granted after it has completed |
| Scheduler.EndPumpReturns | src/connection_ref.c:440-452 | the same for an end_pump that had to block, whose frame also had its pump closed |
| HookStreams.HookStream.TakeTurn | src/connection_ref.c:342-362 | one pass of the wait loop in place; a new frame does not pump because slots above the depth are zero |
| HookStreams.HookStream.RemoveCall | src/connection_ref.c:377-384 | removes one frame, moves the ones above down and zeroes the last slot |
| HookStreams.HookStream.CompleteEvent | src/connection_ref.c:367-388 | removes the topmost frame of the event, if any, and wakes everyone |
| HookStreams.HookStream.StartPump | src/connection_ref.c:390-410 | only the top frame starts to pump, once |
| HookStreams.HookStream.StopPump | src/connection_ref.c:427-460 | closes a pump, and returns true iff the stream is valid and the pumping frame is on top |
| HookStreams.HookStream.FindBest | src/connection_ref.c:281-294 | the first recursive waiter, or else the first |
| RefLifetime.ClosedOnceAfterTheLastHolder | src/connection_ref.c:462-486 | in every interleaving a descriptor is closed at most once, exactly when its ref is freed, after every hold was dropped |
| RefLifetime.EveryRefComesToItsClose | src/connection_ref.c:462-486 | in every interleaving every ref that was created has been closed once or can still come to its one close, with nobody holding it |
| RefLifetime.LookupsAreSafe | src/connection_ref.c:488-519 | a lookup only looks at refs that are not freed, and only takes one that someone holds |
| RefLifetime.ZeroIsFinal | src/connection_ref.c:134-157 | however a run goes on from a count of zero, the count stays zero and nobody holds the ref |
| RefLifetime.HoldsAreCounted | src/connection_ref.c:134-157 | in every run the holds of a ref are the ones created, acquired and looked up without the ones dropped |
| RefLifetime.LookupsFindTheirRef | src/connection_ref.c:488-519 | in every interleaving a lookup takes a ref of the descriptor it was asked for, and comes back empty only if every linked ref of it is invalid or unheld, unless a count was full |
| RefLifetime.InvalidRefsAreNotFound | src/connection_ref.c:134-157 | however a run goes on after a ref was invalidated, no lookup that had not yet seen it takes it |
| GrabBoundary.UngrabbedHoldsAreOwed | src/platform/linux_devices.c:1001-1107 | over every interleaving of key events, replays that a hook held back and let go later, grab changes, synthesis and refused admissions, the admitted and displaced keys of an ungrabbed source are among the ones it owes a release for |
| GrabBoundary.NothingReadIsLost | src/daemon/hook_dispatch.inc:212-236 | over every run, the replays that wait in lanes and those decided are those that waited before and the keys read under a grab, each once |
| GrabBoundary.DecidedReplaysArrive | src/daemon/hook_lanes.inc:196-250 | a decided replay that the queue takes is logged under its target, and changes exactly its key in the output of its own grab |
| GrabBoundary.LateReplaysChangeNothing | src/daemon/hook_dispatch.inc:212-236 | in every reachable state, a replay read under an earlier grab and let go only now changes none of the source's admitted keys, ungrabbed or under a later grab |
| GrabBoundary.GrabsStartClean | src/platform/linux_devices.c:1060-1095 | a grab starts only with nothing held downstream, nothing displaced, nothing owed, no waiting replay under its target, and no key but a contact down on the source |
| GrabBoundary.GrabsWhenClear | src/platform/linux_devices.c:1001-1107 | with nothing more queued, an attempt takes the grab iff the outputs work and are not grabbed downstream, no key but a contact is down at either look, every owed release can be paid, and the kernel grants it |
| GrabBoundary.AttemptsAreDeferred | src/platform/linux_devices.c:972-991 | an attempt is deferred iff the keys could be read at its last look and something but a contact was down, and it then waits for exactly those keys |
| GrabBoundary.UnusableGrabsEnd | src/platform/linux_devices.c:1001-1107 | a grab that is not wanted any more, or whose outputs cannot be used, ends with its target, and the source owes a release of every key it holds |
| GrabBoundary.SettlingPays | src/platform/linux_devices.c:1532-1549 | settling pays exactly the owed releases of keys that are up and that the queue takes |
| GrabBoundary.OwedUntilAdmitted | src/platform/linux_devices.c:2232-2246 | while a source is open an owed release is forgotten only in a step in which the queue took both its parts, the source's state and the replay, under the source's target |
| GrabBoundary.UngrabIsEndGrab | src/platform/linux_forward.c:362-374 | the admitted keys an ungrab leaves on the reader are those the forwarding table's end of the grab leaves in the slot, and the reader owes what the source still holds |
| TrackedDevices.TrackedDevice.SetDeviceGrab | src/platform/linux_devices.c:1001-1107 | taking and ending a grab in place, with every refusal and failure path |
| TrackedDevices.TrackedDevice.SettleHolds | src/platform/linux_devices.c:1532-1549 | pays, in code order, the owed releases of keys the kernel reports up |
| TrackedDevices.TrackedDevice.DeferWhileHeld | src/platform/linux_devices.c:972-991 | holds a grab off iff a key other than a contact is down or the keys cannot be read |
| TrackedDevices.TrackedDevice.ForwardRelease | src/platform/linux_devices.c:2232-2246 | forwards one owed release and keeps it owed unless admitted |
| TrackedDevices.TrackedDevice.ForwardEvent | src/daemon/hook_dispatch.inc:233-235 | an event read under a grab is queued as the source's state at once, and its replay waits in a lane under the target it was read with |
| TrackedDevices.TrackedDevice.FinishReplay | src/daemon/hook_lanes.inc:196-250 | a replay leaves its lane for the queue, or is dropped, and is recorded under the target it was read with |
| Framing.Connection.ReadIncremental | src/client.c:375-413 | however reads are cut, interrupted or timed out, no byte is lost, repeated or reordered |
| Framing.Connection.ReceiveFrame | src/client.c:463-510 | either the first frame of the pending bytes comes out whole and is consumed, or nothing is consumed |
| Framing.Connection.ReceiveFrames | src/client.c:463-510 | any number of calls under any reads yields a prefix of the frames of parsing the whole stream, all of them once it is read, and none after a malformed header; while reads bring data each call yields a frame until none is left |
| Framing.DeliverAll | src/client.c:415-452 | frames sent back to back come out whole and in order, however the bytes are cut, and all of them when reads bring the bytes and there are as many calls |
| Framing.ParseEncoded | src/client.c:415-452 | parsing what was encoded gives the frames, and leaves an unfinished one pending |
| Framing.MalformedIsFinal | src/client.c:487-504 | no bytes after a malformed header make a frame of it |
| ClientQueues.LeaseQueue.Receive | src/client.c:795-843 | takes an event iff it is well formed and folds into the last message or fits, and then reading the queue still gives what folding every event gives |
| ClientQueues.LeaseQueue.Drain | src/client.c:1548-1560 | draining gives the final keyboard record, its sequence and the grants of every event received, with no two keyboard records adjacent |
| ClientQueues.QueuedFaithful | src/client.c:822-842 | queueing or folding an event keeps what the queue says equal to what the events say |
| ClientQueues.QueuedSays | src/client.c:822-842 | a record that took another's place is a snapshot, other events are queued behind as what they are, and a notice carries the scopes its event revoked |
| ClientQueues.ObserverQueue.Receive | src/client.c:862-870 | an event is queued in order, or counted when the queue is full |
| ClientQueues.ObserverQueue.NextObservation | src/client.c:1732-1761 | revocations come first, then queued events in order of arrival, then the number dropped |
| ClientQueues.ObserverQueue.RevokeScopes | src/client.c:873-884 | losing the monitoring scope withdraws what is queued and counted |
| ClientQueues.ObserverQueue.NothingIsLostSilently | src/client.c:862-870 | since the last monitoring revocation, events received equal delivered, queued, reported dropped and dropped-pending, below saturation |
| Splitting.SplittingPreservesMeaning | src/synthetic_hooks.c:67-107 | sent as one batch, an input's expansion gives the same machine as the input: the same events in the same order, claims, displacements and remainders, for living and dead owners |
| SplitRefusals.SplittingSurvivesRefusals | src/synthetic_hooks.c:67-107 | whatever is refused and however full the claims are, the expansion leaves every source and claim as the admission of the whole input recorded |
| SplitRefusals.SplitsAlikeExactlyWhenSafe | src/platform/linux_synth.c:1255-1347 | on every reachable machine, whatever it refuses, an input and its expansion leave the same sources and claims iff what is played of the input for that owner is safe |
| SplitRefusals.ClickSplitsApart | src/platform/linux_synth.c:1322-1331 | on devices that refuse writes a click leaves its button held and its expansion does not |
| Fragments.FragmentsAlikeExactlyWhen | src/daemon/hook_lanes.inc:744-757 | on every machine that accepts writes, for a living owner, an input's expansion sent as separate batches gives the same machine as the input iff the input does not both move absolutely and press a button |
| Splitting.SplittingPreservesAdmission | src/synthetic_hooks.c:67-107 | admission records the same for the expansion as for the input, whether or not claims have room |
| Splitting.InputCount | src/synthetic_hooks.c:23-38 | counts the expansion, which has 1 to 11 inputs |
| Splitting.BatchCount | src/synthetic_hooks.c:40-65 | succeeds iff the exact sum fits the limit, and never subtracts below zero |
| Splitting.ExpandInput | src/synthetic_hooks.c:67-107 | fills exactly the start of the output buffer with the expansion |
| Splitting.ExpansionsCarryTheirInput | src/synthetic_hooks.c:67-107 | every step of an expansion carries its input's data, time and extra information, its motion only if it is the move, and one flag otherwise; and every flag that asks for something is in a step |
| TypedText.TextIsRead | src/platform/linux_synth.c:419-491 | a program that reads the key events of a steady sink (U under Ctrl and Shift, hexadecimal keys, space) reads of a batch of text exactly the code points of its units, with unpaired surrogates and zeros left out, with or without key-ups and wherever the batch was cut into fragments |
| TypedText.TextArrivesWhole | src/platform/linux_synth.c:419-491 | so the UTF-16 of any list of nonzero code points is read back as that list |
| UnicodeEntry.DecodeEncoded | src/platform/linux_synth.c:467-491 | decoding the encoding of section 2.1 of RFC 2781 gives back the list and leaves no surrogate pending |
| UnicodeEntry.KeysSpellTheCodePoint | src/platform/linux_synth.c:376-436 | the keys typed for a code point, read in base 16, are the code point, with at least four digits |
| Wire.HeaderRoundTrip | src/internal/protocol.h:149-183 | the peer decodes the header that was encoded |
| Wire.HeaderCanonical | src/internal/protocol.h:149-183 | only that encoding decodes to it |
| Codecs.InputRoundTrip | src/client.c:613-645 | the service decodes the input the client encoded |
| Codecs.InputCanonical | src/protocol_codec.c:139-180 | input decoding accepts exactly the canonical encodings |
| Codecs.WriteInput | src/protocol_codec.c:182-204 | both ends' encoder zeroes the buffer and writes each field at its offset, which gives the canonical encoding |
| Codecs.EventRoundTrip | src/protocol_codec.c:321-358 | the client decodes the hook event the service encoded |
| Codecs.HashRoundTrip | src/protocol_codec.c:373-397 | a raw hash written out in hexadecimal reads back unchanged |
| Codecs.HexRoundTrip | src/protocol_codec.c:373-397 | a hexadecimal hash stored raw is written out unchanged |
| DeviceCodec.DeviceRoundTrip | src/device_codec.h:23-104 | the client reads the device description the service wrote |
| DeviceCodec.GamepadRoundTrip | src/device_codec.h:106-155 | the client reads the gamepad state the service wrote |
| DeviceCodec.WriteDevice | src/device_codec.h:23-50 | the service's encoder zeroes the buffer and writes each field and table entry at its offset, which gives the encoding the client reads |
| DeviceCodec.WriteGamepad | src/device_codec.h:106-123 | the same for a gamepad state, clipped to 64 axes, and its length |
| DeviceCodec.CollectedButtonsOk | src/platform/linux_devices.c:243-260 | the button list built from any key bitmap holds its buttons only, leaves one out only when it is full of buttons that come before it in joydev's order, and passes the decoder's order check |
| DeviceCodec.CollectGamepadButtons | src/platform/linux_devices.c:243-260 | the two loops build that list |
| Paging.FollowPages | src/client.c:1618-1661 | the client ends against any peer because the offset grows within 32 bits, and visits every entry of an honest listing once, in order |
| Paging.ListPage | src/platform/linux_devices.c:2644-2657 | a page and the listing from its next offset are the listing from its offset |
| Paging.CollectGamepads | src/platform/linux_devices.c:2670-2689 | the insertion sort lists exactly the gamepads, by event node and then by place in the table |
| Paging.OrderIsUnique | src/platform/linux_devices.c:2667-2689 | there is only one such list, so the order is the stable sort |

## Left out

- CoupledRuns.ViewsAgreeWhenDrained: for FIFO runs as its row describes them, because otherwise the views differ: `Refusals.UnsafeInputsPart` and the runs of `Divergence` show each exclusion.
- CoupledRuns.QueriesMatchTheSink: for the same runs and for keyboard keys, since pointer buttons are held by clones and by the absolute device; a failed sink keeps keys nobody wants any more.
- Splitting.SplittingPreservesMeaning: equality of whole machines is for accepted writes and an owner with room; for all machines `SplitRefusals` gives the sources and claims, and the exact condition.
- Forwarders.Forwarder.ClearSynthKeys: clears one bit at a time where the source clears a byte before reconciling its keys; a key's reconciliation reads only its own bit.
- DeviceCodec.DeviceRoundTrip: for descriptions with terminated texts, ascending axes and a button list in the decoder's order, which does not rule out repeated codes.
- DeviceCodec.WriteDevice: for counts within the tables of the description; the source clips the entries and not the count, and the decoder refuses such a count.
- SYN reports and their placement, open-report flags, pacing and the legacy wheel steps added inside write.
- Switches, LEDs, sink generations, downstream-grab probing beyond its answer, foreign grabs and log messages.
- Injected sources: a grab taken on one is released without the forwarding table.
- Input generations: a packet that a change of seat made stale is dropped and counts as accepted.
- The daemon's lanes but for the replays that wait in them, which GrabBoundary models; permissions, cleanup reserve and queue limit: the queue is a sequence, and an end or close may find it full.
- Locks in the forwarding and synthesis files: each operation is one step, as under its mutex; the turn mutex, the registry mutex and the atomics of src/connection_ref.c are modelled step by step.
- Linked lists: waiters and the registry are sequences; the registry and the reference counts are modelled on values, since their property is about interleavings.
- The flag words of inputs: sets of named flags, with unnamed bits ignored, except on the wire, where they are numbers.
- Poll-descriptor readiness, the notification queue of callback streams, and gamepad state collection.
- A ring of messages between threads (src/pipe_ring.c), a pool of threads (src/worker_pool.c), a pipe that wakes a poll (src/wake_pipe.c) and the virtual-key table (src/platform/vk_evdev.c): bookkeeping with short bodies, whose properties would restate them.
